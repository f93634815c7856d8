/**
 * Failure-carrying values shared by the whole model, and the one error type
 * that stands for the exception classes the core throws.
 */
module Outcomes {

  /** PHP `null` versus a present value. */
  datatype Option<+T> = None | Some(value: T)

  /** A value, or the exception that was thrown instead of returning it. */
  datatype Result<+T> = Success(value: T) | Failure(error: Error)

  /** The outcome of an operation that returns nothing when it succeeds. */
  datatype Status = Done | Failed(error: Error)

  /**
   * One variant per exception class the core can throw. The classes under
   * Exception/ have no bodies of their own; only their identity matters.
   */
  datatype Error =
    | NoSuchAttribute(name: string)   // Node::getAttribute
    | MissingDepth                    // NodeBuilder::build
    | MissingLocalName
    | MissingPosition
    | MissingType
    | MissingPrefix                   // documented for build(), raised only by the corrected builder
    | MissingURI
    | MissingInternalReader           // AbstractReader::getReader
}
