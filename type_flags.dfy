/**
 * The node type as a set of flags, one bit per type code. This is the
 * design the reader's `ELEMENT | END_ELEMENT` presupposes: with one bit per
 * code the union of two kinds is a value distinct from every single kind,
 * and a self-closing element is both a start and an end. The sequential
 * codes of NodeTypes do not have this property (see
 * NodeTypes.SelfClosingTypeIsSignificantWhitespace).
 */
module TypeFlags {
  import opened NodeTypes
  import opened Nodes

  /** The bit that stands for one type code. */
  function Flag(code: int): bv32
    requires 1 <= code <= 17
  {
    (1 as bv32) << ((code - 1) as bv5)
  }

  /** The flag set of a self-closing element: start and end at once. */
  const SelfClosingFlags: bv32 := Flag(TypeElement) | Flag(TypeEndElement)

  predicate HasKind(flags: bv32, code: int)
    requires 1 <= code <= 17
  {
    flags & Flag(code) != 0
  }

  predicate IsElementFlags(flags: bv32) { HasKind(flags, TypeElement) || HasKind(flags, TypeEndElement) }
  predicate IsEndFlags(flags: bv32) { HasKind(flags, TypeEndElement) || HasKind(flags, TypeEndEntity) }
  predicate IsEntityFlags(flags: bv32) { HasKind(flags, TypeEndEntity) || HasKind(flags, TypeEntity) }
  predicate IsStartFlags(flags: bv32) { HasKind(flags, TypeElement) || HasKind(flags, TypeEntity) }

  /**
   * With flags, the self-closing element is an element, a start and an end,
   * and not significant whitespace or any other single kind.
   */
  lemma SelfClosingFlagsAreStartAndEnd()
    ensures IsElementFlags(SelfClosingFlags) && IsStartFlags(SelfClosingFlags) && IsEndFlags(SelfClosingFlags)
    ensures !IsEntityFlags(SelfClosingFlags)
    ensures forall code :: 1 <= code <= 17 ==>
      (HasKind(SelfClosingFlags, code) <==> code == TypeElement || code == TypeEndElement)
  {
    forall code | 1 <= code <= 17
      ensures HasKind(SelfClosingFlags, code) <==> code == TypeElement || code == TypeEndElement
    {
      FlagsDistinct(code, TypeElement);
      FlagsDistinct(code, TypeEndElement);
    }
  }

  /** Distinct codes have disjoint bits. */
  lemma FlagsDistinct(a: int, b: int)
    requires 1 <= a <= 17 && 1 <= b <= 17
    ensures (Flag(a) & Flag(b) != 0) <==> a == b
  {
  }

  /**
   * On a single code the flag predicates agree with the node's own
   * predicates, so switching to flags changes only the self-closing case.
   */
  lemma FlagsAgreeWithCodes(n: Node)
    requires 1 <= n.nodeType <= 17
    ensures IsElementFlags(Flag(n.nodeType)) == n.IsElement()
    ensures IsEndFlags(Flag(n.nodeType)) == n.IsEnd()
    ensures IsEntityFlags(Flag(n.nodeType)) == n.IsEntity()
    ensures IsStartFlags(Flag(n.nodeType)) == n.IsStart()
    ensures HasKind(Flag(n.nodeType), TypeSignificantWhitespace) == n.IsSignificantWhitespace()
    ensures HasKind(Flag(n.nodeType), TypeText) == n.IsText()
  {
    var c := n.nodeType;
    FlagsDistinct(c, TypeElement);
    FlagsDistinct(c, TypeEndElement);
    FlagsDistinct(c, TypeEntity);
    FlagsDistinct(c, TypeEndEntity);
    FlagsDistinct(c, TypeSignificantWhitespace);
    FlagsDistinct(c, TypeText);
  }
}
