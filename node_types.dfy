/**
 * The seventeen node type codes of the node interface. They are sequential
 * integers, not bit flags, which matters where the reader combines two of
 * them with a bitwise or.
 */
module NodeTypes {

  const TypeAttribute: int := 1
  const TypeCDATA: int := 2
  const TypeComment: int := 3
  const TypeDocument: int := 4
  const TypeDocumentFragment: int := 5
  const TypeDocumentType: int := 6
  const TypeEndElement: int := 7
  const TypeEndEntity: int := 8
  const TypeElement: int := 9
  const TypeEntity: int := 10
  const TypeEntityReference: int := 11
  const TypeInsignificantWhitespace: int := 12
  const TypeNotation: int := 13
  const TypeProcessingInstruction: int := 14
  const TypeSignificantWhitespace: int := 15
  const TypeText: int := 16
  const TypeXmlDeclaration: int := 17

  /** The constants in declaration order. */
  const AllTypes: seq<int> := [
    TypeAttribute, TypeCDATA, TypeComment, TypeDocument, TypeDocumentFragment,
    TypeDocumentType, TypeEndElement, TypeEndEntity, TypeElement, TypeEntity,
    TypeEntityReference, TypeInsignificantWhitespace, TypeNotation,
    TypeProcessingInstruction, TypeSignificantWhitespace, TypeText,
    TypeXmlDeclaration
  ]

  /** True of exactly the integers that name a node type. */
  predicate IsTypeCode(code: int) {
    code in AllTypes
  }

  /** The codes are pairwise distinct and are exactly the integers 1 to 17. */
  lemma TypeCodesAreOneToSeventeen()
    ensures |AllTypes| == 17
    ensures forall i :: 0 <= i < |AllTypes| ==> AllTypes[i] == i + 1
    ensures forall i, j :: 0 <= i < j < |AllTypes| ==> AllTypes[i] != AllTypes[j]
    ensures forall code :: IsTypeCode(code) <==> 1 <= code <= 17
  {
    forall code | 1 <= code <= 17 ensures IsTypeCode(code) {
      assert AllTypes[code - 1] == code;
    }
  }

  /** PHP's `|` on two small non-negative integers. */
  function BitOr(a: int, b: int): int
    requires 0 <= a < 256 && 0 <= b < 256
  {
    ((a as bv8) | (b as bv8)) as int
  }

  /**
   * The type the reader gives a self-closing element: ELEMENT | END_ELEMENT,
   * meant as "both start and end".
   */
  const SelfClosingType: int := BitOr(TypeElement, TypeEndElement)

  /**
   * Because the codes are sequential, 9 | 7 is 15, the code of significant
   * whitespace, and not a combination of the two element codes.
   */
  lemma SelfClosingTypeIsSignificantWhitespace()
    ensures SelfClosingType == TypeSignificantWhitespace
    ensures SelfClosingType != TypeElement && SelfClosingType != TypeEndElement
  {
  }
}
