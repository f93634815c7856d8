/**
 * The immutable node snapshot: every field is fixed when the value is
 * built, the getters are the datatype's field selectors, and the `is*`
 * predicates compare the type code with the interface's constants.
 */
module Nodes {
  import opened Outcomes
  import opened NodeTypes

  /**
   * One node of the document.
   *
   * The PHP constructor takes (type, name, value, depth, language, prefix,
   * uri, attributes) and has no position parameter, while the builder calls
   * it with nine arguments (type, localName, value, position, depth,
   * language, prefix, uri, attributes), so from the position on each value
   * fills the parameter of the field after it: the position becomes the
   * depth, the depth the language, the language the prefix, the prefix the
   * URI, and the URI (a string or null) lands in the `array` parameter,
   * which PHP rejects with a TypeError. Here every field is taken by name and
   * `position` is a field of its own, which is what the builder and the
   * reader's callers expect of a node.
   */
  datatype Node = Node(
    nodeType: int,
    localName: string,
    value: Option<string>,
    position: int,
    depth: int,
    language: Option<string>,
    prefix: Option<string>,
    uri: Option<string>,
    attributes: map<string, string>)
  {
    /** The value of one attribute, or NoSuchAttribute when it is absent. */
    function GetAttribute(name: string): (r: Result<string>)
      ensures r.Success? <==> name in attributes
      ensures r.Success? ==> r.value == attributes[name]
      ensures r.Failure? ==> r.error == NoSuchAttribute(name)
    {
      if name !in attributes then Failure(NoSuchAttribute(name)) else Success(attributes[name])
    }

    /** `prefix:localName`, or the bare local name when there is no prefix. */
    function QualifiedName(): (r: string)
      ensures prefix.None? ==> r == localName
      ensures prefix.Some? ==> |r| == |prefix.value| + 1 + |localName|
      ensures prefix.Some? ==> r[..|prefix.value|] == prefix.value && r[|prefix.value|] == ':'
      ensures r[|r| - |localName|..] == localName
    {
      if prefix.None? then localName else prefix.value + ":" + localName
    }

    // Single-kind predicates: each compares the type with one constant.

    predicate IsAttribute() { nodeType == TypeAttribute }
    predicate IsCDATA() { nodeType == TypeCDATA }
    predicate IsComment() { nodeType == TypeComment }
    predicate IsDocument() { nodeType == TypeDocument }
    predicate IsDocumentFragment() { nodeType == TypeDocumentFragment }
    predicate IsDocumentType() { nodeType == TypeDocumentType }
    predicate IsEntityReference() { nodeType == TypeEntityReference }
    predicate IsInsignificantWhitespace() { nodeType == TypeInsignificantWhitespace }
    predicate IsNotation() { nodeType == TypeNotation }
    predicate IsProcessingInstruction() { nodeType == TypeProcessingInstruction }
    predicate IsSignificantWhitespace() { nodeType == TypeSignificantWhitespace }
    predicate IsText() { nodeType == TypeText }
    predicate IsXmlDeclaration() { nodeType == TypeXmlDeclaration }

    // Composite predicates: each accepts one of two constants.

    predicate IsElement() { nodeType == TypeEndElement || nodeType == TypeElement }
    predicate IsEnd() { nodeType == TypeEndElement || nodeType == TypeEndEntity }
    predicate IsEntity() { nodeType == TypeEndEntity || nodeType == TypeEntity }
    predicate IsStart() { nodeType == TypeElement || nodeType == TypeEntity }
  }

  /** How many of the thirteen single-kind predicates hold of a node. */
  function SingleKindCount(n: Node): nat {
    (if n.IsAttribute() then 1 else 0) + (if n.IsCDATA() then 1 else 0)
    + (if n.IsComment() then 1 else 0) + (if n.IsDocument() then 1 else 0)
    + (if n.IsDocumentFragment() then 1 else 0) + (if n.IsDocumentType() then 1 else 0)
    + (if n.IsEntityReference() then 1 else 0) + (if n.IsInsignificantWhitespace() then 1 else 0)
    + (if n.IsNotation() then 1 else 0) + (if n.IsProcessingInstruction() then 1 else 0)
    + (if n.IsSignificantWhitespace() then 1 else 0) + (if n.IsText() then 1 else 0)
    + (if n.IsXmlDeclaration() then 1 else 0)
  }

  /**
   * The predicates classify every code: a code of one of the four element
   * and entity kinds satisfies no single-kind predicate and exactly two of
   * the composite ones; any other of the seventeen codes satisfies exactly
   * one single-kind predicate and no composite one; an integer outside 1..17
   * satisfies nothing.
   */
  lemma PredicatesClassifyTypes(n: Node)
    ensures 7 <= n.nodeType <= 10 ==> SingleKindCount(n) == 0
    ensures 7 <= n.nodeType <= 10 ==>
      (if n.IsElement() then 1 else 0) + (if n.IsStart() then 1 else 0)
      + (if n.IsEnd() then 1 else 0) + (if n.IsEntity() then 1 else 0) == 2
    ensures (1 <= n.nodeType <= 6 || 11 <= n.nodeType <= 17) ==>
      SingleKindCount(n) == 1 && !n.IsElement() && !n.IsStart() && !n.IsEnd() && !n.IsEntity()
    ensures !(1 <= n.nodeType <= 17) ==>
      SingleKindCount(n) == 0 && !n.IsElement() && !n.IsStart() && !n.IsEnd() && !n.IsEntity()
  {
  }

  /**
   * No type is both a start and an end, and the type the reader gives a
   * self-closing element reads as significant whitespace, not as an element.
   */
  lemma StartAndEndAreExclusive(n: Node)
    ensures !(n.IsStart() && n.IsEnd())
    ensures n.nodeType == SelfClosingType ==>
      n.IsSignificantWhitespace() && !n.IsElement() && !n.IsStart() && !n.IsEnd()
  {
    SelfClosingTypeIsSignificantWhitespace();
  }

  /** Splits a qualified name at its first colon. */
  function SplitQualifiedName(q: string): (r: (Option<string>, string))
    ensures ':' !in q ==> r == (None, q)
    ensures ':' in q ==> r.0.Some? && |r.0.value| + 1 + |r.1| == |q| && ':' !in r.0.value
  {
    if ':' !in q then (None, q)
    else
      var i := FirstColon(q);
      (Some(q[..i]), q[i + 1..])
  }

  /** The index of the first colon of `s`. */
  function FirstColon(s: string): (i: nat)
    requires ':' in s
    ensures i < |s| && s[i] == ':' && ':' !in s[..i]
  {
    if s[0] == ':' then 0
    else
      assert s == [s[0]] + s[1..];
      var j := FirstColon(s[1..]);
      assert s[..j + 1] == [s[0]] + s[1..][..j];
      j + 1
  }

  /**
   * Splitting the qualified name gives back the prefix and the local name
   * whenever neither contains a colon (as XML namespaces require).
   */
  lemma {:induction false} QualifiedNameSplits(n: Node)
    requires ':' !in n.localName
    requires n.prefix.Some? ==> ':' !in n.prefix.value
    ensures SplitQualifiedName(n.QualifiedName()) == (n.prefix, n.localName)
  {
    var q := n.QualifiedName();
    if n.prefix.Some? {
      var p := n.prefix.value;
      assert q == p + ":" + n.localName;
      assert q[..|p|] == p;
      assert q[|p|] == ':';
      var i := FirstColon(q);
      assert i == |p|;
      assert q[..i] == p;
      assert q[i + 1..] == n.localName;
    }
  }

  /** The type each test case constructs a node with, and what it asserts. */
  lemma TestedTypePairings(n: Node)
    ensures n.nodeType == TypeAttribute ==> n.IsAttribute()
    ensures n.nodeType == TypeCDATA ==> n.IsCDATA()
    ensures n.nodeType == TypeComment ==> n.IsComment()
    ensures n.nodeType == TypeDocument ==> n.IsDocument()
    ensures n.nodeType == TypeDocumentFragment ==> n.IsDocumentFragment()
    ensures n.nodeType == TypeDocumentType ==> n.IsDocumentType()
    ensures n.nodeType == TypeEndElement ==> n.IsElement() && n.IsEnd()
    ensures n.nodeType == TypeEndEntity ==> n.IsEntity() && n.IsEnd()
    ensures n.nodeType == TypeElement ==> n.IsElement() && n.IsStart()
    ensures n.nodeType == TypeEntity ==> n.IsEntity() && n.IsStart()
    ensures n.nodeType == TypeEntityReference ==> n.IsEntityReference()
    ensures n.nodeType == TypeInsignificantWhitespace ==> n.IsInsignificantWhitespace()
    ensures n.nodeType == TypeNotation ==> n.IsNotation()
    ensures n.nodeType == TypeProcessingInstruction ==> n.IsProcessingInstruction()
    ensures n.nodeType == TypeSignificantWhitespace ==> n.IsSignificantWhitespace()
    ensures n.nodeType == TypeText ==> n.IsText()
    ensures n.nodeType == TypeXmlDeclaration ==> n.IsXmlDeclaration()
  {
  }
}
