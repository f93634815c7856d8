/**
 * A stand-in for libxml's XMLReader: the document is given as the sequence
 * of tokens the library would report, and the reader is a cursor over it.
 * What the library computes (depth, inherited xml:lang, namespace
 * resolution, attribute decoding) is part of each token, not logic here.
 */
module Cursors {
  import opened Outcomes

  /** The node kinds XMLReader reports; NoNode is its NONE. */
  datatype Kind =
    | NoNode
    | ElementNode
    | AttributeNode
    | TextNode
    | CDataNode
    | EntityRefNode
    | EntityNode
    | PINode
    | CommentNode
    | DocNode
    | DocTypeNode
    | DocFragmentNode
    | NotationNode
    | WhitespaceNode
    | SignificantWhitespaceNode
    | EndElementNode
    | EndEntityNode
    | XmlDeclarationNode

  /** One attribute of a token, as the reader reports it. */
  datatype Attr = Attr(name: string, value: string)

  /**
   * What the reader reports about one node: its kind, qualified and local
   * name, whether it is an empty element, its depth, xml:lang, prefix,
   * namespace URI, value ("" when it has none) and attributes in order.
   */
  datatype Token = Token(
    kind: Kind,
    name: string,
    localName: string,
    isEmpty: bool,
    depth: nat,
    lang: string,
    prefix: string,
    uri: string,
    value: string,
    attributes: seq<Attr>)

  /** What the reader reports before the first read and after the last. */
  const NoToken: Token := Token(NoNode, "", "", false, 0, "", "", "", "", [])

  /**
   * The reader's position: `at` is 0 before the first read, k when on
   * tokens[k - 1], and |tokens| + 1 once a read has failed; `attribute` is
   * the attribute the reader is moved to, if any.
   */
  datatype Cursor = Cursor(tokens: seq<Token>, at: nat, attribute: Option<nat>)
  {
    ghost predicate Wellformed() {
      at <= |tokens| + 1
      && (attribute.Some? ==> 1 <= at <= |tokens| && attribute.value < |tokens[at - 1].attributes|)
    }

    /** The node under the cursor; NoToken outside the document. */
    function Node(): (t: Token)
      ensures 1 <= at <= |tokens| ==> t == tokens[at - 1]
      ensures (at == 0 || at > |tokens|) ==> t.kind == NoNode && t.attributes == []
    {
      if 1 <= at <= |tokens| then tokens[at - 1] else NoToken
    }

    /** The name: the attribute's when moved to one, else the node's. */
    function Name(): string {
      if attribute.Some? && attribute.value < |Node().attributes|
      then Node().attributes[attribute.value].name else Node().name
    }

    /** The value: the attribute's when moved to one, else the node's. */
    function Value(): string {
      if attribute.Some? && attribute.value < |Node().attributes|
      then Node().attributes[attribute.value].value else Node().value
    }

    /** Only the node itself, not one of its attributes, reports attributes. */
    predicate HasAttributes() {
      attribute.None? && |Node().attributes| > 0
    }

    /**
     * Moves to the next node; false, and positioned past the end, once the
     * tokens are exhausted.
     */
    function Read(): (r: (bool, Cursor))
      ensures r.1.tokens == tokens && r.1.attribute.None?
      ensures r.0 <==> at < |tokens|
      ensures r.0 ==> r.1.at == at + 1
      ensures !r.0 ==> r.1.at == |tokens| + 1 && r.1.Node().kind == NoNode
      ensures r.1.Wellformed()
    {
      if at < |tokens| then (true, Cursor(tokens, at + 1, None))
      else (false, Cursor(tokens, |tokens| + 1, None))
    }

    function MoveToFirstAttribute(): (r: (bool, Cursor))
      ensures r.0 <==> |Node().attributes| > 0
      ensures r.1 == if r.0 then this.(attribute := Some(0)) else this
    {
      if |Node().attributes| > 0 then (true, this.(attribute := Some(0))) else (false, this)
    }

    /** From the node itself this is the same as moving to the first attribute. */
    function MoveToNextAttribute(): (r: (bool, Cursor))
      ensures attribute.None? ==> r == MoveToFirstAttribute()
      ensures attribute.Some? ==>
        (r.0 <==> attribute.value + 1 < |Node().attributes|)
        && r.1 == if r.0 then this.(attribute := Some(attribute.value + 1)) else this
    {
      match attribute
      case None => MoveToFirstAttribute()
      case Some(i) =>
        if i + 1 < |Node().attributes| then (true, this.(attribute := Some(i + 1))) else (false, this)
    }

    function MoveToElement(): (r: (bool, Cursor))
      ensures r.0 <==> attribute.Some?
      ensures r.1 == this.(attribute := None)
    {
      (attribute.Some?, this.(attribute := None))
    }
  }

  /** A cursor over a freshly opened document: nothing read yet. */
  function Opened(tokens: seq<Token>): (c: Cursor)
    ensures c.Wellformed() && c.Node().kind == NoNode
  {
    Cursor(tokens, 0, None)
  }

  /**
   * Starting from a freshly opened document, k successful reads put the
   * cursor on the k-th token, and one more read than there are tokens
   * fails.
   */
  function ReadTimes(c: Cursor, k: nat): Cursor
    decreases k
  {
    if k == 0 then c else ReadTimes(c.Read().1, k - 1)
  }

  lemma {:induction false} ReadsVisitTokensInOrder(tokens: seq<Token>, k: nat)
    requires k <= |tokens|
    ensures ReadTimes(Opened(tokens), k) == Cursor(tokens, k, None)
    ensures 1 <= k ==> ReadTimes(Opened(tokens), k).Node() == tokens[k - 1]
    ensures ReadTimes(Opened(tokens), k).Read().0 <==> k < |tokens|
  {
    if k > 0 {
      ReadsVisitTokensFrom(Opened(tokens), k);
    }
  }

  lemma {:induction false} ReadsVisitTokensFrom(c: Cursor, k: nat)
    requires c.attribute.None? && c.at + k <= |c.tokens|
    ensures ReadTimes(c, k) == c.(at := c.at + k)
    decreases k
  {
    if k > 0 {
      ReadsVisitTokensFrom(c.Read().1, k - 1);
    }
  }

  /**
   * The reader itself: a mutable cursor. Each method moves it as the
   * function of the same name on Cursor says.
   */
  class XmlReader {
    var tokens: seq<Token>
    var at: nat
    var attribute: Option<nat>

    function State(): Cursor
      reads this
    {
      Cursor(tokens, at, attribute)
    }

    /** Opens a document given as its tokens. */
    constructor (document: seq<Token>)
      ensures State() == Opened(document)
    {
      tokens := document;
      at := 0;
      attribute := None;
    }

    method Read() returns (ok: bool)
      modifies this
      ensures (ok, State()) == old(State()).Read()
    {
      var r := State().Read();
      ok := r.0;
      at, attribute := r.1.at, r.1.attribute;
    }

    method MoveToFirstAttribute() returns (ok: bool)
      modifies this
      ensures (ok, State()) == old(State()).MoveToFirstAttribute()
    {
      ok := |State().Node().attributes| > 0;
      if ok {
        attribute := Some(0);
      }
    }

    method MoveToNextAttribute() returns (ok: bool)
      modifies this
      ensures (ok, State()) == old(State()).MoveToNextAttribute()
    {
      var count := |State().Node().attributes|;
      match attribute
      case None =>
        ok := count > 0;
        if ok {
          attribute := Some(0);
        }
      case Some(i) =>
        ok := i + 1 < count;
        if ok {
          attribute := Some(i + 1);
        }
    }

    method MoveToElement() returns (ok: bool)
      modifies this
      ensures (ok, State()) == old(State()).MoveToElement()
    {
      ok := attribute.Some?;
      attribute := None;
    }
  }
}
