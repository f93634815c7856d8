/**
 * The abstract reader: an iterator over a document whose keys are node
 * paths and whose values are node snapshots. It drives the cursor, keeps a
 * path builder in step with it, and turns what the cursor reports into
 * nodes through a node builder.
 */
module Reading {
  import opened Outcomes
  import opened NodeTypes
  import opened Nodes
  import opened NodeBuilding
  import opened TypeFlags
  import opened Paths
  import opened Cursors

  /** The reader's type map: one node type per cursor kind; NONE has none. */
  function TypeMap(k: Kind): (r: Option<int>)
    ensures r.None? <==> k == NoNode
    ensures r.Some? ==> 1 <= r.value <= 17
  {
    match k
    case NoNode => None
    case AttributeNode => Some(TypeAttribute)
    case CDataNode => Some(TypeCDATA)
    case CommentNode => Some(TypeComment)
    case DocNode => Some(TypeDocument)
    case DocFragmentNode => Some(TypeDocumentFragment)
    case DocTypeNode => Some(TypeDocumentType)
    case ElementNode => Some(TypeElement)
    case EndElementNode => Some(TypeEndElement)
    case EndEntityNode => Some(TypeEndEntity)
    case EntityNode => Some(TypeEntity)
    case EntityRefNode => Some(TypeEntityReference)
    case WhitespaceNode => Some(TypeInsignificantWhitespace)
    case NotationNode => Some(TypeNotation)
    case PINode => Some(TypeProcessingInstruction)
    case SignificantWhitespaceNode => Some(TypeSignificantWhitespace)
    case TextNode => Some(TypeText)
    case XmlDeclarationNode => Some(TypeXmlDeclaration)
  }

  /** The cursor kind a node type stands for: the type map read backwards. */
  function KindOfType(code: int): (r: Option<Kind>)
    ensures r.Some? <==> 1 <= code <= 17
  {
    if code == TypeAttribute then Some(AttributeNode)
    else if code == TypeCDATA then Some(CDataNode)
    else if code == TypeComment then Some(CommentNode)
    else if code == TypeDocument then Some(DocNode)
    else if code == TypeDocumentFragment then Some(DocFragmentNode)
    else if code == TypeDocumentType then Some(DocTypeNode)
    else if code == TypeEndElement then Some(EndElementNode)
    else if code == TypeEndEntity then Some(EndEntityNode)
    else if code == TypeElement then Some(ElementNode)
    else if code == TypeEntity then Some(EntityNode)
    else if code == TypeEntityReference then Some(EntityRefNode)
    else if code == TypeInsignificantWhitespace then Some(WhitespaceNode)
    else if code == TypeNotation then Some(NotationNode)
    else if code == TypeProcessingInstruction then Some(PINode)
    else if code == TypeSignificantWhitespace then Some(SignificantWhitespaceNode)
    else if code == TypeText then Some(TextNode)
    else if code == TypeXmlDeclaration then Some(XmlDeclarationNode)
    else None
  }

  /**
   * The type map is one-to-one and onto the seventeen node types: every
   * kind but NONE maps to a type that maps back to it, and every type is
   * the image of its kind.
   */
  lemma TypeMapIsBijective(k: Kind, code: int)
    ensures k != NoNode ==> KindOfType(TypeMap(k).value) == Some(k)
    ensures 1 <= code <= 17 ==> TypeMap(KindOfType(code).value) == Some(code)
  {
  }

  lemma TypeMapInjective(a: Kind, b: Kind)
    requires TypeMap(a) == TypeMap(b)
    ensures a == b
  {
    TypeMapIsBijective(a, 0);
    TypeMapIsBijective(b, 0);
  }

  /** True of a token that opens an element or entity with content. */
  predicate OpensContent(t: Token) {
    (t.kind == ElementNode || t.kind == EntityNode) && !t.isEmpty
  }

  /** True of a token that closes an element or entity. */
  predicate IsClosing(t: Token) {
    t.kind == EndElementNode || t.kind == EndEntityNode
  }

  /**
   * readType: an empty element gets ELEMENT | END_ELEMENT; every other
   * token gets its kind's type through the type map (none for NONE).
   */
  function ReadType(t: Token): (r: Option<int>)
    ensures r.None? <==> t.kind == NoNode
    ensures r.Some? ==> 1 <= r.value <= 17
    ensures t.kind != ElementNode || !t.isEmpty ==> r == TypeMap(t.kind)
  {
    SelfClosingTypeIsSignificantWhitespace();
    if t.isEmpty && t.kind == ElementNode then Some(SelfClosingType) else TypeMap(t.kind)
  }

  /**
   * As written, a self-closing element is given the type of significant
   * whitespace: the node built from it is indistinguishable by type from a
   * whitespace node, and reads as neither element, start nor end.
   */
  lemma SelfClosingReadsAsWhitespace(t: Token, w: Token)
    requires t.kind == ElementNode && t.isEmpty
    requires w.kind == SignificantWhitespaceNode
    ensures ReadType(t) == ReadType(w) == Some(TypeSignificantWhitespace)
  {
    SelfClosingTypeIsSignificantWhitespace();
  }

  /**
   * readType as intended, on one bit per type: an empty element is both
   * ELEMENT and END_ELEMENT; every other token has the one bit of its type.
   */
  function ReadTypeFlags(t: Token): (r: Option<bv32>)
    ensures r.None? <==> t.kind == NoNode
    ensures t.kind == ElementNode && t.isEmpty ==>
      r.Some? && IsElementFlags(r.value) && IsStartFlags(r.value) && IsEndFlags(r.value)
      && !HasKind(r.value, TypeSignificantWhitespace)
    ensures (t.kind != ElementNode || !t.isEmpty) && r.Some? ==> r.value == Flag(TypeMap(t.kind).value)
  {
    if t.isEmpty && t.kind == ElementNode then
      SelfClosingFlagsAreStartAndEnd();
      Some(SelfClosingFlags)
    else
      match TypeMap(t.kind)
      case None => None
      case Some(code) => Some(Flag(code))
  }

  /**
   * With flags, the self-closing element and a whitespace node are told
   * apart, and every other token's flags say what its type code says.
   */
  lemma FlagsSeparateSelfClosing(t: Token, w: Token)
    requires t.kind == ElementNode && t.isEmpty
    requires w.kind == SignificantWhitespaceNode
    ensures ReadTypeFlags(t) != ReadTypeFlags(w)
  {
    FlagsDistinct(TypeSignificantWhitespace, TypeElement);
  }

  /** valueOrNull: the empty string becomes null, anything else is kept. */
  function ValueOrNull(s: string): (r: Option<string>)
    ensures r.None? <==> s == ""
    ensures r.Some? ==> r.value == s
  {
    if s == "" then None else Some(s)
  }

  /** The reverse reading: null as the empty string. */
  function OrEmpty(o: Option<string>): string {
    if o.None? then "" else o.value
  }

  /**
   * valueOrNull loses nothing: reading the result back as a string gives
   * the input, and it is a right inverse except on Some("").
   */
  lemma ValueOrNullRoundTrip(s: string, o: Option<string>)
    ensures OrEmpty(ValueOrNull(s)) == s
    ensures o != Some("") ==> ValueOrNull(OrEmpty(o)) == o
    ensures ValueOrNull(s).Some? ==> ValueOrNull(s).value != ""
  {
  }

  /** readValue: the node's value, or null when it is the empty string. */
  function ReadValue(t: Token): (r: Option<string>)
    ensures r.None? <==> t.value == ""
    ensures OrEmpty(r) == t.value
  {
    if t.value == "" then None else Some(t.value)
  }

  /**
   * The array readAttributes fills: each attribute assigned in order, so a
   * later attribute of the same name overwrites an earlier one.
   */
  function AttributeMap(attrs: seq<Attr>): map<string, string> {
    if attrs == [] then map[]
    else AttributeMap(attrs[..|attrs| - 1])[attrs[|attrs| - 1].name := attrs[|attrs| - 1].value]
  }

  /** No later attribute has the same name as attrs[i]. */
  predicate LastOfName(attrs: seq<Attr>, i: nat)
    requires i < |attrs|
  {
    forall j :: i < j < |attrs| ==> attrs[j].name != attrs[i].name
  }

  /** The attribute array has a key for exactly the names of the attributes. */
  lemma {:induction false} AttributeMapKeys(attrs: seq<Attr>)
    ensures forall k :: k in AttributeMap(attrs) <==> exists i :: 0 <= i < |attrs| && attrs[i].name == k
  {
    if attrs != [] {
      var n := |attrs| - 1;
      var front := attrs[..n];
      AttributeMapKeys(front);
      forall k
        ensures k in AttributeMap(attrs) <==> exists i :: 0 <= i < |attrs| && attrs[i].name == k
      {
        if k in AttributeMap(front) {
          var i :| 0 <= i < |front| && front[i].name == k;
          assert attrs[i].name == k;
        } else if k != attrs[n].name {
          forall i | 0 <= i < |attrs| ensures attrs[i].name != k {
            if i < n {
              assert front[i] == attrs[i];
            }
          }
        }
      }
    }
  }

  /** Each name maps to the value of its last occurrence. */
  lemma {:induction false} AttributeMapValues(attrs: seq<Attr>, i: nat)
    requires i < |attrs| && LastOfName(attrs, i)
    ensures attrs[i].name in AttributeMap(attrs)
    ensures AttributeMap(attrs)[attrs[i].name] == attrs[i].value
  {
    var n := |attrs| - 1;
    if i < n {
      var front := attrs[..n];
      assert front[i] == attrs[i];
      assert attrs[n].name != attrs[i].name;
      assert LastOfName(front, i) by {
        forall j | i < j < |front| ensures front[j].name != front[i].name {
          assert front[j] == attrs[j];
        }
      }
      AttributeMapValues(front, i);
    }
  }

  /**
   * readAttributes: nothing when the node has no attributes; otherwise
   * every attribute from the first to the last, after which the cursor is
   * moved back to the node.
   */
  method ReadAttributes(reader: XmlReader) returns (attributes: map<string, string>)
    modifies reader
    ensures reader.State() == old(reader.State())
    ensures attributes == if old(reader.State().HasAttributes())
      then AttributeMap(old(reader.State().Node().attributes)) else map[]
  {
    attributes := map[];
    if reader.State().HasAttributes() {
      ghost var start := reader.State();
      ghost var attrs := start.Node().attributes;
      var moved := reader.MoveToFirstAttribute();
      if moved {
        ghost var i := 0;
        var more := true;
        while more
          invariant 0 <= i < |attrs|
          invariant reader.State() == start.(attribute := Some(i))
          invariant more ==> attributes == AttributeMap(attrs[..i])
          invariant !more ==> i == |attrs| - 1 && attributes == AttributeMap(attrs[..i + 1])
          decreases |attrs| - i, more
        {
          assert attrs[..i + 1][..i] == attrs[..i];
          attributes := attributes[reader.State().Name() := reader.State().Value()];
          more := reader.MoveToNextAttribute();
          if more {
            i := i + 1;
          }
        }
        assert attrs[..i + 1] == attrs;
        moved := reader.MoveToElement();
      }
    }
  }

  /** Where the iteration stands: the path tracker and the cursor. */
  datatype Walk = Walk(tracker: Tracker, cursor: Cursor)
  {
    ghost predicate Wellformed() {
      tracker.Wellformed() && cursor.Wellformed() && cursor.attribute.None?
    }
  }

  /**
   * next(): leave the tracker alone if the node being left opens content,
   * else pop it; then read, and if a node was read that is not a closing
   * one, push its qualified name.
   */
  function Advance(w: Walk): (r: Walk)
    requires w.Wellformed()
    ensures r.Wellformed()
    ensures r.cursor == w.cursor.Read().1
  {
    var left := if OpensContent(w.cursor.Node()) then w.tracker else Popped(w.tracker);
    var (ok, c) := w.cursor.Read();
    var entered := if ok && !IsClosing(c.Node()) then Pushed(left, c.Node().name) else left;
    Walk(entered, c)
  }

  /**
   * One next() moves the tracker by at most one level each way: up unless
   * the node left opens content (or nothing is open), down when a node
   * that is not a closing one was read, whose name is then on top.
   */
  lemma AdvanceMovesOneLevel(w: Walk)
    requires w.Wellformed()
    ensures var r := Advance(w);
      r.tracker.depth == w.tracker.depth
        - (if OpensContent(w.cursor.Node()) || w.tracker.depth == -1 then 0 else 1)
        + (if w.cursor.Read().0 && !IsClosing(r.cursor.Node()) then 1 else 0)
    ensures var r := Advance(w);
      w.cursor.Read().0 && !IsClosing(r.cursor.Node()) ==> r.tracker.names[r.tracker.depth] == r.cursor.Node().name
    ensures var r := Advance(w);
      !w.cursor.Read().0 || IsClosing(r.cursor.Node()) ==> r.tracker.positions == if OpensContent(w.cursor.Node()) then w.tracker.positions else Popped(w.tracker).positions
  {
  }

  /** rewind(): a fresh tracker over a freshly opened cursor, then next(). */
  function Start(tokens: seq<Token>): (w: Walk)
    ensures w.Wellformed() && w.cursor == Cursor(tokens, 1, None)
    ensures |tokens| > 0 && !IsClosing(tokens[0]) ==> w.tracker == Pushed(Initial, tokens[0].name)
    ensures |tokens| == 0 || IsClosing(tokens[0]) ==> w.tracker == Initial
  {
    Advance(Walk(Initial, Opened(tokens)))
  }

  /**
   * valid(): the cursor is on a node. It never is before the first read or
   * past the last token, and always is on a token of a document that has
   * no NONE token.
   */
  predicate OnNode(w: Walk)
    ensures OnNode(w) ==> 1 <= w.cursor.at <= |w.cursor.tokens|
    ensures 1 <= w.cursor.at <= |w.cursor.tokens| && NoNoneTokens(w.cursor.tokens) ==> OnNode(w)
  {
    w.cursor.Node().kind != NoNode
  }

  /** key(): the tracker's path; always absolute, and `/` with nothing open. */
  function Key(w: Walk): (k: string)
    requires w.Wellformed()
    ensures |k| >= 1 && k[0] == '/'
    ensures w.tracker.depth == -1 ==> k == "/"
  {
    Path(w.tracker)
  }

  /** The position current() hands the builder: null before anything is open. */
  function PositionField(w: Walk): (r: Option<int>)
    requires w.Wellformed()
    ensures r.None? <==> w.tracker.depth == -1
    ensures r.Some? ==> r.value >= 1
  {
    match Position(w.tracker)
    case None => None
    case Some(p) => Some(p)
  }

  /** The builder fields current() sets from the cursor and the tracker. */
  function Fields(w: Walk): (d: Draft)
    requires w.Wellformed()
  {
    var t := w.cursor.Node();
    Draft(if w.cursor.HasAttributes() then AttributeMap(t.attributes) else map[],
          Some(t.depth), ValueOrNull(t.lang), Some(t.localName), PositionField(w),
          ValueOrNull(t.prefix), ReadType(t), ValueOrNull(t.uri), ReadValue(t))
  }

  /**
   * current(): the node built from those fields. It is built exactly when
   * the cursor is on a node and something is open; with nothing open the
   * builder misses the position, and past the end it misses the type.
   */
  function Snapshot(w: Walk): (r: Result<Node>)
    requires w.Wellformed()
    ensures r.Success? <==> OnNode(w) && w.tracker.depth >= 0
    ensures w.tracker.depth == -1 ==> r == Failure(MissingPosition)
    ensures w.tracker.depth >= 0 && !OnNode(w) ==> r == Failure(MissingType)
  {
    Built(Fields(w))
  }

  /**
   * While the iteration is valid and something is open, current() builds a
   * node: its depth, local name and attributes are the cursor's, its
   * position is the tracker's, its type is the read type and its optional
   * strings are null exactly when the cursor reports "".
   */
  lemma CurrentWhileValid(w: Walk)
    requires w.Wellformed() && OnNode(w) && w.tracker.depth >= 0
    ensures Snapshot(w).Success?
    ensures var n := Snapshot(w).value; var t := w.cursor.Node();
      n.depth == t.depth && n.localName == t.localName
      && n.attributes == AttributeMap(t.attributes)
      && Some(n.position) == PositionField(w)
      && Some(n.nodeType) == ReadType(t)
      && OrEmpty(n.language) == t.lang && OrEmpty(n.prefix) == t.prefix
      && OrEmpty(n.uri) == t.uri && OrEmpty(n.value) == t.value
      && (n.prefix.None? <==> t.prefix == "")
  {
  }

  /**
   * Where a whole iteration over a nested document ends: the last node is
   * at depth 0 and opens nothing, so the next() after it pops the tracker
   * empty and reads past the end. valid() is then false, key() is `/`, and
   * current() fails with MissingPosition, the first required field the
   * builder finds missing.
   */
  lemma CurrentPastTheEnd(tokens: seq<Token>, ws: seq<Walk>)
    requires Nested(tokens) && IsTrace(tokens, ws) && |tokens| > 0
    requires tokens[|tokens| - 1].depth == 0 && !OpensContent(tokens[|tokens| - 1])
    ensures var end := Advance(ws[|ws| - 1]);
      !OnNode(end) && end.tracker.depth == -1 && Key(end) == "/"
      && Snapshot(end) == Failure(MissingPosition)
  {
    var n := |tokens| - 1;
    TrackerFollowsDepth(tokens, ws, n);
    assert ws[n].cursor.Node() == tokens[n];
  }

  /** The walks a foreach over the reader stands on, from here on: one per valid() step. */
  function Visited(w: Walk): (ws: seq<Walk>)
    requires w.Wellformed()
    ensures |ws| <= |w.cursor.tokens| + 1 - w.cursor.at
    ensures forall i :: 0 <= i < |ws| ==> ws[i].Wellformed()
    ensures !OnNode(w) ==> ws == []
    decreases |w.cursor.tokens| + 1 - w.cursor.at
  {
    if !OnNode(w) then [] else [w] + Visited(Advance(w))
  }

  /** One iteration step: the key and the current node. */
  datatype Entry = Entry(key: string, node: Result<Node>)

  /** The entries a foreach over the reader sees from here on. */
  function Entries(w: Walk): (es: seq<Entry>)
    requires w.Wellformed()
  {
    var ws := Visited(w);
    seq(|ws|, i requires 0 <= i < |ws| => Entry(Key(ws[i]), Snapshot(ws[i])))
  }

  /** The keys of a whole iteration, from rewind() to the end. */
  function Keys(tokens: seq<Token>): seq<string> {
    var es := Entries(Start(tokens));
    seq(|es|, i requires 0 <= i < |es| => es[i].key)
  }

  /** No token of the document is reported as NONE. */
  predicate NoNoneTokens(tokens: seq<Token>) {
    forall i :: 0 <= i < |tokens| ==> tokens[i].kind != NoNode
  }

  /** The walk after k is the walk after k - 1 followed by one next(). */
  ghost predicate StepAt(ws: seq<Walk>, k: nat)
    requires k + 1 < |ws| && ws[k].Wellformed()
  {
    ws[k + 1] == Advance(ws[k])
  }

  /**
   * ws is the walk of a whole iteration over tokens: it starts with
   * rewind(), each next walk is one next() after the one before, and the
   * k-th walk has the cursor on the k-th token.
   */
  ghost predicate IsTrace(tokens: seq<Token>, ws: seq<Walk>) {
    && |ws| == |tokens|
    && (forall k :: 0 <= k < |ws| ==> ws[k].Wellformed() && ws[k].cursor == Cursor(tokens, k + 1, None))
    && (|ws| > 0 ==> ws[0] == Start(tokens))
    && (forall k :: 0 <= k < |ws| - 1 ==> StepAt(ws, k))
  }

  /**
   * From a walk on a token, a foreach stands on every remaining token once,
   * in order, each walk one next() after the one before.
   */
  lemma {:induction false} VisitedSteps(w: Walk)
    requires w.Wellformed() && NoNoneTokens(w.cursor.tokens) && w.cursor.at >= 1
    ensures var ws := Visited(w);
      && |ws| == |w.cursor.tokens| + 1 - w.cursor.at
      && (|ws| > 0 ==> ws[0] == w)
      && (forall k :: 0 <= k < |ws| ==> ws[k].cursor == Cursor(w.cursor.tokens, w.cursor.at + k, None))
      && (forall k :: 0 <= k < |ws| - 1 ==> StepAt(ws, k))
    decreases |w.cursor.tokens| + 1 - w.cursor.at
  {
    var tokens := w.cursor.tokens;
    if w.cursor.at <= |tokens| {
      assert OnNode(w);
      var next := Advance(w);
      VisitedSteps(next);
      var rest := Visited(next);
      assert Visited(w) == [w] + rest;
      StepsOfCons(w, rest);
    }
  }

  /** A walk followed by the trace of the walk one next() later is a trace from it. */
  lemma StepsOfCons(w: Walk, rest: seq<Walk>)
    requires w.Wellformed() && forall k :: 0 <= k < |rest| ==> rest[k].Wellformed()
    requires |rest| > 0 ==> rest[0] == Advance(w)
    requires forall k :: 0 <= k < |rest| - 1 ==> StepAt(rest, k)
    requires forall k :: 0 <= k < |rest| ==> rest[k].cursor == Cursor(w.cursor.tokens, w.cursor.at + 1 + k, None)
    ensures var ws := [w] + rest;
      && (forall k :: 0 <= k < |ws| ==> ws[k].Wellformed())
      && (forall k :: 0 <= k < |ws| ==> ws[k].cursor == Cursor(w.cursor.tokens, w.cursor.at + k, None))
      && (forall k :: 0 <= k < |ws| - 1 ==> StepAt(ws, k))
  {
    var ws := [w] + rest;
    forall k | 0 < k < |ws|
      ensures ws[k] == rest[k - 1]
    {
    }
    forall k | 0 <= k < |ws| - 1
      ensures StepAt(ws, k)
    {
      if k > 0 {
        assert StepAt(rest, k - 1);
      }
    }
  }

  /**
   * A whole iteration, from rewind() until valid() is false, sees exactly
   * one entry per token, in document order: the i-th entry is the key and
   * the current node of the i-th walk of the trace.
   */
  lemma IterationVisitsEveryToken(tokens: seq<Token>)
    requires NoNoneTokens(tokens)
    ensures IsTrace(tokens, Visited(Start(tokens)))
    ensures |Keys(tokens)| == |Entries(Start(tokens))| == |tokens|
    ensures forall i :: 0 <= i < |tokens| ==>
      Entries(Start(tokens))[i] == Entry(Key(Visited(Start(tokens))[i]), Snapshot(Visited(Start(tokens))[i]))
      && Keys(tokens)[i] == Key(Visited(Start(tokens))[i])
      && Visited(Start(tokens))[i].cursor.Node() == tokens[i]
  {
    TraceOfIteration(tokens);
    var ws := Visited(Start(tokens));
    var es := Entries(Start(tokens));
    assert |es| == |ws| == |tokens|;
    forall i | 0 <= i < |tokens|
      ensures ws[i].cursor.Node() == tokens[i]
      ensures es[i] == Entry(Key(ws[i]), Snapshot(ws[i])) && Keys(tokens)[i] == es[i].key
    {
      assert ws[i].cursor == Cursor(tokens, i + 1, None);
    }
  }

  /** The walks of a whole iteration form a trace of the document. */
  lemma TraceOfIteration(tokens: seq<Token>)
    requires NoNoneTokens(tokens)
    ensures IsTrace(tokens, Visited(Start(tokens)))
  {
    var s := Start(tokens);
    assert s.cursor.at == 1;
    VisitedSteps(s);
  }

  /**
   * The depths a reader reports for a well-formed document: the first node
   * is at depth 0, the node after an opening one is one level deeper, a
   * closing node is one level above the node before it (or level with the
   * opening node it closes at once), and any other node is level with the
   * node before it.
   */
  predicate Follows(a: Token, b: Token) {
    if OpensContent(a) then b.depth == if IsClosing(b) then a.depth else a.depth + 1
    else b.depth + (if IsClosing(b) then 1 else 0) == a.depth
  }

  /** The token after position i follows the one at i. */
  predicate FollowsAt(tokens: seq<Token>, i: nat)
    requires i + 1 < |tokens|
  {
    Follows(tokens[i], tokens[i + 1])
  }

  predicate Nested(tokens: seq<Token>) {
    && (|tokens| > 0 ==> tokens[0].depth == 0 && !IsClosing(tokens[0]))
    && forall i :: 0 <= i < |tokens| - 1 ==> FollowsAt(tokens, i)
  }

  /**
   * Over a nested document the tracker stays in step with the cursor: on
   * the j-th node (from 0) the tracker is exactly as deep as the reader
   * reports the node to be, and the name on top of it is the node's own
   * name unless the node is a closing one.
   */
  lemma {:induction false} TrackerFollowsDepth(tokens: seq<Token>, ws: seq<Walk>, j: nat)
    requires Nested(tokens) && IsTrace(tokens, ws) && j < |tokens|
    ensures ws[j].tracker.depth == tokens[j].depth
    ensures !IsClosing(tokens[j]) ==> ws[j].tracker.names[tokens[j].depth] == tokens[j].name
    decreases j
  {
    if j > 0 {
      TrackerFollowsDepth(tokens, ws, j - 1);
      assert StepAt(ws, j - 1);
      FollowStep(tokens, ws[j - 1], j - 1);
    } else {
      assert ws[0] == Start(tokens) && !IsClosing(tokens[0]);
    }
  }

  /** One next() on a nested document keeps the tracker in step with the cursor. */
  lemma FollowStep(tokens: seq<Token>, w: Walk, j: nat)
    requires Nested(tokens) && j + 1 < |tokens| && w.Wellformed()
    requires w.cursor == Cursor(tokens, j + 1, None) && w.tracker.depth == tokens[j].depth
    ensures Advance(w).cursor == Cursor(tokens, j + 2, None)
    ensures Advance(w).tracker.depth == tokens[j + 1].depth
    ensures !IsClosing(tokens[j + 1]) ==> Advance(w).tracker.names[tokens[j + 1].depth] == tokens[j + 1].name
  {
    assert FollowsAt(tokens, j);
    AdvanceMovesOneLevel(w);
  }

  /** The names and counts of depths 0 to d. */
  function UpTo(t: Tracker, d: nat): (seq<string>, Levels)
    requires t.Wellformed() && t.depth >= d
  {
    (t.names[..d + 1], t.positions[..d + 1])
  }

  /**
   * A next() that does not close depth d (the node left opens content, or
   * is below d) keeps depths 0 to d of the tracker as they were.
   */
  lemma AdvanceKeepsLevels(w: Walk, d: nat)
    requires w.Wellformed() && w.tracker.depth >= d
    requires OpensContent(w.cursor.Node()) || w.tracker.depth > d
    ensures Advance(w).tracker.depth >= d && UpTo(Advance(w).tracker, d) == UpTo(w.tracker, d)
  {
    var t := w.tracker;
    var left := if OpensContent(w.cursor.Node()) then t else Popped(t);
    assert left.depth >= d && UpTo(left, d) == UpTo(t, d) by {
      if !OpensContent(w.cursor.Node()) {
        assert left.names == t.names[..t.depth];
        assert left.positions == t.positions[..|left.positions|];
      }
      assert left.names[..d + 1] == t.names[..d + 1];
      assert left.positions[..d + 1] == t.positions[..d + 1];
    }
    var (ok, c) := w.cursor.Read();
    if ok && !IsClosing(c.Node()) {
      var b := Pushed(left, c.Node().name);
      assert b.names[..d + 1] == left.names[..d + 1];
      assert b.positions[..d + 1] == b.positions[..b.depth][..d + 1];
      assert left.positions[..d + 1] == left.positions[..b.depth][..d + 1];
    }
  }

  /**
   * The same one step inside a trace: from node q - 1, which opens content
   * or lies below depth d, depths 0 to d stay as they were in `a`.
   */
  lemma StepStaysInside(tokens: seq<Token>, ws: seq<Walk>, a: Tracker, d: nat, q: nat)
    requires IsTrace(tokens, ws) && 0 < q < |tokens| && a.Wellformed() && a.depth >= d
    requires ws[q - 1].tracker.depth >= d && UpTo(ws[q - 1].tracker, d) == UpTo(a, d)
    requires OpensContent(tokens[q - 1]) || ws[q - 1].tracker.depth > d
    ensures ws[q].tracker.depth >= d && UpTo(ws[q].tracker, d) == UpTo(a, d)
  {
    assert StepAt(ws, q - 1);
    AdvanceKeepsLevels(ws[q - 1], d);
  }

  /**
   * While the tracker stays below the depth d it had on the o-th node,
   * which opens content, the names and counts of depths 0 to d stay as
   * they were on that node.
   */
  lemma {:induction false} InsideKeepsLevels(tokens: seq<Token>, ws: seq<Walk>, o: nat, q: nat, d: nat)
    requires IsTrace(tokens, ws) && o < q < |tokens|
    requires OpensContent(tokens[o]) && ws[o].tracker.depth == d
    requires forall n :: o < n < q ==> ws[n].tracker.depth > d
    ensures ws[q].tracker.depth >= d && UpTo(ws[q].tracker, d) == UpTo(ws[o].tracker, d)
    decreases q
  {
    if q > o + 1 {
      InsideKeepsLevels(tokens, ws, o, q - 1, d);
    }
    StepStaysInside(tokens, ws, ws[o].tracker, d, q);
  }

  /**
   * The closing node of an element or entity has the key its opening node
   * had: between them the tracker only ever works below the opened depth.
   */
  lemma EndKeyMatchesStartKey(tokens: seq<Token>, ws: seq<Walk>, o: nat, c: nat)
    requires Nested(tokens) && IsTrace(tokens, ws) && o < c < |tokens|
    requires OpensContent(tokens[o]) && IsClosing(tokens[c])
    requires tokens[c].depth == tokens[o].depth
    requires forall n :: o < n < c ==> tokens[n].depth > tokens[o].depth
    ensures Key(ws[c]) == Key(ws[o])
  {
    var d := tokens[o].depth;
    TrackerFollowsDepth(tokens, ws, o);
    TrackerFollowsDepth(tokens, ws, c);
    forall n | o < n < c
      ensures ws[n].tracker.depth > d
    {
      TrackerFollowsDepth(tokens, ws, n);
    }
    InsideKeepsLevels(tokens, ws, o, c, d);
    var a := ws[o].tracker;
    var b := ws[c].tracker;
    assert a.names == a.names[..d + 1] && b.names == b.names[..d + 1];
    RenderedReadsOpenLevels(a.names, b.positions, a.positions);
  }

  /**
   * The iterator over a concrete document. `reader` is the cursor reset()
   * installs and `paths` the tracker rewind() creates; a cursor is only
   * ever installed together with a tracker, and is never left on an
   * attribute between calls.
   */
  class Reader {
    var reader: XmlReader?
    var paths: PathBuilder?

    ghost predicate Wellformed()
      reads this, reader, paths
    {
      && (reader != null ==> paths != null && reader.State().Wellformed() && reader.State().attribute.None?)
      && (paths != null ==> paths.Valid())
    }

    /** The iteration state, once a cursor is installed. */
    function State(): (w: Walk)
      reads this, reader, paths
      requires reader != null && paths != null
    {
      Walk(paths.State(), reader.State())
    }

    /** A new reader: no cursor and no tracker until rewind(). */
    constructor ()
      ensures reader == null && paths == null && Wellformed()
    {
      reader := null;
      paths := null;
    }

    /** getReader(): the cursor, or MissingInternalReader when none is set. */
    function GetReader(): (r: Result<XmlReader>)
      reads this
      ensures r.Success? <==> reader != null
      ensures r.Success? ==> r.value == reader
      ensures r.Failure? ==> r.error == MissingInternalReader
    {
      if reader == null then Failure(MissingInternalReader) else Success(reader)
    }

    method Next() returns (r: Status)
      requires Wellformed()
      modifies reader, paths
      ensures Wellformed()
      ensures reader == null <==> r == Failed(MissingInternalReader)
      ensures reader == null && paths != null ==> unchanged(paths)
      ensures reader != null ==> r == Done && State() == Advance(old(State()))
    {
      if reader == null {
        return Failed(MissingInternalReader);
      }
      var before := reader.State().Node();
      if !OpensContent(before) {
        paths.Pop();
      }
      var ok := reader.Read();
      if ok {
        var after := reader.State().Node();
        if !IsClosing(after) {
          paths.Push(after.name);
        }
      }
      r := Done;
    }

    /**
     * rewind(): reset() installs `document` as the cursor when it is given
     * (and leaves the cursor as it was otherwise), a fresh tracker is
     * created, and next() runs once.
     */
    method Rewind(document: XmlReader?) returns (r: Status)
      requires Wellformed()
      requires document != null ==> document.State() == Opened(document.tokens)
      modifies this, reader, document
      ensures Wellformed() && paths != null && fresh(paths)
      ensures reader == if document != null then document else old(reader)
      ensures reader == null <==> r == Failed(MissingInternalReader)
      ensures reader == null ==> paths.State() == Initial
      ensures document != null ==> r == Done && State() == Start(document.tokens)
      ensures document == null && reader != null ==>
        r == Done && State() == Advance(Walk(Initial, old(reader.State())))
    {
      if document != null {
        reader := document;
      }
      paths := new PathBuilder();
      r := Next();
    }

    /** valid(): the cursor is on a node. */
    method Valid() returns (r: Result<bool>)
      requires Wellformed()
      ensures reader == null ==> r == Failure(MissingInternalReader)
      ensures reader != null ==> r == Success(OnNode(State()))
    {
      if reader == null {
        return Failure(MissingInternalReader);
      }
      r := Success(reader.State().Node().kind != NoNode);
    }

    /** key(): the tracker's path; rewind() must have created the tracker. */
    method Key() returns (k: string)
      requires Wellformed() && paths != null
      ensures k == Path(paths.State())
    {
      k := paths.GetPath();
    }

    /**
     * current(): the attributes are read, then a fresh builder is given the
     * attributes, depth, language, local name, position, prefix, type, URI
     * and value, and builds.
     */
    method Current() returns (r: Result<Node>)
      requires Wellformed()
      modifies reader
      ensures Wellformed()
      ensures reader == null ==> r == Failure(MissingInternalReader)
      ensures reader != null ==> r == Snapshot(State()) && reader.State() == old(reader.State())
    {
      if reader == null {
        return Failure(MissingInternalReader);
      }
      var attributes := ReadAttributes(reader);
      var t := reader.State().Node();
      var position := paths.GetPosition();
      r := BuildNode(attributes, t, if position.None? then None else Some(position.value));
    }
  }

  /** The builder chain of current(), on the values it has read. */
  method BuildNode(attributes: map<string, string>, t: Token, position: Option<int>) returns (r: Result<Node>)
    ensures r == Built(Draft(attributes, Some(t.depth), ValueOrNull(t.lang), Some(t.localName), position,
                             ValueOrNull(t.prefix), ReadType(t), ValueOrNull(t.uri), ReadValue(t)))
  {
    var b := new NodeBuilder();
    b := b.SetAttributes(attributes);
    b := b.SetDepth(Some(t.depth));
    b := b.SetLanguage(ValueOrNull(t.lang));
    b := b.SetLocalName(Some(t.localName));
    b := b.SetPosition(position);
    b := b.SetPrefix(ValueOrNull(t.prefix));
    b := b.SetType(ReadType(t));
    b := b.SetURI(ValueOrNull(t.uri));
    b := b.SetValue(ReadValue(t));
    r := b.Build();
  }
}
