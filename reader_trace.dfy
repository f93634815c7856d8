/**
 * The reader's own test document, walked from rewind() to the end:
 *
 *   <root a="alpha" type="test">
 *     <child id="1">
 *       <t:sub xml:lang="es" xmlns:t="url:kevin.herrera.io">prueba</t:sub>
 *       <t:sub xmlns:t="url:kevin.herrera.io"/>
 *     </child>
 *   </root>
 *
 * given as the thirteen nodes XMLReader reports for it, with the tracker
 * after each next() and the key and node of each step.
 */
module ReaderTrace {
  import opened Outcomes
  import opened NodeTypes
  import opened Nodes
  import opened Paths
  import opened Cursors
  import opened Reading
  import opened TypeFlags
  import PathExamples

  const Url: string := "url:kevin.herrera.io"
  const RootAttrs: seq<Attr> := [Attr("a", "alpha"), Attr("type", "test")]
  const ChildAttrs: seq<Attr> := [Attr("id", "1")]
  const SubAttrs: seq<Attr> := [Attr("xml:lang", "es"), Attr("xmlns:t", Url)]

  /** A significant whitespace node between elements. */
  function Whitespace(depth: nat, value: string): Token {
    Token(SignificantWhitespaceNode, "#text", "#text", false, depth, "", "", "", value, [])
  }

  /**
   * The nodes in reading order. A closing node reports the name, depth,
   * language, namespace and attributes of the element it closes; the
   * second t:sub is an empty element.
   */
  const RootStart: Token := Token(ElementNode, "root", "root", false, 0, "", "", "", "", RootAttrs)
  const ChildStart: Token := Token(ElementNode, "child", "child", false, 1, "", "", "", "", ChildAttrs)
  const SubStart: Token := Token(ElementNode, "t:sub", "sub", false, 2, "es", "t", Url, "", SubAttrs)
  const SubText: Token := Token(TextNode, "#text", "#text", false, 3, "es", "", "", "prueba", [])
  const SubEnd: Token := Token(EndElementNode, "t:sub", "sub", false, 2, "es", "t", Url, "", SubAttrs)
  const EmptySub: Token := Token(ElementNode, "t:sub", "sub", true, 2, "", "t", Url, "", [Attr("xmlns:t", Url)])
  const ChildEnd: Token := Token(EndElementNode, "child", "child", false, 1, "", "", "", "", ChildAttrs)
  const RootEnd: Token := Token(EndElementNode, "root", "root", false, 0, "", "", "", "", RootAttrs)

  const Document: seq<Token> := [
    RootStart, Whitespace(1, "\n  "), ChildStart, Whitespace(2, "\n    "), SubStart, SubText, SubEnd,
    Whitespace(2, "\n    "), EmptySub, Whitespace(2, "\n  "), ChildEnd, Whitespace(1, "\n"), RootEnd
  ]

  /** The keys the test expects, one per node. */
  const ExpectedKeys: seq<string> := [
    "/root", "/root/#text", "/root/child", "/root/child/#text", "/root/child/t:sub",
    "/root/child/t:sub/#text", "/root/child/t:sub", "/root/child/#text[2]", "/root/child/t:sub[2]",
    "/root/child/#text[3]", "/root/child", "/root/#text[2]", "/root"
  ]

  lemma NoNoneInDocument()
    ensures NoNoneTokens(Document)
  {
  }

  /** The document is nested: every reported depth follows from the one before. */
  lemma DocumentIsNested()
    ensures Nested(Document) && NoNoneTokens(Document)
  {
    forall i | 0 <= i < |Document| - 1
      ensures FollowsAt(Document, i)
    {
    }
  }

  // The counts of depth 0, of depth 1 and of depth 2 as they evolve.
  const Root: map<string, nat> := map["root" := 1]
  const Child: map<string, nat> := map["#text" := 1, "child" := 1]
  const Sub: map<string, nat> := map["#text" := 1, "t:sub" := 1]

  // The tracker on each node of the document.
  const T0: Tracker := Tracker(0, ["root"], [Root])
  const T1: Tracker := Tracker(1, ["root", "#text"], [Root, map["#text" := 1]])
  const T2: Tracker := Tracker(1, ["root", "child"], [Root, Child])
  const T3: Tracker := Tracker(2, ["root", "child", "#text"], [Root, Child, map["#text" := 1]])
  const T4: Tracker := Tracker(2, ["root", "child", "t:sub"], [Root, Child, Sub])
  const T5: Tracker := Tracker(3, ["root", "child", "t:sub", "#text"], [Root, Child, Sub, map["#text" := 1]])
  const T6: Tracker := Tracker(2, ["root", "child", "t:sub"], [Root, Child, Sub, map["#text" := 1]])
  const T7: Tracker := Tracker(2, ["root", "child", "#text"], [Root, Child, map["#text" := 2, "t:sub" := 1]])
  const T8: Tracker := Tracker(2, ["root", "child", "t:sub"], [Root, Child, map["#text" := 2, "t:sub" := 2]])
  const T9: Tracker := Tracker(2, ["root", "child", "#text"], [Root, Child, map["#text" := 3, "t:sub" := 2]])
  const T10: Tracker := Tracker(1, ["root", "child"], [Root, Child, map["#text" := 3, "t:sub" := 2]])
  const T11: Tracker := Tracker(1, ["root", "#text"], [Root, map["#text" := 2, "child" := 1]])
  const T12: Tracker := Tracker(0, ["root"], [Root, map["#text" := 2, "child" := 1]])

  /**
   * What next() does to the tracker when it moves from node a to node b:
   * pop unless a opens content, then push b's name unless b closes.
   */
  function Moved(t: Tracker, a: Token, b: Token): (r: Tracker)
    requires t.Wellformed()
  {
    var left := if OpensContent(a) then t else Popped(t);
    if IsClosing(b) then left else Pushed(left, b.name)
  }

  /** next() from a node that is not the last moves the tracker as Moved says. */
  lemma AdvanceMoves(w: Walk)
    requires w.Wellformed() && 1 <= w.cursor.at < |w.cursor.tokens|
    ensures Advance(w).tracker == Moved(w.tracker, w.cursor.tokens[w.cursor.at - 1], w.cursor.tokens[w.cursor.at])
  {
  }

  /** rewind() leaves the tracker on the root element. */
  lemma FirstTracker()
    ensures Start(Document).tracker == T0
  {
  }

  lemma Shape1()
    ensures T0.Wellformed() && Pushed(T0, "#text") == T1
  {

  }

  lemma Shape2()
    ensures T1.Wellformed() && Pushed(Popped(T1), "child") == T2
  {
    var left := Tracker(0, ["root"], [Root, map["#text" := 1]]);
    assert Popped(T1) == left;
  }

  lemma Shape3()
    ensures T2.Wellformed() && Pushed(T2, "#text") == T3
  {

  }

  lemma Shape4()
    ensures T3.Wellformed() && Pushed(Popped(T3), "t:sub") == T4
  {
    var left := Tracker(1, ["root", "child"], [Root, Child, map["#text" := 1]]);
    assert Popped(T3) == left;
    assert Pushed(left, "t:sub").positions[2] == map["#text" := 1, "t:sub" := 1];
  }

  lemma Shape5()
    ensures T4.Wellformed() && Pushed(T4, "#text") == T5
  {

  }

  lemma Shape6()
    ensures T5.Wellformed() && Popped(T5) == T6
  {
    assert Popped(T5) == T6;
  }

  lemma Shape7()
    ensures T6.Wellformed() && Pushed(Popped(T6), "#text") == T7
  {
    var left := Tracker(1, ["root", "child"], [Root, Child, Sub]);
    assert Popped(T6) == left;
    assert Pushed(left, "#text").positions[2] == map["#text" := 2, "t:sub" := 1];
  }

  lemma Shape8()
    ensures T7.Wellformed() && Pushed(Popped(T7), "t:sub") == T8
  {
    var left := Tracker(1, ["root", "child"], [Root, Child, map["#text" := 2, "t:sub" := 1]]);
    assert Popped(T7) == left;
    assert Pushed(left, "t:sub").positions[2] == map["#text" := 2, "t:sub" := 2];
  }

  lemma Shape9()
    ensures T8.Wellformed() && Pushed(Popped(T8), "#text") == T9
  {
    var left := Tracker(1, ["root", "child"], [Root, Child, map["#text" := 2, "t:sub" := 2]]);
    assert Popped(T8) == left;
    assert Pushed(left, "#text").positions[2] == map["#text" := 3, "t:sub" := 2];
  }

  lemma Shape10()
    ensures T9.Wellformed() && Popped(T9) == T10
  {
    assert Popped(T9) == T10;
  }

  lemma Shape11()
    ensures T10.Wellformed() && Pushed(Popped(T10), "#text") == T11
  {
    var left := Tracker(0, ["root"], [Root, Child]);
    assert Popped(T10) == left;
    assert Pushed(left, "#text").positions[1] == map["#text" := 2, "child" := 1];
  }

  lemma Shape12()
    ensures T11.Wellformed() && Popped(T11) == T12
  {
    assert Popped(T11) == T12;
  }

  lemma Step1(w: Walk)
    requires w.Wellformed() && w.cursor == Cursor(Document, 1, None) && w.tracker == T0
    ensures Advance(w).tracker == T1
  {
    AdvanceMoves(w);
    assert w.cursor.tokens[0] == RootStart && w.cursor.tokens[1] == Whitespace(1, "\n  ");
    Shape1();
  }

  lemma Step2(w: Walk)
    requires w.Wellformed() && w.cursor == Cursor(Document, 2, None) && w.tracker == T1
    ensures Advance(w).tracker == T2
  {
    AdvanceMoves(w);
    assert w.cursor.tokens[1] == Whitespace(1, "\n  ") && w.cursor.tokens[2] == ChildStart;
    Shape2();
  }

  lemma Step3(w: Walk)
    requires w.Wellformed() && w.cursor == Cursor(Document, 3, None) && w.tracker == T2
    ensures Advance(w).tracker == T3
  {
    AdvanceMoves(w);
    assert w.cursor.tokens[2] == ChildStart && w.cursor.tokens[3] == Whitespace(2, "\n    ");
    Shape3();
  }

  lemma Step4(w: Walk)
    requires w.Wellformed() && w.cursor == Cursor(Document, 4, None) && w.tracker == T3
    ensures Advance(w).tracker == T4
  {
    AdvanceMoves(w);
    assert w.cursor.tokens[3] == Whitespace(2, "\n    ") && w.cursor.tokens[4] == SubStart;
    Shape4();
  }

  lemma Step5(w: Walk)
    requires w.Wellformed() && w.cursor == Cursor(Document, 5, None) && w.tracker == T4
    ensures Advance(w).tracker == T5
  {
    AdvanceMoves(w);
    assert w.cursor.tokens[4] == SubStart && w.cursor.tokens[5] == SubText;
    Shape5();
  }

  lemma Step6(w: Walk)
    requires w.Wellformed() && w.cursor == Cursor(Document, 6, None) && w.tracker == T5
    ensures Advance(w).tracker == T6
  {
    AdvanceMoves(w);
    assert w.cursor.tokens[5] == SubText && w.cursor.tokens[6] == SubEnd;
    Shape6();
  }

  lemma Step7(w: Walk)
    requires w.Wellformed() && w.cursor == Cursor(Document, 7, None) && w.tracker == T6
    ensures Advance(w).tracker == T7
  {
    AdvanceMoves(w);
    assert w.cursor.tokens[6] == SubEnd && w.cursor.tokens[7] == Whitespace(2, "\n    ");
    Shape7();
  }

  lemma Step8(w: Walk)
    requires w.Wellformed() && w.cursor == Cursor(Document, 8, None) && w.tracker == T7
    ensures Advance(w).tracker == T8
  {
    AdvanceMoves(w);
    assert w.cursor.tokens[7] == Whitespace(2, "\n    ") && w.cursor.tokens[8] == EmptySub;
    Shape8();
  }

  lemma Step9(w: Walk)
    requires w.Wellformed() && w.cursor == Cursor(Document, 9, None) && w.tracker == T8
    ensures Advance(w).tracker == T9
  {
    AdvanceMoves(w);
    assert w.cursor.tokens[8] == EmptySub && w.cursor.tokens[9] == Whitespace(2, "\n  ");
    Shape9();
  }

  lemma Step10(w: Walk)
    requires w.Wellformed() && w.cursor == Cursor(Document, 10, None) && w.tracker == T9
    ensures Advance(w).tracker == T10
  {
    AdvanceMoves(w);
    assert w.cursor.tokens[9] == Whitespace(2, "\n  ") && w.cursor.tokens[10] == ChildEnd;
    Shape10();
  }

  lemma Step11(w: Walk)
    requires w.Wellformed() && w.cursor == Cursor(Document, 11, None) && w.tracker == T10
    ensures Advance(w).tracker == T11
  {
    AdvanceMoves(w);
    assert w.cursor.tokens[10] == ChildEnd && w.cursor.tokens[11] == Whitespace(1, "\n");
    Shape11();
  }

  lemma Step12(w: Walk)
    requires w.Wellformed() && w.cursor == Cursor(Document, 12, None) && w.tracker == T11
    ensures Advance(w).tracker == T12
  {
    AdvanceMoves(w);
    assert w.cursor.tokens[11] == Whitespace(1, "\n") && w.cursor.tokens[12] == RootEnd;
    Shape12();
  }

  /** The tracker on every node of the trace is the one listed for it. */
  lemma TraceTrackers(ws: seq<Walk>)
    requires IsTrace(Document, ws)
    ensures ws[0].tracker == T0 && ws[1].tracker == T1 && ws[2].tracker == T2
    ensures ws[3].tracker == T3 && ws[4].tracker == T4 && ws[5].tracker == T5
    ensures ws[6].tracker == T6 && ws[7].tracker == T7 && ws[8].tracker == T8
    ensures ws[9].tracker == T9 && ws[10].tracker == T10 && ws[11].tracker == T11
    ensures ws[12].tracker == T12
  {
    FirstTracker();
    assert StepAt(ws, 0);
    Step1(ws[0]);
    assert StepAt(ws, 1);
    Step2(ws[1]);
    assert StepAt(ws, 2);
    Step3(ws[2]);
    assert StepAt(ws, 3);
    Step4(ws[3]);
    assert StepAt(ws, 4);
    Step5(ws[4]);
    assert StepAt(ws, 5);
    Step6(ws[5]);
    assert StepAt(ws, 6);
    Step7(ws[6]);
    assert StepAt(ws, 7);
    Step8(ws[7]);
    assert StepAt(ws, 8);
    Step9(ws[8]);
    assert StepAt(ws, 9);
    Step10(ws[9]);
    assert StepAt(ws, 10);
    Step11(ws[10]);
    assert StepAt(ws, 11);
    Step12(ws[11]);
  }
  /** The segments the keys are made of. */
  lemma Segments()
    ensures Segment("root", 1) == "/root" && Segment("child", 1) == "/child"
    ensures Segment("#text", 1) == "/#text" && Segment("t:sub", 1) == "/t:sub"
  {
  }

  lemma CountedSegments()
    ensures Segment("#text", 2) == "/#text[2]" && Segment("#text", 3) == "/#text[3]"
    ensures Segment("t:sub", 2) == "/t:sub[2]"
  {
    assert NatToString(2) == "2" && NatToString(3) == "3";
  }

  /** The path of three open names with the given counts. */
  lemma ThreeSegments(t: Tracker, a: string, b: string, c: string, ca: nat, cb: nat, cc: nat)
    requires t.Wellformed() && t.names == [a, b, c]
    requires Count(t.positions[0], a) == ca && Count(t.positions[1], b) == cb && Count(t.positions[2], c) == cc
    ensures Path(t) == Segment(a, ca) + Segment(b, cb) + Segment(c, cc)
  {
    PathExamples.PathOfOpenNames(t);
  }

  /** The path of four open names with the given counts. */
  lemma FourSegments(t: Tracker, a: string, b: string, c: string, d: string, ca: nat, cb: nat, cc: nat, cd: nat)
    requires t.Wellformed() && t.names == [a, b, c, d]
    requires Count(t.positions[0], a) == ca && Count(t.positions[1], b) == cb
    requires Count(t.positions[2], c) == cc && Count(t.positions[3], d) == cd
    ensures Path(t) == Segment(a, ca) + Segment(b, cb) + Segment(c, cc) + Segment(d, cd)
  {
    PathExamples.PathOfFourNames(t);
  }

  lemma Key0()
    ensures T0.Wellformed() && Path(T0) == "/root"
  {
    PathExamples.PathOfOpenNames(T0);
    Segments();
  }

  lemma Key1()
    ensures T1.Wellformed() && Path(T1) == "/root/#text"
  {
    PathExamples.PathOfOpenNames(T1);
    Segments();
  }

  lemma Key2()
    ensures T2.Wellformed() && Path(T2) == "/root/child"
  {
    PathExamples.PathOfOpenNames(T2);
    Segments();
  }

  lemma Key3()
    ensures T3.Wellformed() && Path(T3) == "/root/child/#text"
  {
    ThreeSegments(T3, "root", "child", "#text", 1, 1, 1);
    Segments();
  }

  lemma Key4()
    ensures T4.Wellformed() && Path(T4) == "/root/child/t:sub"
  {
    ThreeSegments(T4, "root", "child", "t:sub", 1, 1, 1);
    Segments();
  }

  lemma Key5()
    ensures T5.Wellformed() && Path(T5) == "/root/child/t:sub/#text"
  {
    FourSegments(T5, "root", "child", "t:sub", "#text", 1, 1, 1, 1);
    Segments();
  }

  lemma Key6()
    ensures T6.Wellformed() && Path(T6) == "/root/child/t:sub"
  {
    ThreeSegments(T6, "root", "child", "t:sub", 1, 1, 1);
    Segments();
  }

  lemma Key7()
    ensures T7.Wellformed() && Path(T7) == "/root/child/#text[2]"
  {
    ThreeSegments(T7, "root", "child", "#text", 1, 1, 2);
    Segments();
    CountedSegments();
  }

  lemma Key8()
    ensures T8.Wellformed() && Path(T8) == "/root/child/t:sub[2]"
  {
    ThreeSegments(T8, "root", "child", "t:sub", 1, 1, 2);
    Segments();
    CountedSegments();
  }

  lemma Key9()
    ensures T9.Wellformed() && Path(T9) == "/root/child/#text[3]"
  {
    ThreeSegments(T9, "root", "child", "#text", 1, 1, 3);
    Segments();
    CountedSegments();
  }

  lemma Key10()
    ensures T10.Wellformed() && Path(T10) == "/root/child"
  {
    PathExamples.PathOfOpenNames(T10);
    Segments();
  }

  lemma Key11()
    ensures T11.Wellformed() && Path(T11) == "/root/#text[2]"
  {
    PathExamples.PathOfOpenNames(T11);
    Segments();
    CountedSegments();
  }

  lemma Key12()
    ensures T12.Wellformed() && Path(T12) == "/root"
  {
    PathExamples.PathOfOpenNames(T12);
    Segments();
  }

  /** key() on each node of the trace is the key the test expects there. */
  lemma KeyOnNode(ws: seq<Walk>, k: nat)
    requires IsTrace(Document, ws) && k < |Document|
    ensures Key(ws[k]) == ExpectedKeys[k]
  {
    TraceTrackers(ws);
    var t := ws[k].tracker;
    if k < 7 {
      EarlyKey(t, k);
    } else {
      LateKey(t, k);
    }
  }

  /** The keys of nodes #0 to #6, from their trackers. */
  lemma EarlyKey(t: Tracker, k: nat)
    requires k < 7
    requires (k == 0 ==> t == T0) && (k == 1 ==> t == T1) && (k == 2 ==> t == T2) && (k == 3 ==> t == T3)
    requires (k == 4 ==> t == T4) && (k == 5 ==> t == T5) && (k == 6 ==> t == T6)
    ensures t.Wellformed() && Path(t) == ExpectedKeys[k]
  {
    if k == 0 {
      Key0();
    } else if k == 1 {
      Key1();
    } else if k == 2 {
      Key2();
    } else if k == 3 {
      Key3();
    } else if k == 4 {
      Key4();
    } else if k == 5 {
      Key5();
    } else {
      Key6();
    }
  }

  /** The keys of nodes #7 to #12, from their trackers. */
  lemma LateKey(t: Tracker, k: nat)
    requires 7 <= k < 13
    requires (k == 7 ==> t == T7) && (k == 8 ==> t == T8) && (k == 9 ==> t == T9)
    requires (k == 10 ==> t == T10) && (k == 11 ==> t == T11) && (k == 12 ==> t == T12)
    ensures t.Wellformed() && Path(t) == ExpectedKeys[k]
  {
    if k == 7 {
      Key7();
    } else if k == 8 {
      Key8();
    } else if k == 9 {
      Key9();
    } else if k == 10 {
      Key10();
    } else if k == 11 {
      Key11();
    } else {
      Key12();
    }
  }

  /**
   * A whole iteration over the document, from rewind() until valid() is
   * false, yields exactly the thirteen keys the test expects, in order.
   */
  lemma IterationKeys()
    ensures Keys(Document) == ExpectedKeys
  {
    NoNoneInDocument();
    IterationVisitsEveryToken(Document);
    var ws := Visited(Start(Document));
    forall k | 0 <= k < |Document|
      ensures Keys(Document)[k] == ExpectedKeys[k]
    {
      KeyOnNode(ws, k);
    }
  }
  /** The attribute arrays of the root and of the empty t:sub. */
  lemma AttributeArrays()
    ensures AttributeMap(RootAttrs) == map["a" := "alpha", "type" := "test"]
    ensures AttributeMap(EmptySub.attributes) == map["xmlns:t" := Url]
  {
    assert RootAttrs[..1] == [Attr("a", "alpha")];
    assert RootAttrs[..1][..0] == [];
    assert EmptySub.attributes[..0] == [];
  }

  /** The node current() builds on the root element. */
  lemma RootSnapshot(w: Walk)
    requires w.Wellformed() && w.cursor == Cursor(Document, 1, None) && w.tracker == T0
    ensures Snapshot(w) == Success(Node(TypeElement, "root", None, 1, 0, None, None, None,
                                        map["a" := "alpha", "type" := "test"]))
  {
    AttributeArrays();
  }

  /** The node current() builds on the text inside the first t:sub. */
  lemma TextSnapshot(w: Walk)
    requires w.Wellformed() && w.cursor == Cursor(Document, 6, None) && w.tracker == T5
    ensures Snapshot(w) == Success(Node(TypeText, "#text", Some("prueba"), 1, 3, Some("es"), None, None, map[]))
  {
  }

  /**
   * The node current() builds on the empty t:sub: its type is ELEMENT |
   * END_ELEMENT, which is the code of significant whitespace.
   */
  lemma EmptySubSnapshot(w: Walk)
    requires w.Wellformed() && w.cursor == Cursor(Document, 9, None) && w.tracker == T8
    ensures Snapshot(w) == Success(Node(TypeSignificantWhitespace, "sub", None, 2, 2, None, Some("t"), Some(Url),
                                        map["xmlns:t" := Url]))
  {
    AttributeArrays();
    SelfClosingTypeIsSignificantWhitespace();
  }

  /** Entry #0: the root element at /root. */
  lemma RootEntry()
    ensures var es := Entries(Start(Document));
      && |es| == 13
      && es[0] == Entry("/root", Success(Node(TypeElement, "root", None, 1, 0, None, None, None,
                                              map["a" := "alpha", "type" := "test"])))
  {
    NoNoneInDocument();
    IterationVisitsEveryToken(Document);
    var ws := Visited(Start(Document));
    TraceTrackers(ws);
    KeyOnNode(ws, 0);
    RootSnapshot(ws[0]);
  }

  /** Entry #5: the text "prueba" in Spanish inside the first t:sub. */
  lemma TextEntry()
    ensures var es := Entries(Start(Document));
      && |es| == 13
      && es[5] == Entry("/root/child/t:sub/#text",
                        Success(Node(TypeText, "#text", Some("prueba"), 1, 3, Some("es"), None, None, map[])))
  {
    NoNoneInDocument();
    IterationVisitsEveryToken(Document);
    var ws := Visited(Start(Document));
    TraceTrackers(ws);
    KeyOnNode(ws, 5);
    TextSnapshot(ws[5]);
  }

  /** Entry #8: the empty t:sub at position 2, with its namespace. */
  lemma EmptySubEntry()
    ensures var es := Entries(Start(Document));
      && |es| == 13
      && es[8] == Entry("/root/child/t:sub[2]",
                        Success(Node(TypeSignificantWhitespace, "sub", None, 2, 2, None, Some("t"), Some(Url),
                                     map["xmlns:t" := Url])))
  {
    NoNoneInDocument();
    IterationVisitsEveryToken(Document);
    var ws := Visited(Start(Document));
    TraceTrackers(ws);
    KeyOnNode(ws, 8);
    EmptySubSnapshot(ws[8]);
  }

  /**
   * The test asserts that entry #8 is an element, a start and an end. As
   * written it is none of these: its type reads as significant whitespace.
   */
  lemma EmptySubReadsAsWhitespace()
    ensures var es := Entries(Start(Document));
      && |es| == 13 && es[8].node.Success?
      && es[8].node.value.IsSignificantWhitespace()
      && !es[8].node.value.IsElement() && !es[8].node.value.IsStart() && !es[8].node.value.IsEnd()
  {
    EmptySubEntry();
    var es := Entries(Start(Document));
    assert es[8].node.value.nodeType == TypeSignificantWhitespace;
  }

  /** With one bit per type, the same node is an element, a start and an end. */
  lemma EmptySubFlags()
    ensures var f := ReadTypeFlags(Document[8]);
      f.Some? && IsElementFlags(f.value) && IsStartFlags(f.value) && IsEndFlags(f.value)
      && !HasKind(f.value, TypeSignificantWhitespace)
  {
  }
}
