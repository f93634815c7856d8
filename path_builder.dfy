/**
 * The position tracker. It keeps the depth of the node the reader is on,
 * the stack of names from the root to that node, and, for each depth, how
 * many times each name has been entered at that depth since the enclosing
 * node was opened. From these it renders the node's path (`/root/child[2]`)
 * and its sibling position.
 */
module Paths {
  import opened Outcomes

  /** The per-depth occurrence counts: index = depth, key = node name. */
  type Levels = seq<map<string, nat>>

  /** The tracker's three fields as a value. */
  datatype Tracker = Tracker(depth: int, names: seq<string>, positions: Levels)
  {
    /**
     * The tracker's invariant: one name per open depth, counts kept for
     * every open depth and at most one level below it (the level of the
     * node most recently closed, kept until its parent is closed), and
     * every open node counted at least once at its own depth.
     */
    ghost predicate Wellformed() {
      && depth >= -1
      && |names| == depth + 1
      && depth + 1 <= |positions| <= depth + 2
      && forall d :: 0 <= d < |names| ==> names[d] in positions[d] && positions[d][names[d]] >= 1
    }
  }

  /** A new tracker: nothing open. */
  const Initial: Tracker := Tracker(-1, [], [])

  /** How often `name` has been seen in a level (0 when never). */
  function Count(level: map<string, nat>, name: string): nat {
    if name in level then level[name] else 0
  }

  /** The counts kept for one depth (empty when none are kept). */
  function Level(positions: Levels, depth: nat): map<string, nat> {
    if depth < |positions| then positions[depth] else map[]
  }

  /** The counts after a child named `name` is entered at `depth` (addChild). */
  function ChildAdded(positions: Levels, depth: nat, name: string): (r: Levels)
    requires depth <= |positions|
    ensures |r| == if depth < |positions| then |positions| else depth + 1
    ensures Count(r[depth], name) == Count(Level(positions, depth), name) + 1
    ensures forall other :: other != name ==> Count(r[depth], other) == Count(Level(positions, depth), other)
    ensures r[depth].Keys == Level(positions, depth).Keys + {name}
    ensures forall d :: 0 <= d < |positions| && d != depth ==> r[d] == positions[d]
  {
    var level := Level(positions, depth);
    var updated := level[name := Count(level, name) + 1];
    if depth < |positions| then positions[depth := updated] else positions + [updated]
  }

  /** The counts after the children of the node at `depth` are forgotten (dropChildren). */
  function ChildrenDropped(positions: Levels, depth: nat): (r: Levels)
    ensures |r| == if depth < |positions| then depth + 1 else |positions|
    ensures r == positions[..|r|]
  {
    if depth < |positions| then positions[..depth + 1] else positions
  }

  /** push: one level deeper, the name recorded and counted at the new depth. */
  function Pushed(t: Tracker, name: string): (r: Tracker)
    requires t.Wellformed()
    ensures r.Wellformed()
    ensures r.depth == t.depth + 1 && r.names == t.names + [name]
    ensures |r.positions| == r.depth + 1
    ensures Count(r.positions[r.depth], name) == Count(Level(t.positions, r.depth), name) + 1
    ensures forall other :: other != name ==>
      Count(r.positions[r.depth], other) == Count(Level(t.positions, r.depth), other)
    ensures r.positions[..r.depth] == t.positions[..r.depth]
  {
    Tracker(t.depth + 1, t.names + [name], ChildAdded(t.positions, t.depth + 1, name))
  }

  /**
   * pop: nothing when no node is open; otherwise the counts below the
   * closed node are dropped, the counts at its own depth are kept, and
   * the depth and the name stack shrink by one.
   */
  function Popped(t: Tracker): (r: Tracker)
    requires t.Wellformed()
    ensures r.Wellformed()
    ensures t.depth == -1 ==> r == t
    ensures t.depth >= 0 ==> r.depth == t.depth - 1 && r.names == t.names[..t.depth]
    ensures t.depth >= 0 ==> |r.positions| == t.depth + 1
    ensures r.positions == t.positions[..|r.positions|]
  {
    if t.depth == -1 then t
    else Tracker(t.depth - 1, t.names[..t.depth], ChildrenDropped(t.positions, t.depth))
  }

  /** The sibling position of the current node, or null when none is open. */
  function Position(t: Tracker): (r: Option<nat>)
    requires t.Wellformed()
    ensures r.None? <==> t.depth == -1
    ensures r.Some? ==> r.value >= 1 && r.value == Count(t.positions[t.depth], t.names[t.depth])
  {
    if t.depth == -1 then None else Some(t.positions[t.depth][t.names[t.depth]])
  }

  /** The character of one decimal digit. */
  function Digit(d: nat): (c: char)
    requires d < 10
    ensures '0' <= c <= '9' && (c as int) - ('0' as int) == d
  {
    (('0' as int) + d) as char
  }

  predicate IsDigits(s: string) {
    forall i :: 0 <= i < |s| ==> '0' <= s[i] <= '9'
  }

  /** The number a string of decimal digits denotes, most significant first. */
  function DigitsValue(s: string): nat
    requires IsDigits(s)
  {
    if s == [] then 0
    else 10 * DigitsValue(s[..|s| - 1]) + ((s[|s| - 1] as int) - ('0' as int))
  }

  /**
   * The decimal digits of a natural number: digits only, no leading zero,
   * and denoting the number itself.
   */
  function NatToString(n: nat): (s: string)
    ensures |s| >= 1 && IsDigits(s)
    ensures n >= 1 ==> s[0] != '0'
    ensures DigitsValue(s) == n
  {
    if n < 10 then [Digit(n)]
    else
      var front := NatToString(n / 10);
      var s := front + [Digit(n % 10)];
      assert s[..|s| - 1] == front;
      s
  }

  /** One step of a path: `/name`, with `[count]` only when count > 1. */
  function Segment(name: string, count: nat): string {
    "/" + name + (if count > 1 then "[" + NatToString(count) + "]" else "")
  }

  /** The segments of the first |names| depths, root first. */
  function Rendered(names: seq<string>, positions: Levels): string
    requires |names| <= |positions|
  {
    if names == [] then ""
    else
      var d := |names| - 1;
      Rendered(names[..d], positions) + Segment(names[d], Count(positions[d], names[d]))
  }

  /** getPath: the rendered segments, or `/` when nothing is open. */
  function Path(t: Tracker): (r: string)
    requires t.Wellformed()
    ensures |r| >= 1 && r[0] == '/'
    ensures t.depth == -1 ==> r == "/"
  {
    RenderedIsAbsolute(t.names, t.positions);
    var s := Rendered(t.names, t.positions);
    if s == "" then "/" else s
  }

  // ----- Properties of the tracker -----

  /** Rendered segments, when there are any, start with a slash. */
  lemma {:induction false} RenderedIsAbsolute(names: seq<string>, positions: Levels)
    requires |names| <= |positions|
    ensures names != [] ==> |Rendered(names, positions)| >= 1 && Rendered(names, positions)[0] == '/'
  {
    if |names| > 1 {
      RenderedIsAbsolute(names[..|names| - 1], positions);
    }
  }

  /** A fresh tracker is well formed, renders `/` and has no position. */
  lemma InitialTracker()
    ensures Initial.Wellformed() && Path(Initial) == "/" && Position(Initial) == None
  {
  }

  /** Each segment of a non-empty name has at least two characters. */
  lemma {:induction false} RenderedLength(names: seq<string>, positions: Levels)
    requires |names| <= |positions|
    requires forall i :: 0 <= i < |names| ==> names[i] != ""
    ensures |Rendered(names, positions)| >= 2 * |names|
  {
    if names != [] {
      RenderedLength(names[..|names| - 1], positions);
    }
  }

  /**
   * The path is never empty, and it is `/` exactly when no node is open
   * (for the non-empty names the reader pushes).
   */
  lemma RootPathIffNothingOpen(t: Tracker)
    requires t.Wellformed()
    requires forall i :: 0 <= i < |t.names| ==> t.names[i] != ""
    ensures Path(t) != ""
    ensures Path(t) == "/" <==> t.depth == -1
  {
    RenderedLength(t.names, t.positions);
  }

  /** Rendering one more depth appends that depth's segment. */
  lemma RenderedOneMore(names: seq<string>, positions: Levels, i: nat)
    requires i < |names| <= |positions|
    ensures Rendered(names[..i + 1], positions)
      == Rendered(names[..i], positions) + Segment(names[i], Count(positions[i], names[i]))
  {
    assert names[..i + 1][..i] == names[..i];
  }

  /** The path reads only the counts of the open depths. */
  lemma {:induction false} RenderedReadsOpenLevels(names: seq<string>, p: Levels, q: Levels)
    requires |names| <= |p| && |names| <= |q|
    requires p[..|names|] == q[..|names|]
    ensures Rendered(names, p) == Rendered(names, q)
  {
    if names != [] {
      var d := |names| - 1;
      assert p[..d] == p[..|names|][..d] && q[..d] == q[..|names|][..d];
      assert p[d] == p[..|names|][d] && q[d] == q[..|names|][d];
      RenderedReadsOpenLevels(names[..d], p, q);
    }
  }

  /**
   * Pushing extends the path by exactly one segment: the new name, with
   * its new count as suffix when that count is above 1.
   */
  lemma PushedPath(t: Tracker, name: string)
    requires t.Wellformed()
    ensures var r := Pushed(t, name);
      Path(r) == Rendered(t.names, t.positions) + Segment(name, r.positions[r.depth][name])
  {
    var r := Pushed(t, name);
    assert r.names[..|r.names| - 1] == t.names;
    RenderedReadsOpenLevels(t.names, r.positions, t.positions);
  }

  /** Closing a node right after opening it gives back the parent's path. */
  lemma PopUndoesPushOnPath(t: Tracker, name: string)
    requires t.Wellformed()
    ensures Popped(Pushed(t, name)).names == t.names
    ensures Popped(Pushed(t, name)).depth == t.depth
    ensures Path(Popped(Pushed(t, name))) == Path(t)
  {
    var r := Popped(Pushed(t, name));
    RenderedReadsOpenLevels(t.names, r.positions, t.positions);
  }

  /** The counts one level below the current node: its children's names so far. */
  function ChildCounts(t: Tracker): map<string, nat>
    requires t.depth >= -1
  {
    Level(t.positions, t.depth + 1)
  }

  /**
   * Opening and closing one leaf keeps the depth, the names and the counts
   * of the open depths, adds one to the count of its name one level below,
   * and leaves every other name's count there unchanged.
   */
  lemma LeafCounted(t: Tracker, name: string)
    requires t.Wellformed()
    ensures Popped(Pushed(t, name)).depth == t.depth
    ensures Popped(Pushed(t, name)).names == t.names
    ensures Popped(Pushed(t, name)).positions[..t.depth + 1] == t.positions[..t.depth + 1]
    ensures Count(ChildCounts(Popped(Pushed(t, name))), name)
      == Count(ChildCounts(t), name) + 1
    ensures forall other :: other != name ==>
      Count(ChildCounts(Popped(Pushed(t, name))), other)
        == Count(ChildCounts(t), other)
  {
    var pushed := Pushed(t, name);
    assert pushed.names[..pushed.depth] == t.names;
    assert ChildCounts(Popped(pushed)) == pushed.positions[t.depth + 1];
  }

  /**
   * A child's whole history: it is opened, its own children are walked in
   * order, and it is closed. Any balanced run of pushes and pops under an
   * open node is a sequence of these.
   */
  datatype Subtree = Subtree(name: string, children: seq<Subtree>)

  /** How many of `trees` are named `name`. */
  function Occurrences(trees: seq<Subtree>, name: string): nat {
    if trees == [] then 0
    else (if trees[0].name == name then 1 else 0) + Occurrences(trees[1..], name)
  }

  /** The tracker after `tree` is opened, walked and closed under the current node. */
  function EnteredTree(t: Tracker, tree: Subtree): (r: Tracker)
    requires t.Wellformed()
    ensures r.Wellformed()
    decreases tree
  {
    Popped(EnteredTrees(Pushed(t, tree.name), tree.children))
  }

  /** The tracker after `trees`, one after the other, under the current node. */
  function EnteredTrees(t: Tracker, trees: seq<Subtree>): (r: Tracker)
    requires t.Wellformed()
    ensures r.Wellformed()
    decreases trees
  {
    if trees == [] then t else EnteredTrees(EnteredTree(t, trees[0]), trees[1..])
  }

  /**
   * A complete child subtree keeps the depth, the names and the counts of
   * the open depths; one level below it adds one to the count of the
   * child's own name and leaves every other name's count unchanged.
   */
  lemma {:induction false} SubtreeCounted(t: Tracker, tree: Subtree)
    requires t.Wellformed()
    ensures EnteredTree(t, tree).depth == t.depth
    ensures EnteredTree(t, tree).names == t.names
    ensures EnteredTree(t, tree).positions[..t.depth + 1] == t.positions[..t.depth + 1]
    ensures Count(ChildCounts(EnteredTree(t, tree)), tree.name)
      == Count(ChildCounts(t), tree.name) + 1
    ensures forall other :: other != tree.name ==>
      Count(ChildCounts(EnteredTree(t, tree)), other)
        == Count(ChildCounts(t), other)
    decreases tree
  {
    var pushed := Pushed(t, tree.name);
    var inner := EnteredTrees(pushed, tree.children);
    TreesCounted(pushed, tree.children);
    assert inner.positions[..pushed.depth + 1] == pushed.positions;
    assert inner.names[..inner.depth] == t.names;
    assert EnteredTree(t, tree).positions == pushed.positions;
    assert Level(pushed.positions, t.depth + 1) == pushed.positions[t.depth + 1];
  }

  /**
   * Sibling counting over any history: walking `trees` under the current
   * node keeps its depth, names and open counts, and raises each name's
   * count one level below by the number of those trees that carry it.
   */
  lemma {:induction false} TreesCounted(t: Tracker, trees: seq<Subtree>)
    requires t.Wellformed()
    ensures EnteredTrees(t, trees).depth == t.depth
    ensures EnteredTrees(t, trees).names == t.names
    ensures EnteredTrees(t, trees).positions[..t.depth + 1] == t.positions[..t.depth + 1]
    ensures forall name ::
      Count(ChildCounts(EnteredTrees(t, trees)), name) == Count(ChildCounts(t), name) + Occurrences(trees, name)
    decreases trees
  {
    if trees != [] {
      var next := EnteredTree(t, trees[0]);
      SubtreeCounted(t, trees[0]);
      TreesCounted(next, trees[1..]);
      var r := EnteredTrees(next, trees[1..]);
      assert r.positions[..t.depth + 1] == next.positions[..t.depth + 1];
    }
  }

  /** A node just pushed is one more than its name's count at that depth. */
  lemma PushedPosition(t: Tracker, name: string)
    requires t.Wellformed()
    ensures Position(Pushed(t, name)) == Some(Count(ChildCounts(t), name) + 1)
  {
    var next := Pushed(t, name);
    assert next.names[next.depth] == name;
  }

  /** Children opened and closed under the current node leave its path alone. */
  lemma TreesKeepPath(t: Tracker, trees: seq<Subtree>)
    requires t.Wellformed()
    ensures Path(EnteredTrees(t, trees)) == Path(t)
  {
    var r := EnteredTrees(t, trees);
    TreesCounted(t, trees);
    RenderedReadsOpenLevels(t.names, r.positions, t.positions);
  }

  /**
   * getPosition's promise: after any earlier siblings under the same open
   * parent (other names in between, siblings with children of their own),
   * a child named `name` is at position c + k + 1, where c is the count the
   * parent's level held before and k is how many of those siblings are
   * named `name`; the parent's path is unchanged.
   */
  lemma SiblingPosition(t: Tracker, trees: seq<Subtree>, name: string)
    requires t.Wellformed()
    ensures Path(EnteredTrees(t, trees)) == Path(t)
    ensures Position(Pushed(EnteredTrees(t, trees), name))
      == Some(Count(ChildCounts(t), name) + Occurrences(trees, name) + 1)
  {
    TreesKeepPath(t, trees);
    TreesCounted(t, trees);
    PushedPosition(EnteredTrees(t, trees), name);
  }

  /**
   * Under a parent just opened the count starts afresh: a child named
   * `name` is at position k + 1, k being how many earlier children carry
   * that name.
   */
  lemma FirstSiblingUnderNewParent(t: Tracker, parent: string, trees: seq<Subtree>, name: string)
    requires t.Wellformed()
    ensures Position(Pushed(EnteredTrees(Pushed(t, parent), trees), name)) == Some(Occurrences(trees, name) + 1)
  {
    var u := Pushed(t, parent);
    assert ChildCounts(u) == map[];
    SiblingPosition(u, trees, name);
  }

  /**
   * The tracker as the PHP object: three private fields updated in place
   * by push and pop.
   */
  class PathBuilder {
    var depth: int
    var names: seq<string>
    var positions: Levels

    function State(): Tracker
      reads this
    {
      Tracker(depth, names, positions)
    }

    ghost predicate Valid()
      reads this
    {
      State().Wellformed()
    }

    constructor ()
      ensures Valid() && State() == Initial
    {
      depth := -1;
      names := [];
      positions := [];
    }

    method GetPath() returns (path: string)
      requires Valid()
      ensures path == Path(State())
    {
      path := "";
      var i := 0;
      while i < |names|
        invariant 0 <= i <= |names|
        invariant path == Rendered(names[..i], positions)
      {
        var name := names[i];
        var segment := "/" + name;
        if positions[i][name] > 1 {
          segment := segment + ("[" + NatToString(positions[i][name]) + "]");
        }
        RenderedOneMore(names, positions, i);
        path := path + segment;
        i := i + 1;
      }
      assert names[..|names|] == names;
      if path == "" {
        path := "/";
      }
    }

    method GetPosition() returns (position: Option<nat>)
      requires Valid()
      ensures position == Position(State())
    {
      if depth == -1 {
        return None;
      }
      position := Some(positions[depth][names[|names| - 1]]);
    }

    method Push(name: string)
      requires Valid()
      modifies this
      ensures Valid() && State() == Pushed(old(State()), name)
    {
      depth := depth + 1;
      AddChild(name);
      names := names + [name];
    }

    method Pop()
      requires Valid()
      modifies this
      ensures Valid() && State() == Popped(old(State()))
    {
      if depth != -1 {
        DropChildren();
        depth := depth - 1;
        names := names[..|names| - 1];
      }
    }

    method AddChild(name: string)
      requires 0 <= depth <= |positions|
      modifies this
      ensures depth == old(depth) && names == old(names)
      ensures positions == ChildAdded(old(positions), depth, name)
    {
      ghost var level := Level(positions, depth);
      if depth >= |positions| {
        positions := positions + [map[]];
      }
      if name !in positions[depth] {
        positions := positions[depth := positions[depth][name := 0]];
      }
      assert positions[depth][name] == Count(level, name);
      positions := positions[depth := positions[depth][name := positions[depth][name] + 1]];
      assert positions[depth] == level[name := Count(level, name) + 1];
    }

    method DropChildren()
      requires depth >= 0
      modifies this
      ensures depth == old(depth) && names == old(names)
      ensures positions == ChildrenDropped(old(positions), depth)
    {
      if depth < |positions| {
        positions := positions[..depth + 1];
      }
    }
  }
}
