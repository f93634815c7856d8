/**
 * The push and pop sequences the path builder's own tests run, on the
 * imperative builder, with the path and position each one leaves.
 */
module PathExamples {
  import opened Outcomes
  import opened Paths

  /** The path of a tracker with one to three open names, segment by segment. */
  lemma PathOfOpenNames(t: Tracker)
    requires t.Wellformed() && 1 <= |t.names| <= 3
    ensures |t.names| == 1 ==>
      Path(t) == Segment(t.names[0], Count(t.positions[0], t.names[0]))
    ensures |t.names| == 2 ==>
      Path(t) == Segment(t.names[0], Count(t.positions[0], t.names[0]))
        + Segment(t.names[1], Count(t.positions[1], t.names[1]))
    ensures |t.names| == 3 ==>
      Path(t) == Segment(t.names[0], Count(t.positions[0], t.names[0]))
        + Segment(t.names[1], Count(t.positions[1], t.names[1]))
        + Segment(t.names[2], Count(t.positions[2], t.names[2]))
  {
    var n := t.names;
    var p := t.positions;
    assert Rendered(n[..0], p) == "";
    var one := Segment(n[0], Count(p[0], n[0]));
    assert Rendered(n[..1], p) == one by {
      assert n[..1][..0] == n[..0];
    }
    if |n| >= 2 {
      var two := one + Segment(n[1], Count(p[1], n[1]));
      assert Rendered(n[..2], p) == two by {
        assert n[..2][..1] == n[..1];
      }
      if |n| == 3 {
        assert n[..3][..2] == n[..2];
        assert n[..3] == n;
      } else {
        assert n[..2] == n;
      }
    } else {
      assert n[..1] == n;
    }
  }

  /** With four names open, the path is the first three's path and one more segment. */
  lemma PathOfFourNames(t: Tracker)
    requires t.Wellformed() && |t.names| == 4
    ensures Path(t) == Segment(t.names[0], Count(t.positions[0], t.names[0]))
        + Segment(t.names[1], Count(t.positions[1], t.names[1]))
        + Segment(t.names[2], Count(t.positions[2], t.names[2]))
        + Segment(t.names[3], Count(t.positions[3], t.names[3]))
  {
    var parent := Popped(t);
    PathOfOpenNames(parent);
    assert t.names[..3] == parent.names;
    assert Rendered(parent.names, t.positions) == Rendered(parent.names, parent.positions) by {
      RenderedReadsOpenLevels(parent.names, t.positions, parent.positions);
    }
  }

  /** The segments of the example paths. */
  lemma ExampleSegments()
    ensures Segment("root", 1) == "/root" && Segment("child", 1) == "/child" && Segment("sub", 1) == "/sub"
    ensures Segment("root", 2) == "/root[2]" && Segment("child", 2) == "/child[2]"
    ensures Segment("child", 3) == "/child[3]"
  {
    assert NatToString(2) == "2" && NatToString(3) == "3";
  }

  /** Popping with nothing open changes nothing: the path stays `/`. */
  lemma PopOnFreshTracker()
    ensures Path(Popped(Initial)) == "/" && Position(Popped(Initial)) == None
  {
    InitialTracker();
  }

  /** A root opened after the first one is closed is the second root. */
  lemma SecondRootPath()
    ensures var t := Pushed(Popped(Popped(Pushed(Initial, "root"))), "root");
      Path(t) == "/root[2]" && Position(t) == Some(2)
  {
    var closed := Popped(Pushed(Initial, "root"));
    LeafCounted(Initial, "root");
    assert Popped(closed) == closed;
    var t := Pushed(closed, "root");
    assert t.names == ["root"] && Count(t.positions[0], "root") == 2;
    PathOfOpenNames(t);
    ExampleSegments();
  }

  /** `/root`, then `/root/child`, then back to `/root` when the child closes. */
  lemma ChildPaths()
    ensures Path(Pushed(Initial, "root")) == "/root"
    ensures Path(Pushed(Pushed(Initial, "root"), "child")) == "/root/child"
    ensures Path(Popped(Pushed(Pushed(Initial, "root"), "child"))) == "/root"
  {
    var root := Pushed(Initial, "root");
    PathOfOpenNames(root);
    PathOfOpenNames(Pushed(root, "child"));
    PopUndoesPushOnPath(root, "child");
    ExampleSegments();
  }

  /** A child opened after its sibling closed is `/root/child[2]`, position 2. */
  lemma SecondChildPath()
    ensures var t := Pushed(Popped(Pushed(Pushed(Initial, "root"), "child")), "child");
      Path(t) == "/root/child[2]" && Position(t) == Some(2)
  {
    var root := Pushed(Initial, "root");
    LeafCounted(root, "child");
    var t := Pushed(Popped(Pushed(root, "child")), "child");
    PathOfOpenNames(t);
    ExampleSegments();
  }

  /** The second child, reached after a first child that had a child of its own. */
  function SecondChild(): (t: Tracker)
    ensures t.Wellformed()
  {
    Pushed(Popped(Popped(Pushed(Pushed(Pushed(Initial, "root"), "child"), "sub"))), "child")
  }

  lemma SecondChildCounted()
    ensures SecondChild().names == ["root", "child"] && |SecondChild().positions| == 2
    ensures Count(SecondChild().positions[0], "root") == 1
    ensures Count(SecondChild().positions[1], "child") == 2
  {
    var root := Pushed(Initial, "root");
    var first := Pushed(root, "child");
    var closedSub := Popped(Pushed(first, "sub"));
    LeafCounted(first, "sub");
    assert closedSub.positions[..2] == first.positions[..2];
    assert Popped(closedSub) == Popped(first);
    LeafCounted(root, "child");
  }

  /** A grandchild under the second child starts its own count again. */
  lemma GrandchildPath()
    ensures Path(Pushed(SecondChild(), "sub")) == "/root/child[2]/sub"
  {
    SecondChildCounted();
    GrandchildUnder(SecondChild());
  }

  lemma GrandchildUnder(second: Tracker)
    requires second.Wellformed() && second.names == ["root", "child"] && |second.positions| == 2
    requires Count(second.positions[0], "root") == 1 && Count(second.positions[1], "child") == 2
    ensures Path(Pushed(second, "sub")) == "/root/child[2]/sub"
  {
    var sub := Pushed(second, "sub");
    assert sub.positions[..2] == second.positions[..2];
    assert sub.positions[0] == second.positions[0] && sub.positions[1] == second.positions[1];
    PathOfOpenNames(sub);
    ExampleSegments();
  }

  /** Back at the root after the grandchild and one more level below it closed. */
  function BackAtRoot(): (t: Tracker)
    ensures t.Wellformed()
  {
    Popped(Popped(Popped(Pushed(Pushed(SecondChild(), "sub"), "another"))))
  }

  /** Two levels opened and three closed leave the parent's open levels as they were. */
  lemma PopsPastPushes(t: Tracker, a: string, b: string)
    requires t.Wellformed() && t.depth >= 0
    ensures var r := Popped(Popped(Popped(Pushed(Pushed(t, a), b))));
      r.depth == t.depth - 1 && r.names == t.names[..t.depth]
      && r.positions == t.positions[..t.depth + 1]
  {
    var inner := Pushed(Pushed(t, a), b);
    var up1 := Popped(inner);
    var up2 := Popped(up1);
    assert up2.depth == t.depth && up2.positions == inner.positions[..t.depth + 2];
    assert inner.positions[..t.depth + 1] == t.positions[..t.depth + 1];
  }

  lemma BackAtRootCounted()
    ensures BackAtRoot().names == ["root"]
    ensures Count(BackAtRoot().positions[0], "root") == 1
    ensures Count(Level(BackAtRoot().positions, 1), "child") == 2
  {
    SecondChildCounted();
    PopsPastPushes(SecondChild(), "sub", "another");
  }

  /** A third child is `[3]` however deep the second one went. */
  lemma ThirdChildPath()
    ensures Path(Pushed(BackAtRoot(), "child")) == "/root/child[3]"
  {
    BackAtRootCounted();
    ThirdChildUnder(BackAtRoot());
  }

  lemma ThirdChildUnder(back: Tracker)
    requires back.Wellformed() && back.names == ["root"]
    requires Count(back.positions[0], "root") == 1 && Count(Level(back.positions, 1), "child") == 2
    ensures Path(Pushed(back, "child")) == "/root/child[3]"
  {
    var third := Pushed(back, "child");
    assert third.positions[..1] == back.positions[..1];
    PathOfOpenNames(third);
    ExampleSegments();
  }

  /** The position test on the builder object: the second child is at position 2. */
  method SecondChildPosition() returns (before: Option<nat>, after: Option<nat>)
    ensures before == None && after == Some(2)
  {
    var b := new PathBuilder();
    before := b.GetPosition();
    b.Push("root");
    b.Push("child");
    b.Pop();
    b.Push("child");
    SecondChildPath();
    after := b.GetPosition();
  }
}
