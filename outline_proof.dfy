/**
 * The walk of `Document_Outline_Algorithm` over a tree never fails: it
 * keeps the invariant of `OutlineInvariant` node by node, returns the stack
 * to where it was after every subtree, and leaves every section with a
 * heading once the root is exited.
 */
module OutlineProof {
  import opened Wrappers
  import opened Dom
  import opened NodeAnalyzer
  import opened Sections
  import opened Owners
  import opened Outlines
  import opened HeadingRank
  import opened OutlineState
  import opened OutlineInvariant

  /** Neither the node on top of the stack nor the current owner's element
      is among `ids`: the walk of a subtree with those ids never pops them. */
  ghost predicate Apart(s: State, ids: set<nat>)
    requires TopOK(s)
  {
    && (Top(s).Some? ==> Top(s).value.id !in ids)
    && (s.owner.Some? && s.owner.value < |s.own| ==> s.own[s.owner.value].element.id !in ids)
  }

  /** Walks that keep the stack and only add owners keep its top. */
  lemma TopStays(s: State, t: State)
    requires TopOK(s) && t.stack == s.stack && s.own <= t.own
    ensures TopOK(t) && Top(t) == Top(s)
  {
    if s.stack != [] && s.stack[|s.stack| - 1].OwnerFrame? {
      assert t.own[s.stack[|s.stack| - 1].owner] == s.own[s.stack[|s.stack| - 1].owner];
    }
  }

  /** `walk` composed from its three steps. */
  lemma RunSteps(s: State, n: Node, s1: State, s2: State, u: State)
    requires Enter(s, n) == Some(s1)
    requires n.Element? ==> RunChildren(s1, n, |n.children|) == Some(s2)
    requires !n.Element? ==> s2 == s1
    requires Exit(s2, n) == Some(u)
    ensures Run(s, n) == Some(u)
  {
  }

  /** An identity outside a node's subtree, or its own, is outside each
      child's subtree. */
  lemma ChildApart(n: Node, i: nat, x: nat)
    requires n.Element? && i < |n.children| && UniqueIds(n) && x !in Ids(n) - {n.id}
    ensures UniqueIds(n.children[i]) && x !in Ids(n.children[i])
  {
    ChildIds(n, i);
  }

  /** The walk over one more child. */
  lemma ChildStep(s: State, n: Node, k: nat, t: State, u: State)
    requires n.Element? && 0 < k <= |n.children|
    requires RunChildren(s, n, k - 1) == Some(t) && Run(t, n.children[k - 1]) == Some(u)
    ensures RunChildren(s, n, k) == Some(u)
  {
  }

  /** Below a heading on the stack nothing happens. */
  lemma {:induction false} RunUnderHeading(s: State, n: Node)
    requires TopOK(s) && Analyze(Top(s)) == Some(Heading) && Top(s).value.id !in Ids(n) && UniqueIds(n)
    ensures Run(s, n) == Some(s)
    decreases n, 1
  {
    assert Enter(s, n) == Some(s);
    if n.Element? {
      ChildrenUnderHeading(s, n, |n.children|);
    }
    assert Exit(s, n) == Some(s);
    RunSteps(s, n, s, s, s);
  }

  lemma {:induction false} ChildrenUnderHeading(s: State, n: Node, k: nat)
    requires n.Element? && k <= |n.children| && UniqueIds(n)
    requires TopOK(s) && Analyze(Top(s)) == Some(Heading) && Top(s).value.id !in Ids(n) - {n.id}
    ensures RunChildren(s, n, k) == Some(s)
    decreases n, 0, k
  {
    if k > 0 {
      ChildApart(n, k - 1, Top(s).value.id);
      RunUnderHeading(s, n.children[k - 1]);
      ChildrenUnderHeading(s, n, k - 1);
      ChildStep(s, n, k, s, s);
    }
  }

  /** Below a hidden element on the stack every node of the subtree is
      associated with the current section, in post-order. */
  lemma {:induction false} RunUnderHidden(s: State, n: Node)
    requires TopOK(s) && CurrentOK(s) && Analyze(Top(s)) == Some(Hidden) && Top(s).value.id !in Ids(n) && UniqueIds(n)
    ensures Run(s, n) == Some(Associated(s, PostOrder(n)))
    decreases n, 1
  {
    assert Enter(s, n) == Some(s);
    var done := if n.Element? then ForestPostOrder(n.children) else [];
    if n.Element? {
      ChildrenUnderHidden(s, n, |n.children|);
      ForestPostOrderAll(n.children);
    } else {
      AssociatedNil(s);
    }
    var s2 := Associated(s, done);
    assert Top(s2) == Top(s);
    AssociateStep(s, done, n);
    assert Exit(s2, n) == Some(Associated(s, done + [n]));
    RunSteps(s, n, s, s2, Associated(s, PostOrder(n)));
  }

  lemma {:induction false} ChildrenUnderHidden(s: State, n: Node, k: nat)
    requires n.Element? && k <= |n.children| && UniqueIds(n)
    requires TopOK(s) && CurrentOK(s) && Analyze(Top(s)) == Some(Hidden) && Top(s).value.id !in Ids(n) - {n.id}
    ensures RunChildren(s, n, k) == Some(Associated(s, ForestPostOrder(n.children[..k])))
    decreases n, 0, k
  {
    if k == 0 {
      assert n.children[..0] == [];
      AssociatedNil(s);
    } else {
      ChildrenUnderHidden(s, n, k - 1);
      ChildApart(n, k - 1, Top(s).value.id);
      var done := ForestPostOrder(n.children[..k - 1]);
      var t := Associated(s, done);
      assert Top(t) == Top(s);
      RunUnderHidden(t, n.children[k - 1]);
      AssociatedTwice(s, done, PostOrder(n.children[k - 1]));
      ChildStep(s, n, k, t, Associated(t, PostOrder(n.children[k - 1])));
      ForestPostOrderSnoc(n.children, k - 1);
    }
  }

  lemma AssociatedNil(s: State)
    requires CurrentOK(s)
    ensures Associated(s, []) == s
  {
    assert s.secs[s.section.value].nodes + [] == s.secs[s.section.value].nodes;
  }

  lemma AssociatedTwice(s: State, a: seq<Node>, b: seq<Node>)
    requires CurrentOK(s)
    ensures CurrentOK(Associated(s, a)) && Associated(Associated(s, a), b) == Associated(s, a + b)
  {
    var cs := s.section.value;
    assert s.secs[cs].nodes + a + b == s.secs[cs].nodes + (a + b);
  }

  /** A hidden element is set aside on the stack while its subtree is
      walked; the element and its whole subtree end up associated with the
      current section, in post-order. */
  lemma HiddenNodeRun(s: State, n: Node)
    requires TopOK(s) && CurrentOK(s) && Analyze(Top(s)) != Some(Heading) && Analyze(Top(s)) != Some(Hidden)
    requires Analyze(Some(n)) == Some(Hidden) && UniqueIds(n)
    ensures Run(s, n) == Some(Associated(s, PostOrder(n)))
  {
    var s1 := Push(s, NodeFrame(n));
    assert Enter(s, n) == Some(s1);
    assert TopOK(s1) && Top(s1) == Some(n);
    ChildrenUnderHidden(s1, n, |n.children|);
    ForestPostOrderAll(n.children);
    var done := ForestPostOrder(n.children);
    var s2 := Associated(s1, done);
    assert s2.stack[..|s2.stack| - 1] == s.stack;
    assert s2.(stack := s.stack) == Associated(s, done);
    AssociateStep(s, done, n);
    assert Exit(s2, n) == Some(Associated(s, done + [n]));
    RunSteps(s, n, s1, s2, Associated(s, PostOrder(n)));
  }

  /** A heading with a rank names the current section or starts a new one;
      it is set aside on the stack, so nothing in its subtree counts. */
  lemma HeadingRun(s: State, ch: seq<nat>, n: Node) returns (t: State, ch': seq<nat>)
    requires Inv(s, ch) && s.owner.Some? && TopOK(s)
    requires Analyze(Top(s)) != Some(Heading) && Analyze(Top(s)) != Some(Hidden)
    requires Analyze(Some(n)) == Some(Heading) && Rank(n) != 0 && UniqueIds(n)
    ensures Run(s, n) == Some(t) && Inv(t, ch') && Owned(s) && Stays(s, t)
  {
    t, ch' := HeadingEnter(s, ch, n);
    var s1 := Push(t, NodeFrame(n));
    HeadingExit(t, n);
    RunSteps(s, n, s1, s1, t);
  }

  /** `enter_node` on a heading with a rank. */
  lemma HeadingEnter(s: State, ch: seq<nat>, n: Node) returns (t: State, ch': seq<nat>)
    requires Inv(s, ch) && s.owner.Some? && TopOK(s)
    requires Analyze(Top(s)) != Some(Heading) && Analyze(Top(s)) != Some(Hidden)
    requires Analyze(Some(n)) == Some(Heading) && Rank(n) != 0
    ensures Enter(s, n) == Some(Push(t, NodeFrame(n))) && Inv(t, ch') && Owned(s) && Stays(s, t)
    ensures s.section.Some? && s.section.value < |s.secs|
    ensures s.secs[s.section.value].heading.Unset? ==>
      t == s.(secs := s.secs[s.section.value := s.secs[s.section.value].(heading := Explicit(n))])
    ensures !s.secs[s.section.value].heading.Unset? ==> AddHeading(s, n) == Some(t)
  {
    var cs := s.section.value;
    if s.secs[cs].heading.Unset? {
      t := s.(secs := s.secs[cs := s.secs[cs].(heading := Explicit(n))]);
      SetExplicitOK(s, ch, n);
      ch' := ch;
    } else {
      t, ch' := AddHeadingOK(s, ch, n);
    }
    assert EnterHeading(s, n) == Some(Push(t, NodeFrame(n)));
    EnterIsHeading(s, n);
  }

  lemma EnterIsHeading(s: State, n: Node)
    requires TopOK(s) && Analyze(Top(s)) != Some(Heading) && Analyze(Top(s)) != Some(Hidden)
    requires Analyze(Some(n)) == Some(Heading)
    ensures Enter(s, n) == EnterHeading(s, n)
  {
  }

  /** The subtree of a heading set aside on the stack is skipped, and
      `exit_node` takes the heading off the stack. */
  lemma HeadingExit(t: State, n: Node)
    requires Analyze(Some(n)) == Some(Heading) && UniqueIds(n)
    ensures n.Element? && RunChildren(Push(t, NodeFrame(n)), n, |n.children|) == Some(Push(t, NodeFrame(n)))
    ensures Exit(Push(t, NodeFrame(n)), n) == Some(t)
  {
    var s1 := Push(t, NodeFrame(n));
    assert TopOK(s1) && Top(s1) == Some(n);
    ChildrenUnderHeading(s1, n, |n.children|);
    assert s1.stack[..|s1.stack| - 1] == t.stack;
  }

  /** What the walk of a subtree needs: a valid state whose stack top and
      current owner lie outside the subtree, the current owner's element is
      a sectioning element, and the first node walked is one. */
  ghost predicate Ready(s: State, ch: seq<nat>, n: Node) {
    && Inv(s, ch) && UniqueIds(n) && TopOK(s) && Apart(s, Ids(n))
    && (s.owner.Some? ==> s.owner.value < |s.own| && IsSectioning(Analyze(Some(s.own[s.owner.value].element))))
    && (s.owner.None? ==> IsSectioning(Analyze(Some(n))))
  }

  /** What the walk of a subtree guarantees: the state is valid, the stack
      is as it was, headings are only set and every new section has one;
      inside an outline nothing outside it moved, and the first node walked
      becomes the owner of the first outline. */
  ghost predicate Done(s: State, n: Node, t: State, ch': seq<nat>) {
    && Inv(t, ch') && t.stack == s.stack && Kept(s.secs, t.secs) && NewSet(s.secs, t.secs)
    && (s.owner.Some? ==> Owned(s) && Stays(s, t))
    && (s.owner.None? ==> t.owner == Some(|s.own|) && |s.own| < |t.own| && t.own[|s.own|].element == n)
  }

  /** `walk` never fails on a ready state, and keeps the invariant. */
  lemma {:induction false} RunOK(s: State, ch: seq<nat>, n: Node) returns (t: State, ch': seq<nat>)
    requires Ready(s, ch, n)
    ensures Run(s, n) == Some(t) && Done(s, n, t, ch')
    decreases n, 2, 0
  {
    var topIs := Analyze(Top(s));
    var nodeIs := Analyze(Some(n));
    if topIs == Some(Heading) {
      RunUnderHeading(s, n);
      t, ch' := s, ch;
      StaysRefl(s, ch);
    } else if topIs == Some(Hidden) {
      RunUnderHidden(s, n);
      AssociatedOK(s, ch, PostOrder(n));
      t, ch' := Associated(s, PostOrder(n)), ch;
    } else if nodeIs == Some(Hidden) {
      HiddenNodeRun(s, n);
      AssociatedOK(s, ch, PostOrder(n));
      t, ch' := Associated(s, PostOrder(n)), ch;
    } else if IsSectioning(nodeIs) {
      if s.owner.None? {
        t, ch' := WalkTopOK(s, ch, n);
      } else if nodeIs == Some(SectioningRoot) {
        t, ch' := WalkRootOK(s, ch, n);
      } else {
        t, ch' := WalkContentOK(s, ch, n);
      }
    } else if nodeIs == Some(Heading) && Rank(n) != 0 {
      t, ch' := HeadingRun(s, ch, n);
    } else {
      t, ch' := PlainOK(s, ch, n);
    }
  }

  lemma StaysRefl(s: State, ch: seq<nat>)
    requires Inv(s, ch) && s.owner.Some?
    ensures Owned(s) && Stays(s, s)
  {
  }

  /** Any other node: its subtree is walked, then it is associated with the
      section that is current at its end. */
  lemma {:induction false} PlainOK(s: State, ch: seq<nat>, n: Node) returns (t: State, ch': seq<nat>)
    requires Ready(s, ch, n) && s.owner.Some?
    requires Analyze(Top(s)) != Some(Heading) && Analyze(Top(s)) != Some(Hidden)
    requires Analyze(Some(n)) != Some(Hidden) && !IsSectioning(Analyze(Some(n)))
    requires !(Analyze(Some(n)) == Some(Heading) && Rank(n) != 0)
    ensures Run(s, n) == Some(t) && Inv(t, ch') && Owned(s) && Stays(s, t)
    decreases n, 1, 0
  {
    assert Enter(s, n) == Some(s);
    var s2, ch2 := s, ch;
    if n.Element? {
      s2, ch2 := ChildrenOK(s, ch, n, |n.children|);
    } else {
      StaysRefl(s, ch);
    }
    TopStays(s, s2);
    t := PlainExit(s2, ch2, n);
    ch' := ch2;
    RunSteps(s, n, s, s2, t);
    StaysTrans(s, s2, t);
  }

  /** `exit_node` on a node that neither is set aside nor closes an outline
      associates it with the current section. */
  lemma PlainExit(s: State, ch: seq<nat>, n: Node) returns (t: State)
    requires Inv(s, ch) && s.owner.Some? && TopOK(s)
    requires Analyze(Top(s)) != Some(Heading) && Analyze(Top(s)) != Some(Hidden)
    requires Top(s).Some? ==> Top(s).value.id != n.id
    requires !IsSectioning(Analyze(Some(n)))
    ensures Exit(s, n) == Some(t) && Inv(t, ch) && Owned(s) && Stays(s, t)
  {
    AssociatedOK(s, ch, [n]);
    AssociatedNil(s);
    AssociateStep(s, [], n);
    t := Associated(s, [n]);
  }

  /** The walk over the first `k` children of `n` inside one outline. */
  lemma {:induction false} ChildrenOK(s: State, ch: seq<nat>, n: Node, k: nat) returns (t: State, ch': seq<nat>)
    requires n.Element? && k <= |n.children| && UniqueIds(n)
    requires Inv(s, ch) && s.owner.Some? && TopOK(s) && Apart(s, Ids(n) - {n.id})
    requires s.owner.value < |s.own| && IsSectioning(Analyze(Some(s.own[s.owner.value].element)))
    ensures RunChildren(s, n, k) == Some(t) && Inv(t, ch') && Owned(s) && Stays(s, t)
    decreases n, 0, k
  {
    if k == 0 {
      t, ch' := s, ch;
      StaysRefl(s, ch);
    } else {
      var t0, c0 := ChildrenOK(s, ch, n, k - 1);
      ChildReady(s, t0, c0, n, k - 1);
      t, ch' := RunOK(t0, c0, n.children[k - 1]);
      ChildStep(s, n, k, t0, t);
      StaysTrans(s, t0, t);
    }
  }

  /** A child is ready to be walked after its earlier siblings. */
  lemma ChildReady(s: State, t: State, ch: seq<nat>, n: Node, i: nat)
    requires n.Element? && i < |n.children| && UniqueIds(n)
    requires Owned(s) && TopOK(s) && Apart(s, Ids(n) - {n.id}) && IsSectioning(Analyze(Some(s.own[s.owner.value].element)))
    requires Inv(t, ch) && Stays(s, t)
    ensures Ready(t, ch, n.children[i]) && t.owner.Some?
  {
    ChildIds(n, i);
    TopStays(s, t);
    assert t.own[s.owner.value] == s.own[s.owner.value];
  }

  /** The first part of walking a sectioning element: its outline is opened
      and its children are walked inside it. */
  lemma {:induction false} OpenWalk(s: State, ch: seq<nat>, n: Node) returns (t1: State, t2: State, ch2: seq<nat>)
    requires Ready(s, ch, n) && IsSectioning(Analyze(Some(n)))
    requires Analyze(Top(s)) != Some(Heading) && Analyze(Top(s)) != Some(Hidden)
    ensures n.Element? && Enter(s, n) == Some(t1) && RunChildren(t1, n, |n.children|) == Some(t2)
    ensures Exit(t2, n) == Close(t2, Analyze(Some(n)).value)
    ensures Inv(t2, ch2) && Owned(t1) && Owned(t2) && Stays(t1, t2)
    ensures OL(t1) == |s.ols| && Mark(t1) == |s.secs| && Mark(t2) == |s.secs|
    ensures t1.owner == Some(|s.own|) && t1.section == Some(|s.secs|)
    ensures t1.stack == if s.owner.Some? then s.stack + [OwnerFrame(s.owner.value)] else s.stack
    ensures s.own <= t1.own && t1.own[|s.own|].element == n
    ensures t1.own[|s.own|].parentSection == if Analyze(Some(n)) == Some(SectioningRoot) then s.section else None
    ensures |t1.ols| == |s.ols| + 1 && s.ols <= t1.ols
    ensures |t1.secs| == |s.secs| + 1 && Kept(s.secs, t1.secs)
    ensures forall x :: 0 <= x < |s.secs| && Some(x) != s.section ==> t1.secs[x] == s.secs[x]
    ensures forall x :: 0 <= x < |s.secs| ==> t1.secs[x].subs == s.secs[x].subs
    ensures s.owner.Some? ==> ChainOK(t1.secs, TopLevel(t1, s.owner.value), s.section.value, ch)
    decreases n, 1, 0
  {
    var cat := Analyze(Some(n)).value;
    t1 := OpenOK(s, ch, n, cat);
    EnterIsOpen(s, n);
    OpenedReady(s, n, t1);
    t2, ch2 := ChildrenOK(t1, [|s.secs|], n, |n.children|);
    MarkStays(t1, t2);
    TopStays(t1, t2);
    SectioningExit(t2, n, Top(t1));
  }

  lemma EnterIsOpen(s: State, n: Node)
    requires TopOK(s) && Analyze(Top(s)) != Some(Heading) && Analyze(Top(s)) != Some(Hidden)
    requires IsSectioning(Analyze(Some(n)))
    ensures Enter(s, n) == Open(s, n, Analyze(Some(n)).value)
  {
  }

  /** Once the outline of a sectioning element is open, its children are
      ready to be walked: the stack top is the element of the owner set
      aside, if any, and the current owner's element is the sectioning
      element itself. */
  lemma OpenedReady(s: State, n: Node, t1: State)
    requires TopOK(s) && Apart(s, Ids(n)) && n.Element? && IsSectioning(Analyze(Some(n)))
    requires s.owner.Some? ==> s.owner.value < |s.own| && IsSectioning(Analyze(Some(s.own[s.owner.value].element)))
    requires s.owner.None? ==> s.stack == []
    requires t1.stack == if s.owner.Some? then s.stack + [OwnerFrame(s.owner.value)] else s.stack
    requires s.own <= t1.own && |s.own| < |t1.own| && t1.owner == Some(|s.own|) && t1.own[|s.own|].element == n
    ensures TopOK(t1) && Apart(t1, Ids(n) - {n.id})
    ensures t1.owner.value < |t1.own| && IsSectioning(Analyze(Some(t1.own[t1.owner.value].element)))
    ensures Top(t1).Some? ==> Top(t1).value.id != n.id && IsSectioning(Analyze(Top(t1)))
  {
    assert n.id in Ids(n);
    if s.owner.Some? {
      assert t1.own[s.owner.value] == s.own[s.owner.value];
      assert Top(t1) == Some(s.own[s.owner.value].element);
    }
  }

  /** `exit_node` on a sectioning element whose walk kept the stack closes
      its outline. */
  lemma SectioningExit(t: State, n: Node, top: Option<Node>)
    requires IsSectioning(Analyze(Some(n))) && TopOK(t) && Top(t) == top
    requires top.Some? ==> top.value.id != n.id && IsSectioning(Analyze(top))
    ensures Exit(t, n) == Close(t, Analyze(Some(n)).value)
  {
  }

  /** Headings kept and new sections set across opening an outline (whose
      first section is `a`'s length), walking it and closing it. */
  lemma ComposeNew(a: seq<Section>, b: seq<Section>, c: seq<Section>, d: seq<Section>)
    requires Kept(a, b) && |b| == |a| + 1 && Kept(b, c) && NewSet(b, c) && Kept(c, d) && |d| == |c|
    requires !d[|a|].heading.Unset?
    ensures Kept(a, d) && NewSet(a, d)
  {
  }

  /** Walking the outermost sectioning element: nothing was current before,
      the element becomes the owner of the first outline. */
  lemma {:induction false} WalkTopOK(s: State, ch: seq<nat>, n: Node) returns (u: State, ch': seq<nat>)
    requires Ready(s, ch, n) && s.owner.None? && IsSectioning(Analyze(Some(n)))
    requires Analyze(Top(s)) != Some(Heading) && Analyze(Top(s)) != Some(Hidden)
    ensures Run(s, n) == Some(u) && Done(s, n, u, ch')
    decreases n, 1, 1
  {
    var t1, t2, ch2 := OpenWalk(s, ch, n);
    u := CloseEmptyOK(t2, ch2, Analyze(Some(n)).value);
    ch' := ch2;
    RunSteps(s, n, t1, t2, u);
    ComposeNew(s.secs, t1.secs, t2.secs, u.secs);
    assert t2.own[|s.own|] == t1.own[|s.own|];
  }

  /** After the walk inside a nested outline, the context set aside is as
      it was. */
  lemma ResumeContext(s: State, ch: seq<nat>, t1: State, t2: State)
    requires Inv(s, ch) && s.owner.Some?
    requires Owned(t1) && Owned(t2) && Stays(t1, t2)
    requires OL(t1) == |s.ols| && Mark(t1) == |s.secs| && Mark(t2) == |s.secs|
    requires s.own <= t1.own && s.ols <= t1.ols
    requires ChainOK(t1.secs, TopLevel(t1, s.owner.value), s.section.value, ch)
    ensures TopLevel(t2, s.owner.value) == TopLevel(s, s.owner.value)
    ensures Resumable(t2, s.owner.value, s.section.value, ch)
  {
    var p := s.owner.value;
    var y := s.own[p].outline.value;
    assert t1.own[p] == s.own[p] && t1.ols[y] == s.ols[y];
    assert t2.own[p] == t1.own[p] && t2.ols[y] == t1.ols[y];
    var tl := TopLevel(s, p);
    ChainOKFrame(t1.secs, t2.secs, tl, s.section.value, ch, |s.secs|);
  }

  /** The first top-level section comes no later than the current one and
      the last top-level one. */
  lemma MarkFirst(s: State, ch: seq<nat>)
    requires Inv(s, ch) && s.owner.Some?
    ensures Owned(s) && Mark(s) <= s.section.value
    ensures var tl := TopLevel(s, s.owner.value); Mark(s) <= tl[|tl| - 1]
  {
    var tl := TopLevel(s, s.owner.value);
    if |tl| > 1 {
      assert tl[0] < tl[|tl| - 1];
    }
  }

  /** Opening, walking and closing a nested outline stays, seen from the
      outline it is nested in. */
  lemma NestedStays(s: State, ch: seq<nat>, t1: State, t2: State, u: State, r: nat)
    requires Inv(s, ch) && s.owner.Some?
    requires |t1.secs| == |s.secs| + 1 && Kept(s.secs, t1.secs)
    requires forall x :: 0 <= x < |s.secs| && Some(x) != s.section ==> t1.secs[x] == s.secs[x]
    requires s.own <= t1.own && |t1.ols| == |s.ols| + 1 && s.ols <= t1.ols
    requires Owned(t1) && Stays(t1, t2) && OL(t1) == |s.ols| && Mark(t1) == |s.secs|
    requires u.own == t2.own && u.ols == t2.ols && |u.secs| == |t2.secs| && Kept(t2.secs, u.secs)
    requires !u.secs[|s.secs|].heading.Unset?
    requires forall x :: 0 <= x < |s.secs| && x != r ==> u.secs[x] == t2.secs[x]
    requires Owned(s) && Mark(s) <= r
    requires u.stack == s.stack && u.owner == s.owner
    ensures Stays(s, u)
  {
    ComposeNew(s.secs, t1.secs, t2.secs, u.secs);
    assert Mark(s) <= s.section.value;
  }

  /** Walking a sectioning root inside an outline: its own outline stays
      separate and the walk resumes in the section it was entered from. */
  lemma {:induction false} WalkRootOK(s: State, ch: seq<nat>, n: Node) returns (u: State, ch': seq<nat>)
    requires Ready(s, ch, n) && s.owner.Some? && Analyze(Some(n)) == Some(SectioningRoot)
    requires Analyze(Top(s)) != Some(Heading) && Analyze(Top(s)) != Some(Hidden)
    ensures Run(s, n) == Some(u) && Done(s, n, u, ch')
    ensures u.section == s.section && |s.secs| <= |u.secs|
    ensures forall x :: 0 <= x < |s.secs| ==> u.secs[x].subs == s.secs[x].subs
    decreases n, 1, 1
  {
    var t1, t2, ch2 := OpenWalk(s, ch, n);
    var p := s.owner.value;
    ResumeContext(s, ch, t1, t2);
    assert t2.own[|s.own|] == t1.own[|s.own|];
    u := CloseRootOK(t2, ch2, p, s.section.value, ch);
    ch' := ch;
    RunSteps(s, n, t1, t2, u);
    assert u.stack == s.stack;
    NestedStays(s, ch, t1, t2, u, |s.secs|);
    RootSubs(s, t1, t2, u);
  }

  /** Closing a sectioning root's outline leaves the subsections of every
      earlier section as they were before it was opened. */
  lemma RootSubs(s: State, t1: State, t2: State, u: State)
    requires Owned(t1) && Stays(t1, t2) && Mark(t1) == |s.secs| && |s.secs| < |t1.secs|
    requires forall x :: 0 <= x < |s.secs| ==> t1.secs[x].subs == s.secs[x].subs
    requires u.secs == ImplyHeading(t2.secs, t2.section)
    ensures |s.secs| <= |u.secs| && forall x :: 0 <= x < |s.secs| ==> u.secs[x].subs == s.secs[x].subs
  {
    assert forall x :: 0 <= x < |s.secs| ==> t2.secs[x] == t1.secs[x];
  }

  /** Walking sectioning content inside an outline: the top-level sections
      of its outline become subsections of the last top-level section of the
      enclosing outline, where the walk resumes. */
  lemma {:induction false} WalkContentOK(s: State, ch: seq<nat>, n: Node) returns (u: State, ch': seq<nat>)
    requires Ready(s, ch, n) && s.owner.Some? && Analyze(Some(n)) == Some(SectioningContent)
    requires Analyze(Top(s)) != Some(Heading) && Analyze(Top(s)) != Some(Hidden)
    ensures Run(s, n) == Some(u) && Done(s, n, u, ch')
    decreases n, 1, 1
  {
    var t1, t2, ch2 := OpenWalk(s, ch, n);
    var p := s.owner.value;
    ResumeContext(s, ch, t1, t2);
    var r;
    u, r := CloseContentOK(t2, ch2, p, s.section.value, ch);
    ch' := [r];
    RunSteps(s, n, t1, t2, u);
    assert u.stack == s.stack;
    MarkFirst(s, ch);
    NestedStays(s, ch, t1, t2, u, r);
  }

  /** The walk from the root of a tree with unique node identities, whose
      root is a sectioning element, completes: the root owns the first
      outline, the stack is empty again, the sections, owners and outlines
      are consistent, and every section has a heading, explicit or implied. */
  lemma WalkComplete(root: Node) returns (t: State)
    requires UniqueIds(root) && IsSectioning(Analyze(Some(root)))
    ensures Run(Init, root) == Some(t)
    ensures t.stack == [] && t.owner == Some(0) && |t.own| >= 1 && t.own[0].element == root
    ensures WellFormed(t.secs) && OwnersOK(t) && OutlinesOK(t)
    ensures forall x :: 0 <= x < |t.secs| ==> !t.secs[x].heading.Unset?
  {
    assert Ready(Init, [], root);
    var ch;
    t, ch := RunOK(Init, [], root);
  }
}
