/**
 * The invariant of the outline algorithm's state, and one lemma per step of
 * the algorithm showing that the step succeeds and keeps the invariant.
 */
module OutlineInvariant {
  import opened Wrappers
  import opened Dom
  import opened NodeAnalyzer
  import opened Sections
  import opened Owners
  import opened Outlines
  import opened HeadingRank
  import opened OutlineState

  /** Every owner has an outline, which names the owner's element, and a
      sectioning root's parent section exists. */
  ghost predicate OwnersOK(s: State) {
    forall o :: 0 <= o < |s.own| ==>
      && s.own[o].outline.Some? && s.own[o].outline.value < |s.ols|
      && s.ols[s.own[o].outline.value].owner == s.own[o].element
      && (s.own[o].parentSection.Some? ==> s.own[o].parentSection.value < |s.secs|)
  }

  /** Every outline has at least one top-level section, and they exist. */
  ghost predicate OutlinesOK(s: State) {
    forall x :: 0 <= x < |s.ols| ==>
      |s.ols[x].sections| >= 1 && forall i :: 0 <= i < |s.ols[x].sections| ==> s.ols[x].sections[i] < |s.secs|
  }

  /** Every owner entry on the stack names an owner. */
  ghost predicate FramesOK(s: State) {
    forall i :: 0 <= i < |s.stack| && s.stack[i].OwnerFrame? ==> s.stack[i].owner < |s.own|
  }

  /** The top-level sections of owner `o`'s outline. */
  ghost function TopLevel(s: State, o: nat): seq<nat>
    requires OwnersOK(s) && o < |s.own|
  {
    s.ols[s.own[o].outline.value].sections
  }

  /** The context of the current section `c` in an outline whose top-level
      sections are `tl`: `ch` is the path from `c` through its parent
      sections up to the last top-level section. Every section on the path
      except possibly the last has an explicit heading, so the ancestor climb
      of `add_heading_section` always finds a section to compare with; only
      the first top-level section can still lack a heading, and then it is
      the current section. */
  ghost predicate ChainOK(secs: seq<Section>, tl: seq<nat>, c: nat, ch: seq<nat>) {
    && |tl| >= 1 && |ch| >= 1 && ch[0] == c && ch[|ch| - 1] == tl[|tl| - 1]
    && (forall i :: 0 <= i < |tl| ==> tl[i] < |secs| && secs[tl[i]].container.None?)
    && (forall i, j :: 0 <= i < j < |tl| ==> tl[i] < tl[j])
    && (forall i :: 0 < i < |tl| ==> !secs[tl[i]].heading.Unset?)
    && (secs[tl[0]].heading.Unset? ==> ch == [tl[0]])
    && (forall i :: 0 <= i < |ch| ==> tl[0] <= ch[i] < |secs|)
    && (forall i :: 0 <= i < |ch| - 1 ==> secs[ch[i]].container == Some(ch[i + 1]) && secs[ch[i]].heading.Explicit?)
  }

  /** The invariant, given the path `ch` from the current section up to the
      last top-level section of the current outline. Before the root is
      entered there is no owner, no section and no stack. */
  ghost predicate Inv(s: State, ch: seq<nat>) {
    && WellFormed(s.secs) && OwnersOK(s) && OutlinesOK(s) && FramesOK(s)
    && (s.owner.None? ==> s.section.None? && s.stack == [])
    && (s.owner.Some? ==>
         s.owner.value < |s.own| && s.section.Some? && ChainOK(s.secs, TopLevel(s, s.owner.value), s.section.value, ch))
  }

  /** There is a current owner with an outline. */
  ghost predicate Owned(s: State) {
    OwnersOK(s) && OutlinesOK(s) && s.owner.Some? && s.owner.value < |s.own|
  }

  /** The outline of the current owner. */
  ghost function OL(s: State): nat
    requires Owned(s)
  {
    s.own[s.owner.value].outline.value
  }

  /** The first top-level section of the current outline: every section the
      walk creates or changes while this outline is current comes at or
      after it. */
  ghost function Mark(s: State): nat
    requires Owned(s)
  {
    TopLevel(s, s.owner.value)[0]
  }

  /** From `s` to `t`: sections before `mark` and every outline except `ol`
      are untouched, owners are only added, and outline `ol` only gains
      top-level sections. */
  ghost predicate Unmoved(s: State, t: State, mark: nat, ol: nat) {
    && |s.secs| <= |t.secs| && |s.ols| <= |t.ols| && s.own <= t.own
    && (forall x :: 0 <= x < mark && x < |s.secs| ==> t.secs[x] == s.secs[x])
    && (forall y :: 0 <= y < |s.ols| && y != ol ==> t.ols[y] == s.ols[y])
    && (ol < |s.ols| ==> t.ols[ol].owner == s.ols[ol].owner && s.ols[ol].sections <= t.ols[ol].sections)
  }

  /** A section that has a heading keeps one. */
  ghost predicate Kept(a: seq<Section>, b: seq<Section>) {
    |a| <= |b| && forall x :: 0 <= x < |a| && !a[x].heading.Unset? ==> !b[x].heading.Unset?
  }

  /** Every section added since `a` has a heading. */
  ghost predicate NewSet(a: seq<Section>, b: seq<Section>) {
    forall x :: |a| <= x < |b| ==> !b[x].heading.Unset?
  }

  /** From `s` to `t` within the current outline: the stack and the owner
      are as they were, nothing outside the current outline moved, and
      headings are only ever set. */
  ghost predicate Stays(s: State, t: State)
    requires Owned(s)
  {
    && t.stack == s.stack && t.owner == s.owner
    && Kept(s.secs, t.secs) && NewSet(s.secs, t.secs)
    && Unmoved(s, t, Mark(s), OL(s))
  }

  ghost predicate AllBelow(xs: seq<nat>, bound: nat) {
    forall i :: 0 <= i < |xs| ==> xs[i] < bound
  }

  /** Section `s` has an explicit heading that outranks a heading of rank `r`. */
  ghost predicate Outranks(secs: seq<Section>, s: nat, r: int) {
    s < |secs| && secs[s].heading.Explicit? && r < Rank(secs[s].heading.element)
  }

  /** Merging the top-level sections `tl` of a closed outline into the last
      top-level section of the resumed outline `tlp` keeps the links
      consistent, leaves every section before the closed outline other than
      the merge target as it was, and re-enters the resumed outline. */
  lemma MergeValid(secs: seq<Section>, tl: seq<nat>, tlp: seq<nat>, rs: nat, rch: seq<nat>, mark: nat)
    requires WellFormed(secs) && ChainOK(secs, tlp, rs, rch) && AllBelow(tlp, mark)
    requires |tl| >= 1 && tl[0] == mark
    requires forall i :: 0 <= i < |tl| ==> tl[i] < |secs| && secs[tl[i]].container.None?
    requires forall i, j :: 0 <= i < j < |tl| ==> tl[i] < tl[j]
    ensures tlp[|tlp| - 1] < mark
    ensures var merged := Merge(secs, tlp[|tlp| - 1], tl);
      && WellFormed(merged)
      && ChainOK(merged, tlp, tlp[|tlp| - 1], [tlp[|tlp| - 1]])
      && forall s :: 0 <= s < mark && s != tlp[|tlp| - 1] ==> merged[s] == secs[s]
  {
    var reentry := tlp[|tlp| - 1];
    assert reentry < mark;
    forall i | 0 <= i < |tl| ensures reentry < tl[i] {
      if i > 0 {
        assert tl[0] < tl[i];
      }
    }
    WellFormedMerge(secs, reentry, tl);
    var merged := Merge(secs, reentry, tl);
    ChainOKReenter(secs, tlp, rs, rch);
    forall s | 0 <= s < mark && s != reentry ensures merged[s] == secs[s] {
      forall i | 0 <= i < |tl| ensures tl[i] != s {
        if i > 0 {
          assert tl[0] < tl[i];
        }
      }
    }
    ChainOKFrame(secs, merged, tlp, reentry, [reentry], reentry + 1);
  }

  /** A context survives changes to sections it does not contain. */
  lemma ChainOKFrame(secs: seq<Section>, secs': seq<Section>, tl: seq<nat>, c: nat, ch: seq<nat>, bound: nat)
    requires ChainOK(secs, tl, c, ch) && bound <= |secs| <= |secs'|
    requires forall i :: 0 <= i < |tl| ==> tl[i] < bound
    requires forall i :: 0 <= i < |ch| ==> ch[i] < bound
    requires forall s :: 0 <= s < bound ==> secs'[s].heading == secs[s].heading && secs'[s].container == secs[s].container
    ensures ChainOK(secs', tl, c, ch)
  {
    assert tl[0] < bound;
  }

  /** A context survives giving a section without a heading an implied one. */
  lemma ChainOKImplied(secs: seq<Section>, tl: seq<nat>, c: nat, ch: seq<nat>, s: nat)
    requires ChainOK(secs, tl, c, ch) && s < |secs| && secs[s].heading.Unset?
    ensures ChainOK(secs[s := secs[s].(heading := Implied)], tl, c, ch)
  {
  }

  /** Re-entering an outline at its last top-level section is a valid context. */
  lemma ChainOKReenter(secs: seq<Section>, tl: seq<nat>, c: nat, ch: seq<nat>)
    requires ChainOK(secs, tl, c, ch)
    ensures ChainOK(secs, tl, tl[|tl| - 1], [tl[|tl| - 1]])
  {
    if |tl| > 1 && secs[tl[0]].heading.Unset? {
      assert tl[0] < tl[|tl| - 1];
    }
  }

  /** A new top-level section with an explicit heading is a valid context. */
  lemma ChainOKTopLevel(secs: seq<Section>, tl: seq<nat>, c: nat, ch: seq<nat>, h: Node)
    requires ChainOK(secs, tl, c, ch) && !secs[c].heading.Unset?
    ensures ChainOK(secs + [HeadingSection(h)], tl + [|secs|], |secs|, [|secs|])
  {
    var secs' := secs + [HeadingSection(h)];
    var tl' := tl + [|secs|];
    forall i, j | 0 <= i < j < |tl'| ensures tl'[i] < tl'[j] {
      if j < |tl| {
        assert tl'[i] == tl[i] && tl'[j] == tl[j];
      }
    }
    assert tl'[0] == tl[0];
  }

  /** A new subsection of the `d`-th section on the path is a valid context,
      whose path continues with the rest of the old path. */
  lemma ChainOKSubsection(secs: seq<Section>, tl: seq<nat>, c: nat, ch: seq<nat>, d: nat, h: Node)
    requires ChainOK(secs, tl, c, ch) && !secs[c].heading.Unset? && d < |ch|
    ensures ch[d] < |secs| + 1
    ensures ChainOK(WithSubsection(secs + [HeadingSection(h)], ch[d], |secs|), tl, |secs|, [|secs|] + ch[d..])
  {
    var n := |secs|;
    var secs' := WithSubsection(secs + [HeadingSection(h)], ch[d], n);
    var ch' := [n] + ch[d..];
    forall i | 0 <= i < |ch'| - 1
      ensures secs'[ch'[i]].container == Some(ch'[i + 1]) && secs'[ch'[i]].heading.Explicit?
    {
      if i > 0 {
        assert ch'[i] == ch[d + i - 1] && ch'[i + 1] == ch[d + i];
      }
    }
  }

  /** A context survives giving the current section, when it has no heading
      yet, an explicit one: it is then the outline's only top-level section
      and the whole path. */
  lemma ChainOKExplicit(secs: seq<Section>, tl: seq<nat>, c: nat, ch: seq<nat>, h: Node)
    requires ChainOK(secs, tl, c, ch) && c < |secs| && secs[c].heading.Unset?
    ensures ChainOK(secs[c := secs[c].(heading := Explicit(h))], tl, c, ch)
  {
  }

  /** The ancestor climb from the `k`-th section on the path finds the first
      section from there on whose heading outranks `rank`, when the last one
      does. */
  lemma {:induction false} ClimbAlongChain(secs: seq<Section>, tl: seq<nat>, c: nat, ch: seq<nat>, rank: int, k: nat)
    returns (d: nat)
    requires WellFormed(secs) && ChainOK(secs, tl, c, ch) && k < |ch|
    requires Outranks(secs, ch[|ch| - 1], rank)
    ensures k <= d < |ch| && Climb(secs, ch[k], rank) == Some(ch[d])
    ensures forall j :: k <= j < d ==> !Outranks(secs, ch[j], rank)
    decreases |ch| - k
  {
    if Outranks(secs, ch[k], rank) {
      d := k;
    } else {
      assert k < |ch| - 1;
      assert SectionWellFormed(secs, ch[k]);
      d := ClimbAlongChain(secs, tl, c, ch, rank, k + 1);
    }
  }

  /** A walk within one outline keeps its outline and its first section. */
  lemma MarkStays(a: State, b: State)
    requires Owned(a) && Owned(b) && Stays(a, b)
    ensures OL(b) == OL(a) && Mark(b) == Mark(a)
  {
    var o := a.owner.value;
    assert b.own[o] == a.own[o];
    assert b.ols[OL(a)].sections[0] == a.ols[OL(a)].sections[0];
  }

  /** Walks within one outline compose. */
  lemma StaysTrans(a: State, b: State, c: State)
    requires Owned(a) && Owned(b) && Stays(a, b) && Stays(b, c)
    ensures Stays(a, c)
  {
    var o := a.owner.value;
    assert b.own[o] == a.own[o];
    assert OL(b) == OL(a);
    assert b.ols[OL(a)].sections[0] == a.ols[OL(a)].sections[0];
  }

  /** The current section with the nodes `ns` associated to it, in order. */
  ghost function Associated(s: State, ns: seq<Node>): State
    requires CurrentOK(s)
  {
    var cs := s.section.value;
    s.(secs := s.secs[cs := s.secs[cs].(nodes := s.secs[cs].nodes + ns)])
  }

  /** `associate_node` is one step of `Associated`. */
  lemma AssociateStep(s: State, ns: seq<Node>, node: Node)
    requires CurrentOK(s)
    ensures CurrentOK(Associated(s, ns))
    ensures Associate(Associated(s, ns), node) == Some(Associated(s, ns + [node]))
  {
    var cs := s.section.value;
    var t := Associated(s, ns);
    assert t.secs[cs].nodes == s.secs[cs].nodes + ns;
    assert s.secs[cs].nodes + ns + [node] == s.secs[cs].nodes + (ns + [node]);
    assert t.secs[cs := t.secs[cs].(nodes := t.secs[cs].nodes + [node])] == Associated(s, ns + [node]).secs;
  }

  /** Associating nodes with the current section keeps the invariant and the
      current outline. */
  lemma AssociatedOK(s: State, ch: seq<nat>, ns: seq<Node>)
    requires Inv(s, ch) && s.owner.Some?
    ensures CurrentOK(s) && Owned(s)
    ensures Inv(Associated(s, ns), ch) && Stays(s, Associated(s, ns))
  {
    var cs := s.section.value;
    var tl := TopLevel(s, s.owner.value);
    var t := Associated(s, ns);
    assert SectionWellFormed(s.secs, cs);
    WellFormedUpdate(s.secs, cs, t.secs[cs]);
    ChainOKFrame(s.secs, t.secs, tl, cs, ch, |s.secs|);
    assert TopLevel(t, t.owner.value) == tl;
  }

  /** Giving the current section, which has none, an explicit heading keeps
      the invariant and the current outline. */
  lemma SetExplicitOK(s: State, ch: seq<nat>, h: Node)
    requires Inv(s, ch) && s.owner.Some? && CurrentOK(s) && s.secs[s.section.value].heading.Unset?
    ensures var cs := s.section.value;
      var t := s.(secs := s.secs[cs := s.secs[cs].(heading := Explicit(h))]);
      Inv(t, ch) && Owned(s) && Stays(s, t)
  {
    var cs := s.section.value;
    var tl := TopLevel(s, s.owner.value);
    var t := s.(secs := s.secs[cs := s.secs[cs].(heading := Explicit(h))]);
    assert SectionWellFormed(s.secs, cs);
    WellFormedUpdate(s.secs, cs, t.secs[cs]);
    ChainOKExplicit(s.secs, tl, cs, ch, h);
    assert TopLevel(t, t.owner.value) == tl;
  }

  /** `add_heading_section` succeeds when the current section has a heading,
      keeps the invariant and the current outline. */
  lemma AddHeadingOK(s: State, ch: seq<nat>, h: Node) returns (t: State, ch': seq<nat>)
    requires Inv(s, ch) && s.owner.Some? && CurrentOK(s) && !s.secs[s.section.value].heading.Unset?
    ensures AddHeading(s, h) == Some(t)
    ensures Inv(t, ch') && Owned(s) && Stays(s, t) && t.own == s.own
  {
    var tl := TopLevel(s, s.owner.value);
    var last := tl[|tl| - 1];
    if |tl| == 1 && s.secs[last].heading.Unset? {
      assert false;
    }
    if s.secs[last].heading.Implied? || Rank(h) >= Rank(s.secs[last].heading.element) {
      t, ch' := AddTopLevelOK(s, ch, h);
    } else {
      t, ch' := AddSubsectionOK(s, ch, h);
    }
  }

  /** The top-level case of `add_heading_section`. */
  lemma AddTopLevelOK(s: State, ch: seq<nat>, h: Node) returns (t: State, ch': seq<nat>)
    requires Inv(s, ch) && s.owner.Some? && CurrentOK(s) && !s.secs[s.section.value].heading.Unset?
    requires var tl := TopLevel(s, s.owner.value);
      && !s.secs[tl[|tl| - 1]].heading.Unset?
      && (s.secs[tl[|tl| - 1]].heading.Implied? || Rank(h) >= Rank(s.secs[tl[|tl| - 1]].heading.element))
    ensures AddHeading(s, h) == Some(t)
    ensures Inv(t, ch') && Owned(s) && Stays(s, t) && t.own == s.own
  {
    assert OutlineOK(s) && OutlineOf(s) == OL(s);
    TopLevelOK(s, ch, h);
    t := AddTopLevel(s, h, OL(s));
    ch' := [|s.secs|];
  }

  /** A new top-level section keeps the invariant and the current outline. */
  lemma TopLevelOK(s: State, ch: seq<nat>, h: Node)
    requires Inv(s, ch) && s.owner.Some? && CurrentOK(s) && !s.secs[s.section.value].heading.Unset?
    ensures Owned(s) && Inv(AddTopLevel(s, h, OL(s)), [|s.secs|]) && Stays(s, AddTopLevel(s, h, OL(s)))
    ensures AddTopLevel(s, h, OL(s)).own == s.own
  {
    var o := s.owner.value;
    var tl := TopLevel(s, o);
    var n := |s.secs|;
    WellFormedAppend(s.secs, HeadingSection(h));
    var t := AddTopLevel(s, h, OL(s));
    ChainOKTopLevel(s.secs, tl, s.section.value, ch, h);
    assert TopLevel(t, o) == tl + [n];
  }

  /** The subsection case of `add_heading_section`: the climb finds the
      parent on the path. */
  lemma AddSubsectionOK(s: State, ch: seq<nat>, h: Node) returns (t: State, ch': seq<nat>)
    requires Inv(s, ch) && s.owner.Some? && CurrentOK(s) && !s.secs[s.section.value].heading.Unset?
    requires var tl := TopLevel(s, s.owner.value);
      && s.secs[tl[|tl| - 1]].heading.Explicit?
      && Rank(h) < Rank(s.secs[tl[|tl| - 1]].heading.element)
    ensures AddHeading(s, h) == Some(t)
    ensures Inv(t, ch') && Owned(s) && Stays(s, t) && t.own == s.own
  {
    var o := s.owner.value;
    var tl := TopLevel(s, o);
    var n := |s.secs|;
    assert OutlineOK(s) && OutlineOf(s) == OL(s);
    var d := ClimbAlongChain(s.secs, tl, s.section.value, ch, Rank(h), 0);
    SubsectionOK(s, ch, h, d);
    AddHeadingSubsection(s, h, ch[d]);
    t := AddSubsection(s, h, ch[d]);
    ch' := [n] + ch[d..];
  }

  /** Two headings of equal rank in a row become siblings. Each new section
      becomes current. Either both go to the top level of the current
      outline, or both become the last two subsections of the same section. */
  lemma SameRankSiblings(s: State, h1: Node, h2: Node, t: State, u: State)
    requires AddHeading(s, h1) == Some(t) && AddHeading(t, h2) == Some(u) && Rank(h1) == Rank(h2)
    ensures Siblings(s, t, u)
  {
    var tops := s.ols[OutlineOf(s)].sections;
    var last := tops[|tops| - 1];
    if s.secs[last].heading.Implied? || Rank(h1) >= Rank(s.secs[last].heading.element) {
      SameRankTopLevel(s, h1, h2, t, u);
    } else {
      SameRankSubsection(s, h1, h2, t, u);
    }
  }

  /** The top-level case of `SameRankSiblings`. */
  lemma SameRankTopLevel(s: State, h1: Node, h2: Node, t: State, u: State)
    requires OutlineOK(s) && CurrentOK(s)
    requires var tops := s.ols[OutlineOf(s)].sections;
      && tops[|tops| - 1] < |s.secs| && !s.secs[tops[|tops| - 1]].heading.Unset?
      && (s.secs[tops[|tops| - 1]].heading.Implied? || Rank(h1) >= Rank(s.secs[tops[|tops| - 1]].heading.element))
    requires AddHeading(s, h1) == Some(t) && AddHeading(t, h2) == Some(u) && Rank(h1) == Rank(h2)
    ensures Siblings(s, t, u)
  {
    var n := |s.secs|;
    var ol := OutlineOf(s);
    var tops := s.ols[ol].sections;
    AddHeadingTopLevel(s, h1);
    assert OutlineOK(t) && OutlineOf(t) == ol && t.ols[ol].sections == tops + [n];
    assert t.secs[n] == HeadingSection(h1);
    AddHeadingTopLevel(t, h2);
    assert u.ols[ol].sections == tops + [n, n + 1];
  }

  /** The subsection case of `SameRankSiblings`: the climb from the first new
      section passes it and stops at its parent. */
  lemma SameRankSubsection(s: State, h1: Node, h2: Node, t: State, u: State)
    requires OutlineOK(s) && CurrentOK(s)
    requires var tops := s.ols[OutlineOf(s)].sections;
      && tops[|tops| - 1] < |s.secs| && s.secs[tops[|tops| - 1]].heading.Explicit?
      && Rank(h1) < Rank(s.secs[tops[|tops| - 1]].heading.element)
    requires AddHeading(s, h1) == Some(t) && AddHeading(t, h2) == Some(u) && Rank(h1) == Rank(h2)
    ensures Siblings(s, t, u)
  {
    assert Climb(s.secs, s.section.value, Rank(h1)).Some?;
    var p := Climb(s.secs, s.section.value, Rank(h1)).value;
    AddHeadingSubsection(s, h1, p);
    SubsectionTwice(s, h1, h2, p);
  }

  /** A second heading of the same rank after a new subsection of `p` becomes
      the next subsection of `p`; the outlines do not change. */
  lemma SubsectionTwice(s: State, h1: Node, h2: Node, p: nat)
    requires OutlineOK(s) && CurrentOK(s)
    requires var tops := s.ols[OutlineOf(s)].sections;
      && tops[|tops| - 1] < |s.secs| && s.secs[tops[|tops| - 1]].heading.Explicit?
      && Rank(h1) < Rank(s.secs[tops[|tops| - 1]].heading.element)
    requires Climb(s.secs, s.section.value, Rank(h1)) == Some(p) && Rank(h1) == Rank(h2)
    ensures var t := AddSubsection(s, h1, p);
      && p < |s.secs| && OutlineOK(t) && OutlineOf(t) == OutlineOf(s)
      && AddHeading(t, h2) == Some(AddSubsection(t, h2, p))
      && var u := AddSubsection(t, h2, p);
         u.ols == s.ols && u.secs[p].subs == s.secs[p].subs + [|s.secs|, |s.secs| + 1]
  {
    var n := |s.secs|;
    var ol := OutlineOf(s);
    var last := s.ols[ol].sections[|s.ols[ol].sections| - 1];
    var t := AddSubsection(s, h1, p);
    assert OutlineOK(t) && OutlineOf(t) == ol && t.ols == s.ols;
    assert t.secs[last].heading == s.secs[last].heading;
    ClimbPastNew(s, t, h1, h2, p);
    AddHeadingSubsection(t, h2, p);
    assert AddSubsection(t, h2, p).secs[p].subs == s.secs[p].subs + [n] + [n + 1];
  }

  /** When the last top-level heading is implied or does not outrank the new
      one, the new section goes to the top level. */
  lemma AddHeadingTopLevel(s: State, h: Node)
    requires OutlineOK(s) && CurrentOK(s)
    requires var tops := s.ols[OutlineOf(s)].sections;
      && tops[|tops| - 1] < |s.secs| && !s.secs[tops[|tops| - 1]].heading.Unset?
      && (s.secs[tops[|tops| - 1]].heading.Implied? || Rank(h) >= Rank(s.secs[tops[|tops| - 1]].heading.element))
    ensures AddHeading(s, h) == Some(AddTopLevel(s, h, OutlineOf(s)))
  {
  }

  /** After a subsection for `h1` was added under `p`, the climb for a heading
      of the same rank from the new section ends at `p`. */
  lemma ClimbPastNew(s: State, t: State, h1: Node, h2: Node, p: nat)
    requires CurrentOK(s) && Climb(s.secs, s.section.value, Rank(h1)) == Some(p)
    requires t == AddSubsection(s, h1, p) && Rank(h1) == Rank(h2)
    ensures Climb(t.secs, |s.secs|, Rank(h2)) == Some(p)
  {
    var n := |s.secs|;
    assert t.secs[n].container == Some(p) && t.secs[n].heading == Explicit(h1);
    assert t.secs[p].heading == s.secs[p].heading;
    assert Climb(t.secs, p, Rank(h2)) == Some(p);
  }

  /** When the last top-level heading outranks the new one and the climb
      finds `p`, the new section becomes a subsection of `p`. */
  lemma AddHeadingSubsection(s: State, h: Node, p: nat)
    requires OutlineOK(s) && CurrentOK(s)
    requires var tops := s.ols[OutlineOf(s)].sections;
      && tops[|tops| - 1] < |s.secs| && s.secs[tops[|tops| - 1]].heading.Explicit?
      && Rank(h) < Rank(s.secs[tops[|tops| - 1]].heading.element)
    requires Climb(s.secs, s.section.value, Rank(h)) == Some(p)
    ensures p < |s.secs| && AddHeading(s, h) == Some(AddSubsection(s, h, p))
  {
  }

  /** A new subsection of the `d`-th section on the path keeps the invariant
      and the current outline. */
  lemma SubsectionOK(s: State, ch: seq<nat>, h: Node, d: nat)
    requires Inv(s, ch) && s.owner.Some? && CurrentOK(s) && !s.secs[s.section.value].heading.Unset?
    requires d < |ch|
    ensures ch[d] < |s.secs| && Owned(s)
    ensures Inv(AddSubsection(s, h, ch[d]), [|s.secs|] + ch[d..]) && Stays(s, AddSubsection(s, h, ch[d]))
  {
    var o := s.owner.value;
    var tl := TopLevel(s, o);
    var n := |s.secs|;
    WellFormedAppend(s.secs, HeadingSection(h));
    ChainOKSubsection(s.secs, tl, s.section.value, ch, d, h);
    WellFormedWithSubsection(s.secs + [HeadingSection(h)], ch[d], n);
    var t := AddSubsection(s, h, ch[d]);
    assert TopLevel(t, o) == tl;
  }

  /** Giving the current section an implied heading when it has none keeps
      the invariant and the current outline. */
  lemma ImplyOK(s: State, ch: seq<nat>)
    requires Inv(s, ch) && s.owner.Some?
    ensures Owned(s) && CurrentOK(s)
    ensures Inv(s.(secs := ImplyHeading(s.secs, s.section)), ch) && Stays(s, s.(secs := ImplyHeading(s.secs, s.section)))
    ensures !ImplyHeading(s.secs, s.section)[Mark(s)].heading.Unset?
  {
    var cs := s.section.value;
    var tl := TopLevel(s, s.owner.value);
    var t := s.(secs := ImplyHeading(s.secs, s.section));
    if s.secs[cs].heading.Unset? {
      assert SectionWellFormed(s.secs, cs);
      WellFormedUpdate(s.secs, cs, t.secs[cs]);
      ChainOKImplied(s.secs, tl, cs, ch, cs);
      assert t.secs == s.secs[cs := s.secs[cs].(heading := Implied)];
    } else {
      assert t.secs == s.secs;
    }
    assert TopLevel(t, t.owner.value) == tl;
  }

  /** A new outline keeps owners, outlines and stack entries valid. */
  lemma StartParts(s: State, element: Node, parent: Option<nat>)
    requires OwnersOK(s) && OutlinesOK(s) && FramesOK(s)
    requires s.owner.Some? ==> s.owner.value < |s.own|
    requires parent.Some? ==> parent.value < |s.secs|
    ensures var t := StartOutline(s, element, parent);
      OwnersOK(t) && OutlinesOK(t) && FramesOK(t)
  {
    var t := StartOutline(s, element, parent);
    forall o | 0 <= o < |t.own|
      ensures t.own[o].outline.Some? && t.own[o].outline.value < |t.ols|
      ensures t.ols[t.own[o].outline.value].owner == t.own[o].element
      ensures t.own[o].parentSection.Some? ==> t.own[o].parentSection.value < |t.secs|
    {
      if o < |s.own| {
        assert t.own[o] == s.own[o];
      }
    }
    forall x | 0 <= x < |t.ols|
      ensures |t.ols[x].sections| >= 1 && forall i :: 0 <= i < |t.ols[x].sections| ==> t.ols[x].sections[i] < |t.secs|
    {
      if x < |s.ols| {
        assert t.ols[x] == s.ols[x];
      }
    }
  }

  /** A new outline is a valid context of its own, and the context set aside
      stays valid. */
  lemma StartOK(s: State, ch: seq<nat>, element: Node, parent: Option<nat>)
    requires Inv(s, ch) && (parent.Some? ==> parent.value < |s.secs|)
    ensures var t := StartOutline(s, element, parent);
      && Inv(t, [|s.secs|]) && Owned(t) && Mark(t) == |s.secs| && OL(t) == |s.ols|
      && (s.owner.Some? ==> ChainOK(t.secs, TopLevel(t, s.owner.value), s.section.value, ch))
  {
    var t := StartOutline(s, element, parent);
    StartParts(s, element, parent);
    WellFormedAppend(s.secs, Section([element], Unset, [], None));
    assert TopLevel(t, |s.own|) == [|s.secs|];
    if s.owner.Some? {
      var tl := TopLevel(s, s.owner.value);
      ChainOKFrame(s.secs, t.secs, tl, s.section.value, ch, |s.secs|);
      assert TopLevel(t, s.owner.value) == tl;
    }
  }

  /** `open_sectioning_outline` succeeds and starts a valid context in a new
      outline whose only section is the last one; the context set aside is
      still valid, and only the section it was current in may have gained a
      heading. */
  lemma OpenOK(s: State, ch: seq<nat>, element: Node, category: Category) returns (t: State)
    requires Inv(s, ch) && (category == SectioningRoot || category == SectioningContent)
    ensures Open(s, element, category) == Some(t)
    ensures Inv(t, [|s.secs|]) && Owned(t) && Mark(t) == |s.secs| && OL(t) == |s.ols|
    ensures t.owner == Some(|s.own|) && t.section == Some(|s.secs|)
    ensures t.stack == if s.owner.Some? then s.stack + [OwnerFrame(s.owner.value)] else s.stack
    ensures s.own <= t.own && t.own[|s.own|].element == element
    ensures t.own[|s.own|].parentSection == if category == SectioningRoot then s.section else None
    ensures |t.ols| == |s.ols| + 1 && s.ols <= t.ols
    ensures |t.secs| == |s.secs| + 1 && Kept(s.secs, t.secs)
    ensures forall x :: 0 <= x < |s.secs| && Some(x) != s.section ==> t.secs[x] == s.secs[x]
    ensures forall x :: 0 <= x < |s.secs| ==> t.secs[x].subs == s.secs[x].subs
    ensures s.owner.Some? ==> ChainOK(t.secs, TopLevel(t, s.owner.value), s.section.value, ch)
  {
    var s1 := if s.owner.Some? && category == SectioningContent then s.(secs := ImplyHeading(s.secs, s.section)) else s;
    if s.owner.Some? {
      ImplyOK(s, ch);
    }
    var parent := if category == SectioningRoot then s.section else None;
    StartOK(s1, ch, element, parent);
    t := OpenShape(s, element, category);
  }

  /** The state `open_sectioning_outline` leaves, apart from the invariant. */
  lemma OpenShape(s: State, element: Node, category: Category) returns (t: State)
    requires s.owner.Some? ==> CurrentOK(s)
    ensures t == StartOutline(if s.owner.Some? && category == SectioningContent then s.(secs := ImplyHeading(s.secs, s.section)) else s,
                              element, if category == SectioningRoot then s.section else None)
    ensures Open(s, element, category) == Some(t)
    ensures t.owner == Some(|s.own|) && t.section == Some(|s.secs|)
    ensures t.stack == if s.owner.Some? then s.stack + [OwnerFrame(s.owner.value)] else s.stack
    ensures s.own <= t.own && t.own[|s.own|].element == element
    ensures t.own[|s.own|].parentSection == if category == SectioningRoot then s.section else None
    ensures |t.ols| == |s.ols| + 1 && s.ols <= t.ols
    ensures |t.secs| == |s.secs| + 1 && Kept(s.secs, t.secs)
    ensures forall x :: 0 <= x < |s.secs| && Some(x) != s.section ==> t.secs[x] == s.secs[x]
    ensures forall x :: 0 <= x < |s.secs| ==> t.secs[x].subs == s.secs[x].subs
  {
    var s1 := if s.owner.Some? && category == SectioningContent then s.(secs := ImplyHeading(s.secs, s.section)) else s;
    t := StartOutline(s1, element, if category == SectioningRoot then s.section else None);
  }

  /** `close_sectioning_outline` with an empty stack: the first top-level
      section of the current outline now has a heading. */
  lemma CloseEmptyOK(t: State, ch: seq<nat>, category: Category) returns (u: State)
    requires Inv(t, ch) && t.owner.Some? && t.stack == []
    ensures Close(t, category) == Some(u) && u == t.(secs := ImplyHeading(t.secs, t.section))
    ensures Inv(u, ch) && Owned(t) && Stays(t, u) && !u.secs[Mark(t)].heading.Unset?
  {
    ImplyOK(t, ch);
    u := t.(secs := ImplyHeading(t.secs, t.section));
  }

  /** The context an owner set aside resumes in: section `rs` and path `rch`
      of owner `p`, wholly before the current outline. */
  ghost predicate Resumable(t: State, p: nat, rs: nat, rch: seq<nat>)
    requires Owned(t) && p < |t.own|
  {
    && ChainOK(t.secs, TopLevel(t, p), rs, rch)
    && AllBelow(TopLevel(t, p), Mark(t)) && AllBelow(rch, Mark(t))
  }

  /** A state with the same owners and outlines, as many sections, a prefix
      of the stack and a valid context for an existing owner is valid. */
  lemma Relocate(t: State, u: State, ch: seq<nat>)
    requires WellFormed(u.secs) && OwnersOK(t) && OutlinesOK(t) && FramesOK(t)
    requires u.own == t.own && u.ols == t.ols && |u.secs| == |t.secs| && u.stack <= t.stack
    requires u.owner.Some? && u.owner.value < |u.own| && u.section.Some?
    requires ChainOK(u.secs, TopLevel(t, u.owner.value), u.section.value, ch)
    ensures Inv(u, ch) && Owned(u) && TopLevel(u, u.owner.value) == TopLevel(t, u.owner.value)
  {
    assert forall i :: 0 <= i < |u.stack| ==> u.stack[i] == t.stack[i];
  }

  /** The sectioning-root end of `close_sectioning_outline`. */
  lemma ResumeRoot(t: State, rs: nat) returns (u: State)
    requires t.stack != [] && t.stack[|t.stack| - 1].OwnerFrame?
    requires t.owner.Some? && t.owner.value < |t.own| && CurrentOK(t)
    requires t.own[t.owner.value].parentSection == Some(rs)
    ensures u == t.(secs := ImplyHeading(t.secs, t.section), owner := Some(t.stack[|t.stack| - 1].owner),
                    section := Some(rs), stack := t.stack[..|t.stack| - 1])
    ensures Close(t, SectioningRoot) == Some(u)
  {
    u := t.(secs := ImplyHeading(t.secs, t.section), owner := Some(t.stack[|t.stack| - 1].owner),
            section := Some(rs), stack := t.stack[..|t.stack| - 1]);
  }

  /** `close_sectioning_outline` of a sectioning root: the owner set aside
      is current again, in the section the root was entered from. */
  lemma CloseRootOK(t: State, ch: seq<nat>, p: nat, rs: nat, rch: seq<nat>) returns (u: State)
    requires Inv(t, ch) && t.owner.Some? && t.stack != [] && t.stack[|t.stack| - 1] == OwnerFrame(p)
    requires Owned(t) && p < |t.own|
    requires t.own[t.owner.value].parentSection == Some(rs)
    requires Resumable(t, p, rs, rch)
    ensures Close(t, SectioningRoot) == Some(u)
    ensures Inv(u, rch) && u.owner == Some(p) && u.section == Some(rs)
    ensures u.stack == t.stack[..|t.stack| - 1] && u.own == t.own && u.ols == t.ols
    ensures u.secs == ImplyHeading(t.secs, t.section) && !u.secs[Mark(t)].heading.Unset?
    ensures Kept(t.secs, u.secs) && |u.secs| == |t.secs| && forall x :: 0 <= x < Mark(t) ==> u.secs[x] == t.secs[x]
  {
    ImplyOK(t, ch);
    var secs' := ImplyHeading(t.secs, t.section);
    ChainOKFrame(t.secs, secs', TopLevel(t, p), rs, rch, Mark(t));
    u := ResumeRoot(t, rs);
    Relocate(t, u, rch);
  }

  /** `close_sectioning_outline` of sectioning content: the owner set aside
      is current again, in its last top-level section, which receives the
      closed outline's top-level sections; no section before the closed
      outline other than that one changes. */
  lemma CloseContentOK(t: State, ch: seq<nat>, p: nat, rs: nat, rch: seq<nat>) returns (u: State, r: nat)
    requires Inv(t, ch) && t.owner.Some? && t.stack != [] && t.stack[|t.stack| - 1] == OwnerFrame(p)
    requires Owned(t) && p < |t.own|
    requires Resumable(t, p, rs, rch)
    ensures r == TopLevel(t, p)[|TopLevel(t, p)| - 1] && r < Mark(t)
    ensures Close(t, SectioningContent) == Some(u)
    ensures Inv(u, [r]) && u.section == Some(r)
    ensures forall x :: 0 <= x < Mark(t) && x != r ==> u.secs[x] == t.secs[x]
    ensures u.owner == Some(p)
    ensures u.stack == t.stack[..|t.stack| - 1] && u.own == t.own && u.ols == t.ols
    ensures Kept(t.secs, u.secs) && |u.secs| == |t.secs| && !u.secs[Mark(t)].heading.Unset?
    ensures u.secs[r].subs == t.secs[r].subs + TopLevel(t, t.owner.value)
  {
    var t' := ImplyResumable(t, ch, p, rs, rch);
    u, r := ReenterValid(t', ch, p, rs, rch);
    ResumeContent(t);
    KeptThenMerged(t.secs, t'.secs, u.secs, Mark(t), r);
  }

  /** Headings kept from `a` to `b`, and equal from `b` to `c`, are kept from
      `a` to `c`; sections before `mark` other than `r` are as in `a`. */
  lemma KeptThenMerged(a: seq<Section>, b: seq<Section>, c: seq<Section>, mark: nat, r: nat)
    requires Kept(a, b) && |a| == |b| == |c| && mark < |a|
    requires forall x :: 0 <= x < mark && x < |a| ==> b[x] == a[x]
    requires forall x :: 0 <= x < |b| ==> c[x].heading == b[x].heading
    requires forall x :: 0 <= x < mark && x != r ==> c[x] == b[x]
    requires !b[mark].heading.Unset?
    ensures Kept(a, c) && !c[mark].heading.Unset?
    ensures forall x :: 0 <= x < mark && x != r ==> c[x] == a[x]
  {
  }

  /** The first half of `close_sectioning_outline` keeps the context set
      aside resumable. */
  lemma ImplyResumable(t: State, ch: seq<nat>, p: nat, rs: nat, rch: seq<nat>) returns (t': State)
    requires Inv(t, ch) && t.owner.Some? && p < |t.own| && Owned(t) && Resumable(t, p, rs, rch)
    ensures t' == t.(secs := ImplyHeading(t.secs, t.section))
    ensures Inv(t', ch) && Owned(t') && Mark(t') == Mark(t) && TopLevel(t', p) == TopLevel(t, p)
    ensures ChainOK(t'.secs, TopLevel(t', p), rs, rch) && AllBelow(TopLevel(t', p), Mark(t'))
    ensures Kept(t.secs, t'.secs) && |t'.secs| == |t.secs| && !t'.secs[Mark(t)].heading.Unset?
    ensures forall x :: 0 <= x < Mark(t) ==> t'.secs[x] == t.secs[x]
  {
    ImplyOK(t, ch);
    t' := t.(secs := ImplyHeading(t.secs, t.section));
    assert TopLevel(t', p) == TopLevel(t, p);
    ChainOKFrame(t.secs, t'.secs, TopLevel(t, p), rs, rch, Mark(t));
  }

  /** The sectioning-content end of `close_sectioning_outline` is `Reenter`. */
  lemma ResumeContent(t: State)
    requires t.stack != [] && t.stack[|t.stack| - 1].OwnerFrame?
    requires t.owner.Some? && t.owner.value < |t.own| && CurrentOK(t)
    ensures Close(t, SectioningContent) == Reenter(t.(secs := ImplyHeading(t.secs, t.section)))
  {
  }

  /** `Reenter` succeeds on a valid state and re-enters the resumed outline
      at its last top-level section, which lies before the closed outline. */
  lemma ReenterValid(t: State, ch: seq<nat>, p: nat, rs: nat, rch: seq<nat>) returns (u: State, r: nat)
    requires Inv(t, ch) && Owned(t) && t.stack != [] && t.stack[|t.stack| - 1] == OwnerFrame(p) && p < |t.own|
    requires ChainOK(t.secs, TopLevel(t, p), rs, rch) && AllBelow(TopLevel(t, p), Mark(t))
    ensures r == TopLevel(t, p)[|TopLevel(t, p)| - 1] && r < Mark(t)
    ensures Reenter(t) == Some(u)
    ensures Inv(u, [r]) && u.section == Some(r)
    ensures forall x :: 0 <= x < Mark(t) && x != r ==> u.secs[x] == t.secs[x]
    ensures u.owner == Some(p) && u.stack == t.stack[..|t.stack| - 1] && u.own == t.own && u.ols == t.ols
    ensures |u.secs| == |t.secs| && forall x :: 0 <= x < |t.secs| ==> u.secs[x].heading == t.secs[x].heading
    ensures u.secs[r].subs == t.secs[r].subs + TopLevel(t, t.owner.value)
  {
    var tlp := TopLevel(t, p);
    var tl := TopLevel(t, t.owner.value);
    MergeValid(t.secs, tl, tlp, rs, rch, Mark(t));
    r := tlp[|tlp| - 1];
    assert Mergeable(tl, r, |t.secs|) by {
      forall i | 0 <= i < |tl| ensures r < tl[i] {
        if i > 0 {
          assert tl[0] < tl[i];
        }
      }
    }
    u := ReenterOK(t, p, r);
    Relocate(t, u, [r]);
  }

  /** The result of `Reenter` once its checks pass. */
  lemma ReenterOK(t: State, p: nat, reentry: nat) returns (u: State)
    requires t.stack != [] && t.stack[|t.stack| - 1] == OwnerFrame(p)
    requires Owned(t) && p < |t.own| && OwnersOK(t) && OutlinesOK(t)
    requires TopLevel(t, p)[|TopLevel(t, p)| - 1] == reentry
    requires reentry < |t.secs| && Mergeable(TopLevel(t, t.owner.value), reentry, |t.secs|)
    ensures Reenter(t) == Some(u)
    ensures u == t.(secs := Merge(t.secs, reentry, TopLevel(t, t.owner.value)), owner := Some(p),
                    section := Some(reentry), stack := t.stack[..|t.stack| - 1])
  {
    var resumed := t.(owner := Some(p), stack := t.stack[..|t.stack| - 1]);
    var o := t.owner.value;
    assert t.own[o].outline.Some? && t.own[o].outline.value < |t.ols|;
    assert |t.ols[t.own[o].outline.value].sections| >= 1;
    assert OutlineOK(t) && OutlineOf(t) == OL(t);
    assert t.own[p].outline.Some? && t.own[p].outline.value < |t.ols|;
    assert |t.ols[t.own[p].outline.value].sections| >= 1;
    assert OutlineOK(resumed) && OutlineOf(resumed) == t.own[p].outline.value;
    u := resumed.(secs := Merge(t.secs, reentry, TopLevel(t, o)), section := Some(reentry));
  }
}
