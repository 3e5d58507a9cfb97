/**
 * Which node initiates each section. A section is started either for a
 * sectioning element, whose outline it opens, or for a heading, which is
 * then its heading. The heading a section later receives is always a
 * heading element, so its tag name equals that of the section's first node
 * exactly when the heading is that node.
 */
module OutlineInitiators {
  import opened Wrappers
  import opened Dom
  import opened NodeAnalyzer
  import opened Sections
  import opened HeadingRank
  import opened OutlineState
  import opened OutlineProof

  /** The first node of `sec` initiates it: it is a sectioning element, or it
      is the section's own heading. An explicit heading is a heading element. */
  ghost predicate Initiated(sec: Section) {
    && |sec.nodes| >= 1
    && (IsSectioning(Analyze(Some(sec.nodes[0]))) || sec.heading == Explicit(sec.nodes[0]))
    && (sec.heading.Explicit? ==> Analyze(Some(sec.heading.element)) == Some(Heading))
  }

  ghost predicate AllInitiated(secs: seq<Section>) {
    forall x :: 0 <= x < |secs| ==> Initiated(secs[x])
  }

  /** The tag of a section's explicit heading is the tag of its first node
      exactly when the heading is that node: heading names and sectioning
      names never coincide. */
  lemma InitiatorName(sec: Section)
    requires Initiated(sec) && sec.heading.Explicit?
    ensures TagName(sec.heading.element) == TagName(sec.nodes[0]) <==> sec.nodes[0] == sec.heading.element
  {
    var h := sec.heading.element;
    if sec.nodes[0] != h {
      AnalyzeCategories(Some(h));
      AnalyzeCategories(Some(sec.nodes[0]));
      NamesDisjoint();
      assert h.tag in HeadingNames;
    }
  }

  lemma AppendInitiated(secs: seq<Section>, sec: Section)
    requires AllInitiated(secs) && Initiated(sec)
    ensures AllInitiated(secs + [sec])
  {
    assert forall x :: 0 <= x < |secs| ==> (secs + [sec])[x] == secs[x];
  }

  /** Changes that keep every heading and extend every node list keep the
      initiators. */
  lemma GrowInitiated(a: seq<Section>, b: seq<Section>)
    requires AllInitiated(a) && |a| == |b|
    requires forall x :: 0 <= x < |a| ==> b[x].heading == a[x].heading && a[x].nodes <= b[x].nodes
    ensures AllInitiated(b)
  {
    forall x | 0 <= x < |b| ensures Initiated(b[x]) {
      assert Initiated(a[x]);
      assert b[x].nodes[0] == a[x].nodes[0];
    }
  }

  lemma ImplyInitiated(secs: seq<Section>, cs: Option<nat>)
    requires AllInitiated(secs)
    ensures AllInitiated(ImplyHeading(secs, cs))
  {
    var r := ImplyHeading(secs, cs);
    forall x | 0 <= x < |r| ensures Initiated(r[x]) {
      assert Initiated(secs[x]);
    }
  }

  /** A heading given to a section that has none: that section was opened
      for a sectioning element. */
  lemma SetInitiated(secs: seq<Section>, cs: nat, node: Node)
    requires AllInitiated(secs) && cs < |secs| && secs[cs].heading.Unset?
    requires Analyze(Some(node)) == Some(Heading)
    ensures AllInitiated(secs[cs := secs[cs].(heading := Explicit(node))])
  {
    assert Initiated(secs[cs]);
  }

  /** `add_heading_section` starts the new section with the heading itself. */
  lemma AddHeadingInitiated(s: State, node: Node, t: State)
    requires AllInitiated(s.secs) && Analyze(Some(node)) == Some(Heading)
    requires AddHeading(s, node) == Some(t)
    ensures AllInitiated(t.secs)
  {
    var n := |s.secs|;
    AppendInitiated(s.secs, HeadingSection(node));
    if t.secs != s.secs + [HeadingSection(node)] {
      var tops := s.ols[OutlineOf(s)].sections;
      var p := Climb(s.secs, s.section.value, Rank(node)).value;
      assert t.secs == WithSubsection(s.secs + [HeadingSection(node)], p, n);
      GrowInitiated(s.secs + [HeadingSection(node)], t.secs);
    }
  }

  lemma EnterInitiated(s: State, node: Node, t: State)
    requires AllInitiated(s.secs) && Enter(s, node) == Some(t)
    ensures AllInitiated(t.secs)
  {
    var topIs := Analyze(Top(s));
    var nodeIs := Analyze(Some(node));
    if topIs == Some(Heading) || topIs == Some(Hidden) || nodeIs == Some(Hidden) {
    } else if IsSectioning(nodeIs) {
      var s1 := if s.owner.Some? && nodeIs.value == SectioningContent then s.(secs := ImplyHeading(s.secs, s.section)) else s;
      ImplyInitiated(s.secs, s.section);
      AppendInitiated(s1.secs, Section([node], Unset, [], None));
    } else if nodeIs == Some(Heading) && Rank(node) != 0 {
      var cs := s.section.value;
      if s.secs[cs].heading.Unset? {
        SetInitiated(s.secs, cs, node);
      } else {
        AddHeadingInitiated(s, node, AddHeading(s, node).value);
      }
    }
  }

  lemma ReenterInitiated(s: State, t: State)
    requires AllInitiated(s.secs) && s.stack != [] && s.stack[|s.stack| - 1].OwnerFrame?
    requires Reenter(s) == Some(t)
    ensures AllInitiated(t.secs)
  {
    var p := s.stack[|s.stack| - 1].owner;
    var resumed := s.(owner := Some(p), stack := s.stack[..|s.stack| - 1]);
    var tops := s.ols[OutlineOf(resumed)].sections;
    var reentry := tops[|tops| - 1];
    var subs := s.ols[OutlineOf(s)].sections;
    MergeInitiated(s.secs, reentry, subs);
  }

  lemma MergeInitiated(secs: seq<Section>, p: nat, subs: seq<nat>)
    requires AllInitiated(secs) && p < |secs|
    requires forall i :: 0 <= i < |subs| ==> subs[i] < |secs| && subs[i] != p
    ensures AllInitiated(Merge(secs, p, subs))
  {
    var r := Merge(secs, p, subs);
    forall x | 0 <= x < |r| ensures Initiated(r[x]) {
      assert Initiated(secs[x]);
      assert r[x].heading == secs[x].heading && r[x].nodes == secs[x].nodes;
    }
  }

  lemma AssociateInitiated(s: State, node: Node, t: State)
    requires AllInitiated(s.secs) && Associate(s, node) == Some(t)
    ensures AllInitiated(t.secs)
  {
    GrowInitiated(s.secs, t.secs);
  }

  lemma CloseInitiated(s: State, category: Category, t: State)
    requires AllInitiated(s.secs) && Close(s, category) == Some(t)
    ensures AllInitiated(t.secs)
  {
    var s2 := s.(secs := ImplyHeading(s.secs, s.section));
    ImplyInitiated(s.secs, s.section);
    if s2.stack != [] && category == SectioningContent {
      ReenterInitiated(s2, t);
    }
  }

  lemma ExitInitiated(s: State, node: Node, t: State)
    requires AllInitiated(s.secs) && Exit(s, node) == Some(t)
    ensures AllInitiated(t.secs)
  {
    var top := Top(s);
    var s1 := if top.Some? && top.value.id == node.id then s.(stack := s.stack[..|s.stack| - 1]) else s;
    var topIs := Analyze(top);
    var nodeIs := Analyze(Some(node));
    if topIs == Some(Heading) {
    } else if topIs == Some(Hidden) || !IsSectioning(nodeIs) {
      AssociateInitiated(s1, node, t);
    } else {
      CloseInitiated(s1, nodeIs.value, t);
    }
  }

  /** The walk keeps every section's initiator. */
  lemma {:induction false} RunInitiated(s: State, n: Node)
    requires AllInitiated(s.secs) && Run(s, n).Some?
    ensures AllInitiated(Run(s, n).value.secs)
    decreases n, if n.Element? then |n.children| + 1 else 0
  {
    var s1 := Enter(s, n).value;
    EnterInitiated(s, n, s1);
    var s2 := if n.Element? then RunChildren(s1, n, |n.children|) else Some(s1);
    if n.Element? {
      RunChildrenInitiated(s1, n, |n.children|);
    }
    ExitInitiated(s2.value, n, Run(s, n).value);
  }

  lemma {:induction false} RunChildrenInitiated(s: State, n: Node, k: nat)
    requires n.Element? && k <= |n.children|
    requires AllInitiated(s.secs) && RunChildren(s, n, k).Some?
    ensures AllInitiated(RunChildren(s, n, k).value.secs)
    decreases n, k
  {
    if k > 0 {
      var t := RunChildren(s, n, k - 1).value;
      RunChildrenInitiated(s, n, k - 1);
      RunInitiated(t, n.children[k - 1]);
    }
  }

  /** After the walk from a sectioning root, every section with an explicit
      heading shows the heading's own tag as its section name exactly when
      the heading initiates the section. */
  lemma WalkInitiators(root: Node) returns (t: State)
    requires UniqueIds(root) && IsSectioning(Analyze(Some(root)))
    ensures Run(Init, root) == Some(t) && AllInitiated(t.secs)
    ensures forall x :: 0 <= x < |t.secs| && t.secs[x].heading.Explicit? ==>
      (TagName(t.secs[x].heading.element) == TagName(t.secs[x].nodes[0]) <==> t.secs[x].nodes[0] == t.secs[x].heading.element)
  {
    t := WalkComplete(root);
    RunInitiated(Init, root);
    forall x | 0 <= x < |t.secs| && t.secs[x].heading.Explicit?
      ensures TagName(t.secs[x].heading.element) == TagName(t.secs[x].nodes[0]) <==> t.secs[x].nodes[0] == t.secs[x].heading.element
    {
      InitiatorName(t.secs[x]);
    }
  }
}
