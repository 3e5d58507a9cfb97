/**
 * The document outline algorithm as functions on a snapshot of its state.
 * Each function is one private method of `Document_Outline_Algorithm`;
 * `None` marks a call the PHP code cannot complete (a method called on
 * null, a heading without a rank compared, a section id that does not
 * exist), and two states no walk reaches in which PHP would go on: `Resume`
 * with a node entry on top of the stack, and `Reenter` onto one of the
 * sections it merges. The class in `OutlineAlgorithm` is proved to compute
 * exactly these functions, and `OutlineProof` proves that a walk over a valid
 * tree never reaches `None`.
 */
module OutlineState {
  import opened Wrappers
  import opened Dom
  import opened NodeAnalyzer
  import opened Sections
  import opened Owners
  import opened Outlines
  import opened HeadingRank

  /** An entry of the stack: a hidden or heading element set aside, or the
      owner of an outline set aside while a nested outline is built. */
  datatype Frame = NodeFrame(node: Node) | OwnerFrame(owner: nat)

  /** The arenas and the fields of the algorithm: `$current_outline_owner`,
      `$current_section` and `$stack`. */
  datatype State = State(
    secs: seq<Section>,
    own: seq<Owner>,
    ols: seq<Outline>,
    owner: Option<nat>,
    section: Option<nat>,
    stack: seq<Frame>)

  /** The state before the walk starts. */
  const Init := State([], [], [], None, None, [])

  predicate IsSectioning(c: Option<Category>) {
    c == Some(SectioningRoot) || c == Some(SectioningContent)
  }

  /** The top of the stack can be read: an owner entry names an owner. */
  predicate TopOK(s: State) {
    s.stack == [] || s.stack[|s.stack| - 1].NodeFrame? || s.stack[|s.stack| - 1].owner < |s.own|
  }

  /** `get_stack_top`: the node on top of the stack; an owner entry stands
      for its element. */
  function Top(s: State): Option<Node>
    requires TopOK(s)
  {
    if s.stack == [] then None
    else match s.stack[|s.stack| - 1]
      case NodeFrame(n) => Some(n)
      case OwnerFrame(o) => Some(s.own[o].element)
  }

  /** There is a current section. */
  predicate CurrentOK(s: State) {
    s.section.Some? && s.section.value < |s.secs|
  }

  function Push(s: State, f: Frame): State {
    s.(stack := s.stack + [f])
  }

  /** `associate_node` on the current section. */
  function Associate(s: State, node: Node): Option<State> {
    if !CurrentOK(s) then None
    else
      var cs := s.section.value;
      Some(s.(secs := s.secs[cs := s.secs[cs].(nodes := s.secs[cs].nodes + [node])]))
  }

  /** `open_sectioning_outline`: sectioning content first gives the current
      section an implied heading when it has none; a sectioning root
      remembers the current section as its parent section. */
  function Open(s: State, element: Node, category: Category): Option<State> {
    if s.owner.Some? && category == SectioningContent && !CurrentOK(s) then None
    else
      var s1 := if s.owner.Some? && category == SectioningContent then s.(secs := ImplyHeading(s.secs, s.section)) else s;
      Some(StartOutline(s1, element, if category == SectioningRoot then s.section else None))
  }

  /** A new owner for `element` with a new outline whose only section is a
      new one without a heading; the owner and the section become current,
      and the owner that was current is set aside on the stack. */
  function StartOutline(s: State, element: Node, parent: Option<nat>): State {
    State(
      s.secs + [Section([element], Unset, [], None)],
      s.own + [Owner(element, parent, Some(|s.ols|))],
      s.ols + [Outline(element, [|s.secs|])],
      Some(|s.own|),
      Some(|s.secs|),
      if s.owner.Some? then s.stack + [OwnerFrame(s.owner.value)] else s.stack)
  }

  /** The ancestor climb of `add_heading_section` from candidate `c`: the
      first section on the way up whose heading outranks `rank`. The climb
      fails on a candidate without an explicit heading (its rank cannot be
      read) and past the outermost section (the candidate becomes null). A
      parent always comes before its subsections, which bounds the climb. */
  function Climb(secs: seq<Section>, c: nat, rank: int): (r: Option<nat>)
    ensures r.Some? ==> r.value <= c && r.value < |secs| && OnParentChain(secs, r.value, c)
    ensures r.Some? ==> secs[r.value].heading.Explicit? && rank < Rank(secs[r.value].heading.element)
    decreases c
  {
    if c >= |secs| || !secs[c].heading.Explicit? then None
    else if rank < Rank(secs[c].heading.element) then Some(c)
    else match secs[c].container
      case None => None
      case Some(p) => if p < c then Climb(secs, p, rank) else None
  }

  /** Section `a` is `c` or is reached from `c` by following parents, each
      of which comes before its child. */
  predicate OnParentChain(secs: seq<Section>, a: nat, c: nat)
    decreases c
  {
    a == c
    || (c < |secs| && secs[c].container.Some? && secs[c].container.value < c
        && OnParentChain(secs, a, secs[c].container.value))
  }

  /** The outline of the current owner, when it exists and has a section. */
  predicate OutlineOK(s: State) {
    && s.owner.Some? && s.owner.value < |s.own|
    && s.own[s.owner.value].outline.Some? && s.own[s.owner.value].outline.value < |s.ols|
    && s.ols[s.own[s.owner.value].outline.value].sections != []
  }

  function OutlineOf(s: State): nat
    requires OutlineOK(s)
  {
    s.own[s.owner.value].outline.value
  }

  /** `add_heading_section`: the new section goes to the top level when the
      last top-level section's heading is implied or does not outrank
      `heading`, and otherwise becomes the last subsection of the section
      the ancestor climb finds. */
  function AddHeading(s: State, heading: Node): Option<State> {
    if !OutlineOK(s) || !CurrentOK(s) then None
    else
      var tops := s.ols[OutlineOf(s)].sections;
      var last := tops[|tops| - 1];
      if last >= |s.secs| || s.secs[last].heading.Unset? then None
      else if s.secs[last].heading.Implied? || Rank(heading) >= Rank(s.secs[last].heading.element) then
        Some(AddTopLevel(s, heading, OutlineOf(s)))
      else match Climb(s.secs, s.section.value, Rank(heading))
        case None => None
        case Some(p) => Some(AddSubsection(s, heading, p))
  }

  /** A new section with `heading` as its heading, which becomes current. */
  function HeadingSection(heading: Node): Section {
    Section([heading], Explicit(heading), [], None)
  }

  /** A new section for `heading` appended to the top level of outline `ol`. */
  function AddTopLevel(s: State, heading: Node, ol: nat): State
    requires ol < |s.ols|
  {
    s.(secs := s.secs + [HeadingSection(heading)],
       ols := s.ols[ol := s.ols[ol].(sections := s.ols[ol].sections + [|s.secs|])],
       section := Some(|s.secs|))
  }

  /** A new section for `heading` appended to the subsections of `p`. */
  function AddSubsection(s: State, heading: Node, p: nat): State
    requires p < |s.secs|
  {
    s.(secs := WithSubsection(s.secs + [HeadingSection(heading)], p, |s.secs|), section := Some(|s.secs|))
  }

  /** The heading branch of `enter_node`: an hgroup without headings is left
      alone; a heading becomes the heading of a current section that has
      none, or else starts a section; either way it is set aside. */
  function EnterHeading(s: State, node: Node): Option<State> {
    if Rank(node) == 0 then Some(s)
    else if !CurrentOK(s) then None
    else if s.secs[s.section.value].heading.Unset? then
      var cs := s.section.value;
      Some(Push(s.(secs := s.secs[cs := s.secs[cs].(heading := Explicit(node))]), NodeFrame(node)))
    else match AddHeading(s, node)
      case None => None
      case Some(t) => Some(Push(t, NodeFrame(node)))
  }

  /** `enter_node`. */
  function Enter(s: State, node: Node): Option<State> {
    if !TopOK(s) then None
    else
      var topIs := Analyze(Top(s));
      if topIs == Some(Heading) || topIs == Some(Hidden) then Some(s)
      else
        var nodeIs := Analyze(Some(node));
        if nodeIs == Some(Hidden) then Some(Push(s, NodeFrame(node)))
        else if IsSectioning(nodeIs) then Open(s, node, nodeIs.value)
        else if nodeIs == Some(Heading) then EnterHeading(s, node)
        else Some(s)
  }

  /** Every section of `subs` exists and differs from `p`. */
  predicate Mergeable(subs: seq<nat>, p: nat, count: nat) {
    forall i :: 0 <= i < |subs| ==> subs[i] < count && subs[i] != p
  }

  /** `close_sectioning_outline`: the current section gets an implied
      heading when it has none, then the owner set aside is resumed. */
  function Close(s: State, category: Category): Option<State> {
    if !CurrentOK(s) then None
    else Resume(s.(secs := ImplyHeading(s.secs, s.section)), category)
  }

  /** The second half of `close_sectioning_outline`: with an empty stack
      nothing happens; otherwise the owner on top of the stack becomes
      current again, with the section a sectioning root was entered from, or
      (`Reenter`) after sectioning content. */
  function Resume(s: State, category: Category): Option<State> {
    if s.stack == [] then Some(s)
    else if s.stack[|s.stack| - 1].NodeFrame? || s.owner.None? || s.owner.value >= |s.own| then None
    else if category == SectioningRoot then
      Some(s.(owner := Some(s.stack[|s.stack| - 1].owner), section := s.own[s.owner.value].parentSection,
              stack := s.stack[..|s.stack| - 1]))
    else Reenter(s)
  }

  /** The sectioning-content end of `close_sectioning_outline`: the owner on
      top of the stack becomes current again, its last top-level section
      becomes the current section and receives every top-level section of
      the closed outline as a subsection, in order. */
  function Reenter(s: State): Option<State>
    requires s.stack != [] && s.stack[|s.stack| - 1].OwnerFrame?
  {
    var p := s.stack[|s.stack| - 1].owner;
    var resumed := s.(owner := Some(p), stack := s.stack[..|s.stack| - 1]);
    if !OutlineOK(s) || !OutlineOK(resumed) then None
    else
      var tops := s.ols[OutlineOf(resumed)].sections;
      var reentry := tops[|tops| - 1];
      var subs := s.ols[OutlineOf(s)].sections;
      if reentry >= |s.secs| || !Mergeable(subs, reentry, |s.secs|) then None
      else Some(resumed.(secs := Merge(s.secs, reentry, subs), section := Some(reentry)))
  }

  /** `exit_node`. */
  function Exit(s: State, node: Node): Option<State> {
    if !TopOK(s) then None
    else
      var top := Top(s);
      var s1 := if top.Some? && top.value.id == node.id then s.(stack := s.stack[..|s.stack| - 1]) else s;
      var topIs := Analyze(top);
      if topIs == Some(Heading) then Some(s1)
      else if topIs == Some(Hidden) then Associate(s1, node)
      else
        var nodeIs := Analyze(Some(node));
        if IsSectioning(nodeIs) then Close(s1, nodeIs.value) else Associate(s1, node)
  }

  /** `walk`: enter the node, walk its children in order, exit the node. */
  function Run(s: State, n: Node): Option<State>
    decreases n, if n.Element? then |n.children| + 1 else 0
  {
    match Enter(s, n)
    case None => None
    case Some(s1) =>
      var s2 := if n.Element? then RunChildren(s1, n, |n.children|) else Some(s1);
      if s2.None? then None else Exit(s2.value, n)
  }

  /** The walk over the first `k` children of `n`. */
  function RunChildren(s: State, n: Node, k: nat): Option<State>
    requires n.Element? && k <= |n.children|
    decreases n, k
  {
    if k == 0 then Some(s)
    else match RunChildren(s, n, k - 1)
      case None => None
      case Some(t) => Run(t, n.children[k - 1])
  }

  /** A walk over some children that completes also completes over fewer. */
  lemma {:induction false} RunChildrenPrefix(s: State, n: Node, i: nat, k: nat)
    requires n.Element? && i <= k <= |n.children| && RunChildren(s, n, k).Some?
    ensures RunChildren(s, n, i).Some?
    decreases k
  {
    if i < k {
      RunChildrenPrefix(s, n, i, k - 1);
    }
  }

  /** The sections added from `s` to `t` and from `t` to `u`, each made
      current, share their parent: both are the last two top-level sections
      of the current outline, or the last two subsections of that parent. */
  predicate Siblings(s: State, t: State, u: State) {
    && |t.secs| == |s.secs| + 1 && t.section == Some(|s.secs|) && u.section == Some(|t.secs|)
    && |u.secs| == |t.secs| + 1 && u.secs[|t.secs|].container == u.secs[|s.secs|].container
    && OutlineOK(s) && OutlineOK(u) && OutlineOf(u) == OutlineOf(s)
    && (u.secs[|s.secs|].container.None? ==>
         u.ols[OutlineOf(s)].sections == s.ols[OutlineOf(s)].sections + [|s.secs|, |t.secs|])
    && (u.secs[|s.secs|].container.Some? ==>
         var p := u.secs[|s.secs|].container.value;
         p < |s.secs| && u.secs[p].subs == s.secs[p].subs + [|s.secs|, |t.secs|])
  }
}
