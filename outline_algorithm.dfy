/**
 * `Document_Outline_Algorithm`: a depth-first walk over the DOM tree that
 * builds, for every sectioning element, an outline of sections, and nests
 * the outlines of sectioning content into the enclosing outline.
 *
 * Sections, owners and outlines live in arenas and refer to each other by
 * index. Every method is proved to compute the function of the same name in
 * `OutlineState` on a snapshot of the fields (`Snap`).
 */
module OutlineAlgorithm {
  import opened Wrappers
  import opened Dom
  import opened NodeAnalyzer
  import opened Sections
  import opened Owners
  import opened Outlines
  import opened HeadingRank
  import opened OutlineState
  import opened OutlineInvariant
  import opened OutlineProof

  class DocumentOutlineAlgorithm {
    const sections: SectionArena
    const owners: OwnerArena
    const outlines: OutlineArena
    /** `$current_outline_owner`, none before the root is entered. */
    var currentOwner: Option<nat>
    /** `$current_section`, none before the root is entered. */
    var currentSection: Option<nat>
    var stack: seq<Frame>

    /** The fields and arenas as one value. */
    ghost function Snap(): State
      reads this, sections, owners, outlines
    {
      State(sections.all, owners.all, outlines.all, currentOwner, currentSection, stack)
    }

    /** `__construct`: walks the tree from `root`, a sectioning element of a
        tree whose nodes have distinct identities. The walk completes; the
        root owns the outline that is current at the end, and every section
        has a heading. */
    constructor (root: Node)
      requires UniqueIds(root) && IsSectioning(Analyze(Some(root)))
      ensures Some(Snap()) == Run(Init, root)
      ensures currentOwner == Some(0) && |owners.all| >= 1 && owners.all[0].element == root && stack == []
      ensures WellFormed(sections.all) && OwnersOK(Snap()) && OutlinesOK(Snap())
      ensures forall x :: 0 <= x < |sections.all| ==> !sections.all[x].heading.Unset?
    {
      ghost var t := WalkComplete(root);
      sections := new SectionArena();
      owners := new OwnerArena();
      outlines := new OutlineArena();
      currentOwner := None;
      currentSection := None;
      stack := [];
      new;
      Walk(root);
    }

    /** `the_outline`: the outline of the current owner, which names the
        owner's element. */
    function TheOutline(): (r: Outline)
      reads this, sections, owners, outlines
      requires currentOwner.Some? && currentOwner.value < |owners.all| && OwnersOK(Snap())
      ensures r.owner == owners.all[currentOwner.value].element
    {
      outlines.all[owners.all[currentOwner.value].outline.value]
    }

    /** `get_stack_top`. */
    function StackTop(): (top: Option<Node>)
      reads this, sections, owners, outlines
      requires TopOK(Snap())
      ensures top == Top(Snap())
    {
      if stack == [] then None
      else match stack[|stack| - 1]
        case NodeFrame(n) => Some(n)
        case OwnerFrame(o) => Some(owners.all[o].element)
    }

    /** `walk`: enters `node`, walks its children in document order and
        exits `node`. */
    method Walk(node: Node)
      requires Run(Snap(), node).Some?
      modifies this, sections, owners, outlines
      ensures Some(Snap()) == Run(old(Snap()), node)
      decreases node
    {
      EnterNode(node);
      if node.Element? {
        ghost var s1 := Snap();
        var i := 0;
        while i < |node.children|
          invariant 0 <= i <= |node.children|
          invariant Some(Snap()) == RunChildren(s1, node, i)
          invariant RunChildren(s1, node, |node.children|).Some?
        {
          RunChildrenPrefix(s1, node, i + 1, |node.children|);
          Walk(node.children[i]);
          i := i + 1;
        }
      }
      ExitNode(node);
    }

    /** `enter_node`. */
    method EnterNode(node: Node)
      requires Enter(Snap(), node).Some?
      modifies this, sections, owners, outlines
      ensures Some(Snap()) == Enter(old(Snap()), node)
    {
      var top := StackTop();
      var topIs := Analyze(top);
      if topIs == Some(Heading) || topIs == Some(Hidden) {
        return;
      }
      var nodeIs := Analyze(Some(node));
      if nodeIs == Some(Hidden) {
        stack := stack + [NodeFrame(node)];
        return;
      }
      if IsSectioning(nodeIs) {
        OpenSectioningOutline(node, nodeIs.value);
        return;
      }
      if nodeIs == Some(Heading) {
        var rank := GetRank(node);
        if rank == 0 {
          return;
        }
        var cs := currentSection.value;
        if sections.all[cs].heading.Unset? {
          sections.SetHeading(cs, Explicit(node));
          stack := stack + [NodeFrame(node)];
          return;
        }
        AddHeadingSection(node);
        stack := stack + [NodeFrame(node)];
      }
    }

    /** `exit_node`. */
    method ExitNode(node: Node)
      requires Exit(Snap(), node).Some?
      modifies this, sections
      ensures Some(Snap()) == Exit(old(Snap()), node)
    {
      var top := StackTop();
      if top.Some? && top.value.id == node.id {
        stack := stack[..|stack| - 1];
      }
      var topIs := Analyze(top);
      if topIs == Some(Heading) {
        return;
      }
      if topIs == Some(Hidden) {
        sections.AssociateNode(currentSection.value, node);
        return;
      }
      var nodeIs := Analyze(Some(node));
      if IsSectioning(nodeIs) {
        CloseSectioningOutline(nodeIs.value);
        return;
      }
      sections.AssociateNode(currentSection.value, node);
    }

    /** `open_sectioning_outline`. */
    method OpenSectioningOutline(element: Node, category: Category)
      requires Open(Snap(), element, category).Some?
      modifies this, sections, owners, outlines
      ensures Some(Snap()) == Open(old(Snap()), element, category)
    {
      if currentOwner.Some? {
        stack := stack + [OwnerFrame(currentOwner.value)];
        if category == SectioningContent {
          ImplyCurrentHeading();
        }
      }
      var o := owners.NewOwner(element);
      if category == SectioningRoot {
        owners.SetParentSection(o, currentSection);
      }
      var s := sections.NewSection(element, Unset);
      var ol := outlines.NewOutline(element, s);
      owners.SetOutline(o, ol);
      assert owners.all == old(owners.all) + [Owner(element, if category == SectioningRoot then currentSection else None, Some(ol))];
      currentOwner := Some(o);
      currentSection := Some(s);
    }

    /** `close_sectioning_outline`. */
    method CloseSectioningOutline(category: Category)
      requires Close(Snap(), category).Some?
      modifies this, sections
      ensures Some(Snap()) == Close(old(Snap()), category)
    {
      ImplyCurrentHeading();
      if stack == [] {
        return;
      }
      if category == SectioningRoot {
        currentSection := owners.all[currentOwner.value].parentSection;
        currentOwner := Some(stack[|stack| - 1].owner);
        stack := stack[..|stack| - 1];
        return;
      }
      ReenterOwner();
    }

    /** The sectioning-content end of `close_sectioning_outline`. */
    method ReenterOwner()
      requires stack != [] && stack[|stack| - 1].OwnerFrame? && Reenter(Snap()).Some?
      modifies this, sections
      ensures Some(Snap()) == Reenter(old(Snap()))
    {
      var exited := currentOwner.value;
      var p := stack[|stack| - 1].owner;
      currentOwner := Some(p);
      stack := stack[..|stack| - 1];
      var tops := outlines.all[owners.all[p].outline.value].sections;
      var reentry := tops[|tops| - 1];
      currentSection := Some(reentry);
      var subs := outlines.all[owners.all[exited].outline.value].sections;
      sections.AppendSubsections(reentry, subs);
    }

    /** Gives the current section an implied heading when it has none yet
        (`set_heading(false)` on a null heading). */
    method ImplyCurrentHeading()
      requires CurrentOK(Snap())
      modifies sections
      ensures sections.all == ImplyHeading(old(sections.all), currentSection)
    {
      var cs := currentSection.value;
      if sections.all[cs].heading.Unset? {
        sections.SetHeading(cs, Implied);
      }
    }

    /** `add_heading_section`. */
    method AddHeadingSection(heading: Node)
      requires AddHeading(Snap(), heading).Some?
      modifies this, sections, outlines
      ensures Some(Snap()) == AddHeading(old(Snap()), heading)
    {
      var rank := GetRank(heading);
      var ol := owners.all[currentOwner.value].outline.value;
      var tops := outlines.all[ol].sections;
      var lastSection := tops[|tops| - 1];
      var lastH := sections.all[lastSection].heading;
      var topLevel := lastH.Implied?;
      if !topLevel {
        var lastRank := GetRank(lastH.element);
        topLevel := rank >= lastRank;
      }
      if topLevel {
        var id := sections.NewSection(heading, Explicit(heading));
        outlines.AppendSection(ol, id);
        currentSection := Some(id);
      } else {
        ghost var s0 := Snap();
        var abort := false;
        var candidate := currentSection;
        while !abort
          invariant !abort ==> candidate.Some? && Climb(s0.secs, candidate.value, rank) == Climb(s0.secs, s0.section.value, rank)
          invariant !abort ==> Snap() == s0
          invariant abort ==> Some(Snap()) == AddHeading(s0, heading)
          decreases if abort || candidate.None? then 0 else candidate.value + 1
        {
          var cand := candidate.value;
          var candRank := GetRank(sections.all[cand].heading.element);
          if rank < candRank {
            var id := sections.NewSection(heading, Explicit(heading));
            sections.AppendSubsection(cand, id);
            currentSection := Some(id);
            abort := true;
          }
          candidate := sections.all[cand].container;
        }
      }
    }
  }
}
