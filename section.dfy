/**
 * `Section`: a section of an outline. Sections refer to each other (parent
 * and subsections), so they live in an arena and are addressed by index; the
 * index of a section is its identity.
 */
module Sections {
  import opened Wrappers
  import opened Dom

  /** The heading of a section: not yet known (PHP null), implied (PHP false)
      or a heading or hgroup element. */
  datatype HeadingState = Unset | Implied | Explicit(element: Node)

  /** The fields of a section: the nodes associated with it (the initiating
      node first), its heading, its subsections and its parent section. */
  datatype Section = Section(nodes: seq<Node>, heading: HeadingState, subs: seq<nat>, container: Option<nat>)

  /** The sections after `append_subsection` on section `id` with `sub`:
      `sub` is added after the existing subsections and `id` becomes its
      parent; nothing else changes. */
  function WithSubsection(secs: seq<Section>, id: nat, sub: nat): (r: seq<Section>)
    requires id < |secs| && sub < |secs|
    ensures |r| == |secs|
    ensures r[id].subs == secs[id].subs + [sub] && r[sub].container == Some(id)
    ensures r[id].nodes == secs[id].nodes && r[id].heading == secs[id].heading
    ensures sub != id ==> r[id].container == secs[id].container && r[sub] == secs[sub].(container := Some(id))
    ensures forall k :: 0 <= k < |secs| && k != id && k != sub ==> r[k] == secs[k]
  {
    var appended := secs[id := secs[id].(subs := secs[id].subs + [sub])];
    appended[sub := appended[sub].(container := Some(id))]
  }

  /** The sections after `append_subsection` on section `p` with each of
      `subs` in order: `p` gains them as its last subsections and becomes
      their parent; every other section, and every heading and node list,
      stays as it was. */
  function Merge(secs: seq<Section>, p: nat, subs: seq<nat>): (r: seq<Section>)
    requires p < |secs|
    requires forall i :: 0 <= i < |subs| ==> subs[i] < |secs| && subs[i] != p
    ensures |r| == |secs|
    ensures r[p] == secs[p].(subs := secs[p].subs + subs)
    ensures forall i :: 0 <= i < |subs| ==> r[subs[i]] == secs[subs[i]].(container := Some(p))
    ensures forall s :: 0 <= s < |secs| && s != p && s !in subs ==> r[s] == secs[s]
    ensures forall s :: 0 <= s < |secs| ==> r[s].heading == secs[s].heading && r[s].nodes == secs[s].nodes
    decreases |subs|
  {
    if subs == [] then secs
    else
      var init := subs[..|subs| - 1];
      assert forall i :: 0 <= i < |init| ==> init[i] == subs[i];
      WithSubsection(Merge(secs, p, init), p, subs[|subs| - 1])
  }

  /** The sections after `set_heading(false)` on section `cs` when its heading
      is still unset (the implied heading given when a section is left). */
  function ImplyHeading(secs: seq<Section>, cs: Option<nat>): (r: seq<Section>)
    ensures |r| == |secs|
    ensures forall s :: 0 <= s < |secs| ==>
      r[s] == if cs == Some(s) && secs[s].heading.Unset? then secs[s].(heading := Implied) else secs[s]
  {
    if cs.Some? && cs.value < |secs| && secs[cs.value].heading.Unset? then
      secs[cs.value := secs[cs.value].(heading := Implied)]
    else secs
  }

  /** The links between sections are consistent: every section has its
      initiating node, a parent comes before its children, and a section's
      subsections name it as their parent. */
  ghost predicate WellFormed(secs: seq<Section>) {
    forall s :: 0 <= s < |secs| ==> SectionWellFormed(secs, s)
  }

  ghost predicate SectionWellFormed(secs: seq<Section>, s: nat)
    requires s < |secs|
  {
    && |secs[s].nodes| >= 1
    && (secs[s].container.Some? ==> secs[s].container.value < s)
    && forall i :: 0 <= i < |secs[s].subs| ==>
         s < secs[s].subs[i] < |secs| && secs[secs[s].subs[i]].container == Some(s)
  }

  /** A new section (one node, no subsections, no parent) keeps the links consistent. */
  lemma WellFormedAppend(secs: seq<Section>, sec: Section)
    requires WellFormed(secs) && |sec.nodes| >= 1 && sec.subs == [] && sec.container.None?
    ensures WellFormed(secs + [sec])
  {
    var r := secs + [sec];
    forall s | 0 <= s < |r| ensures SectionWellFormed(r, s) {
      if s < |secs| {
        assert SectionWellFormed(secs, s);
      }
    }
  }

  /** Changing a section's nodes or heading keeps the links consistent. */
  lemma WellFormedUpdate(secs: seq<Section>, s: nat, sec: Section)
    requires WellFormed(secs) && s < |secs|
    requires |sec.nodes| >= 1 && sec.subs == secs[s].subs && sec.container == secs[s].container
    ensures WellFormed(secs[s := sec])
  {
    var r := secs[s := sec];
    forall t | 0 <= t < |r| ensures SectionWellFormed(r, t) {
      assert SectionWellFormed(secs, t);
    }
  }

  /** `append_subsection` of a later section that has no parent yet keeps the
      links consistent: the new child names its parent, and no other
      section loses a child. */
  lemma WellFormedWithSubsection(secs: seq<Section>, p: nat, x: nat)
    requires WellFormed(secs) && p < x < |secs| && secs[x].container.None?
    ensures WellFormed(WithSubsection(secs, p, x))
  {
    var r := WithSubsection(secs, p, x);
    forall t | 0 <= t < |r| ensures SectionWellFormed(r, t) {
      assert SectionWellFormed(secs, t);
      forall i | 0 <= i < |secs[t].subs|
        ensures secs[t].subs[i] != x
      {
        assert secs[secs[t].subs[i]].container == Some(t);
      }
    }
  }

  /** Merging the top-level sections of a closed outline, which have no
      parent yet and come after `p`, keeps the links consistent. */
  lemma {:induction false} WellFormedMerge(secs: seq<Section>, p: nat, subs: seq<nat>)
    requires WellFormed(secs) && p < |secs|
    requires forall i :: 0 <= i < |subs| ==> p < subs[i] < |secs| && secs[subs[i]].container.None?
    requires forall i, j :: 0 <= i < j < |subs| ==> subs[i] < subs[j]
    ensures WellFormed(Merge(secs, p, subs))
    decreases |subs|
  {
    if subs != [] {
      var init := subs[..|subs| - 1];
      var x := subs[|subs| - 1];
      WellFormedMerge(secs, p, init);
      assert x !in init by {
        forall i | 0 <= i < |init| ensures init[i] != x {
          assert init[i] == subs[i];
        }
      }
      WellFormedWithSubsection(Merge(secs, p, init), p, x);
    }
  }

  /** Every section created so far; `all[i]` is the section with identity `i`.
      The source's getters (`get_nodes`, `get_heading`, `get_subsections`,
      `get_container`) are reads of these fields. */
  class SectionArena {
    var all: seq<Section>

    constructor ()
      ensures all == []
    {
      all := [];
    }

    /** `new Section($node, $heading)`: the nodes are exactly `[node]`, the
        heading is the one given, no subsections and no parent. */
    method NewSection(node: Node, heading: HeadingState) returns (id: nat)
      modifies this
      ensures id == old(|all|)
      ensures all == old(all) + [Section([node], heading, [], None)]
    {
      id := |all|;
      all := all + [Section([node], heading, [], None)];
    }

    /** `associate_node`: one node is added at the end of the section's nodes;
        the first node, the heading, the subsections and the parent stay. */
    method AssociateNode(id: nat, node: Node)
      requires id < |all|
      modifies this
      ensures all == old(all)[id := old(all[id]).(nodes := old(all[id].nodes) + [node])]
      ensures |all[id].nodes| == old(|all[id].nodes|) + 1 && all[id].nodes[|all[id].nodes| - 1] == node
      ensures old(|all[id].nodes|) > 0 ==> all[id].nodes[0] == old(all[id].nodes[0])
    {
      all := all[id := all[id].(nodes := all[id].nodes + [node])];
    }

    /** `set_heading`: replaces the heading and nothing else. */
    method SetHeading(id: nat, heading: HeadingState)
      requires id < |all|
      modifies this
      ensures all == old(all)[id := old(all[id]).(heading := heading)]
      ensures all[id].heading == heading
    {
      all := all[id := all[id].(heading := heading)];
    }

    /** `set_container`: replaces the parent and nothing else. */
    method SetContainer(id: nat, parent: nat)
      requires id < |all|
      modifies this
      ensures all == old(all)[id := old(all[id]).(container := Some(parent))]
      ensures all[id].container == Some(parent)
    {
      all := all[id := all[id].(container := Some(parent))];
    }

    /** `append_subsection`: appends `sub` to the subsections, then makes this
        section the parent of `sub`. */
    method AppendSubsection(id: nat, sub: nat)
      requires id < |all| && sub < |all|
      modifies this
      ensures all == WithSubsection(old(all), id, sub)
    {
      all := all[id := all[id].(subs := all[id].subs + [sub])];
      SetContainer(sub, id);
    }

    /** `append_subsection` with each of `subs`, in order (the loop that
        closes an outline of sectioning content). */
    method AppendSubsections(id: nat, subs: seq<nat>)
      requires id < |all|
      requires forall i :: 0 <= i < |subs| ==> subs[i] < |all| && subs[i] != id
      modifies this
      ensures all == Merge(old(all), id, subs)
    {
      ghost var all0 := all;
      for i := 0 to |subs|
        invariant all == Merge(all0, id, subs[..i])
      {
        assert subs[..i + 1][..i] == subs[..i];
        AppendSubsection(id, subs[i]);
      }
      assert subs[..|subs|] == subs;
    }
  }
}
