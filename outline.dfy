/**
 * `Outline`: the outline of one owner element, an ordered sequence of
 * top-level sections. Outlines live in an arena and are addressed by index.
 */
module Outlines {
  import opened Dom

  datatype Outline = Outline(owner: Node, sections: seq<nat>)

  /** Every outline created so far; `get_sections` is a read of `sections`. */
  class OutlineArena {
    var all: seq<Outline>

    constructor ()
      ensures all == []
    {
      all := [];
    }

    /** `new Outline($element, $section)`: the outline's only top-level
        section is the given one. */
    method NewOutline(owner: Node, section: nat) returns (id: nat)
      modifies this
      ensures id == old(|all|)
      ensures all == old(all) + [Outline(owner, [section])]
    {
      id := |all|;
      all := all + [Outline(owner, [section])];
    }

    /** `append_section`: adds a top-level section after the existing ones. */
    method AppendSection(id: nat, section: nat)
      requires id < |all|
      modifies this
      ensures all == old(all)[id := old(all[id]).(sections := old(all[id].sections) + [section])]
    {
      all := all[id := all[id].(sections := all[id].sections + [section])];
    }
  }
}
