/**
 * `Owner`: an element for which an outline is built, with the section it was
 * entered from (recorded for sectioning roots) and its outline. Owners live
 * in an arena and are addressed by index.
 */
module Owners {
  import opened Wrappers
  import opened Dom

  datatype Owner = Owner(element: Node, parentSection: Option<nat>, outline: Option<nat>)

  /** Every owner created so far; `all[i]` is the owner with identity `i`. The
      getters (`get_the_owner`, `get_parent_section`, `get_outline`) are reads
      of these fields. There is no setter for the element. */
  class OwnerArena {
    var all: seq<Owner>

    constructor ()
      ensures all == []
    {
      all := [];
    }

    /** `new Owner($element)`: the element is stored, the parent section and
        the outline are unset. */
    method NewOwner(element: Node) returns (id: nat)
      modifies this
      ensures id == old(|all|)
      ensures all == old(all) + [Owner(element, None, None)]
    {
      id := |all|;
      all := all + [Owner(element, None, None)];
    }

    /** `set_parent_section`: replaces the parent section; the element and the
        outline stay. */
    method SetParentSection(id: nat, section: Option<nat>)
      requires id < |all|
      modifies this
      ensures all == old(all)[id := old(all[id]).(parentSection := section)]
      ensures all[id].element == old(all[id].element) && all[id].parentSection == section
    {
      all := all[id := all[id].(parentSection := section)];
    }

    /** `set_outline`: replaces the outline; the element and the parent
        section stay. */
    method SetOutline(id: nat, outline: nat)
      requires id < |all|
      modifies this
      ensures all == old(all)[id := old(all[id]).(outline := Some(outline))]
      ensures all[id].element == old(all[id].element) && all[id].outline == Some(outline)
    {
      all := all[id := all[id].(outline := Some(outline))];
    }
  }
}
