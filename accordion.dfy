/** The expandable service list (AccordionSection): at most one item is open
    at a time, and clicking an item's header opens or closes it. */
module Accordion {
  import opened Wrappers

  datatype AccordionItem = AccordionItem(title: string, description: string, details: seq<string>)

  /** `expandedIndex === index ? null : index`: the expanded index after a
      click on item `index`. */
  function AfterClick(expanded: Option<nat>, index: nat): (r: Option<nat>)
    ensures r == Some(index) <==> expanded != Some(index)
    ensures r.None? <==> expanded == Some(index)
  {
    if expanded == Some(index) then None else Some(index)
  }

  /** Two clicks on the same item restore the state exactly when that item was
      open or nothing was; when another item was open, they leave everything
      closed. */
  lemma ClickTwice(expanded: Option<nat>, index: nat)
    ensures AfterClick(AfterClick(expanded, index), index) == expanded <==> expanded.None? || expanded == Some(index)
    ensures expanded.Some? && expanded != Some(index) ==> AfterClick(AfterClick(expanded, index), index).None?
  {
  }

  /** How one item is drawn: whether its details are shown and how far its
      arrow is turned, in degrees. */
  datatype ItemView = ItemView(detailsShown: bool, arrowDegrees: nat)

  function ViewOf(expanded: Option<nat>, index: nat): (v: ItemView)
    ensures v.detailsShown <==> expanded == Some(index)
    ensures v.arrowDegrees == if v.detailsShown then 180 else 0
  {
    var open := expanded == Some(index);
    ItemView(open, if open then 180 else 0)
  }

  /** At most one item shows its details and a turned arrow. */
  lemma AtMostOneOpen(expanded: Option<nat>, i: nat, j: nat)
    requires ViewOf(expanded, i).detailsShown && ViewOf(expanded, j).detailsShown
    ensures i == j
  {
  }

  class Accordion {
    const items: seq<AccordionItem>
    /** `expandedIndex`; none open is `null`. */
    var expanded: Option<nat>

    /** The first item starts open. */
    constructor (items: seq<AccordionItem>)
      ensures this.items == items && expanded == Some(0)
    {
      this.items := items;
      expanded := Some(0);
    }

    function Shown(index: nat): ItemView
      reads this
    {
      ViewOf(expanded, index)
    }

    /** A click on the header of item `index`: the open item closes; any other
        opens, closing the one that was open. */
    method Click(index: nat)
      requires index < |items|
      modifies this
      ensures expanded == AfterClick(old(expanded), index)
      ensures Shown(index).detailsShown <==> old(expanded) != Some(index)
      ensures forall other :: other != index ==> !Shown(other).detailsShown
    {
      expanded := AfterClick(expanded, index);
    }
  }
}
