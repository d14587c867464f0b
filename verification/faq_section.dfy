/**
 * The FAQ accordion (components/landing/FaqSection.tsx): `activeIndex` names
 * the open answer, if any. The click handler does not close the open item:
 * clicking it opens the first item instead.
 */
module FaqSection {
  import opened Wrappers

  /** The number of entries in `faqs`. */
  const FaqCount: nat := 5

  /** The click handler on item `index`: `activeIndex === index ? 0 : index`. */
  function Toggle(activeIndex: Option<nat>, index: nat): (r: Option<nat>)
    ensures r.Some?
    ensures r == Some(index) <==> activeIndex != Some(index) || index == 0
    ensures r == Some(0) <==> activeIndex == Some(index) || index == 0
  {
    if activeIndex == Some(index) then Some(0) else Some(index)
  }

  /** Item `index` shows its answer and the minus icon exactly when it is
      the active one. */
  predicate Visible(activeIndex: Option<nat>, index: nat) {
    activeIndex == Some(index)
  }

  datatype Icon = MinusCircle | PlusCircle

  function IconFor(activeIndex: Option<nat>, index: nat): (icon: Icon)
    ensures icon == MinusCircle <==> Visible(activeIndex, index)
  {
    if activeIndex == Some(index) then MinusCircle else PlusCircle
  }

  /** At most one answer is shown, and none before any click. */
  lemma AtMostOneVisible(activeIndex: Option<nat>, i: nat, j: nat)
    ensures Visible(activeIndex, i) && Visible(activeIndex, j) ==> i == j
    ensures !Visible(None, i)
  {
  }

  /** Clicking the open item never closes the accordion; in particular the
      open first item stays open. */
  lemma ClickingOpenItem(index: nat)
    ensures Toggle(Some(index), index) == Some(0)
    ensures Visible(Toggle(Some(0), 0), 0)
  {
  }

  /** The state after a series of clicks, the last one last. */
  function AfterClicks(activeIndex: Option<nat>, clicks: seq<nat>): Option<nat>
  {
    if clicks == [] then activeIndex
    else Toggle(AfterClicks(activeIndex, clicks[..|clicks| - 1]), clicks[|clicks| - 1])
  }

  /** Once any item has been clicked, the accordion is never closed again,
      and the active index is always an item's. */
  lemma {:induction false} ClicksKeepOpen(activeIndex: Option<nat>, clicks: seq<nat>)
    requires activeIndex.Some? ==> activeIndex.value < FaqCount
    requires forall k | 0 <= k < |clicks| :: clicks[k] < FaqCount
    ensures clicks != [] ==> AfterClicks(activeIndex, clicks).Some?
    ensures AfterClicks(activeIndex, clicks).Some? ==> AfterClicks(activeIndex, clicks).value < FaqCount
  {
    if clicks != [] {
      ClicksKeepOpen(activeIndex, clicks[..|clicks| - 1]);
    }
  }

  /** The accordion's state. */
  class Accordion {
    var activeIndex: Option<nat>

    /** The active index, if any, names an item. */
    predicate Valid()
      reads this
    {
      activeIndex.Some? ==> activeIndex.value < FaqCount
    }

    /** `useState<number | null>(null)`. */
    constructor()
      ensures Valid() && activeIndex == None
    {
      activeIndex := None;
    }

    method Click(index: nat)
      requires Valid() && index < FaqCount
      modifies this
      ensures Valid()
      ensures activeIndex == Toggle(old(activeIndex), index)
    {
      if activeIndex == Some(index) {
        activeIndex := Some(0);
      } else {
        activeIndex := Some(index);
      }
    }
  }
}
