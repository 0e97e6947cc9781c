/**
 * The installation guide: which item is shown, moving to the previous, next or
 * any item, the slide direction the move records, and the progress shown for the
 * selected item.
 */
module FloodKitInstallationView {
  import opened Wrappers
  import opened Lists
  import opened JsMath
  import opened FloodKitSchema
  import opened MyFloodKit
  import opened FloodKitItemCard

  /** The direction of the last move, which picks the slide animation. */
  datatype Direction = NoDirection | Forward | Backward

  function HasId(id: int): FloodKitItem -> bool {
    (it: FloodKitItem) => it.id == id
  }

  /** `currentIndex`: the position of the first item with the selected id, or -1 when none is selected or none matches. */
  function CurrentIndex(items: seq<FloodKitItem>, selectedId: Option<int>): (i: int)
    ensures -1 <= i < |items|
    ensures i >= 0 ==> selectedId.Some? && items[i].id == selectedId.value
    ensures i >= 0 ==> forall j :: 0 <= j < i ==> items[j].id != selectedId.value
    ensures i == -1 <==> selectedId.None? || forall j :: 0 <= j < |items| ==> items[j].id != selectedId.value
  {
    if selectedId.None? then -1
    else
      var f := FindIndex(items, HasId(selectedId.value));
      if f.Some? then
        assert HasId(selectedId.value)(items[f.value]);
        f.value as int
      else
        assert forall j :: 0 <= j < |items| ==> !HasId(selectedId.value)(items[j]);
        -1
  }

  /** With unique ids, selecting the item at position `k` makes `k` the current index. */
  lemma IndexOfSelectedItem(items: seq<FloodKitItem>, k: nat)
    requires UniqueIds(items) && k < |items|
    ensures CurrentIndex(items, Some(items[k].id)) == k
  {
  }

  predicate HasPrevious(currentIndex: int) {
    currentIndex > 0
  }

  predicate HasNext(items: seq<FloodKitItem>, currentIndex: int) {
    currentIndex < |items| - 1
  }

  /** The id the "Previous" button selects, if it is enabled. */
  function PreviousId(items: seq<FloodKitItem>, selectedId: Option<int>): (r: Option<int>)
    ensures r.Some? <==> HasPrevious(CurrentIndex(items, selectedId))
    ensures r.Some? ==> r.value == items[CurrentIndex(items, selectedId) - 1].id
  {
    var i := CurrentIndex(items, selectedId);
    if i > 0 then Some(items[i - 1].id) else None
  }

  /** The id the "Next" button selects, if it is enabled. */
  function NextId(items: seq<FloodKitItem>, selectedId: Option<int>): (r: Option<int>)
    ensures r.Some? <==> HasNext(items, CurrentIndex(items, selectedId))
    ensures r.Some? ==> r.value == items[CurrentIndex(items, selectedId) + 1].id
  {
    var i := CurrentIndex(items, selectedId);
    if i < |items| - 1 then Some(items[i + 1].id) else None
  }

  /** With unique ids, "Next" then "Previous" comes back to the same item. */
  lemma NextThenPrevious(items: seq<FloodKitItem>, k: nat)
    requires UniqueIds(items) && k + 1 < |items|
    ensures NextId(items, Some(items[k].id)) == Some(items[k + 1].id)
    ensures PreviousId(items, Some(items[k + 1].id)) == Some(items[k].id)
  {
    IndexOfSelectedItem(items, k);
    IndexOfSelectedItem(items, k + 1);
  }

  /** With unique ids, "Previous" is disabled exactly on the first item and "Next" exactly on the last. */
  lemma NavigationBounds(items: seq<FloodKitItem>, k: nat)
    requires UniqueIds(items) && k < |items|
    ensures PreviousId(items, Some(items[k].id)).None? <==> k == 0
    ensures NextId(items, Some(items[k].id)).None? <==> k == |items| - 1
  {
    IndexOfSelectedItem(items, k);
  }

  /** The "Step i of n" badge's position. */
  function PositionLabel(items: seq<FloodKitItem>, selectedId: Option<int>): (p: int)
    ensures 0 <= p <= |items|
    ensures p == 0 <==> CurrentIndex(items, selectedId) == -1
  {
    CurrentIndex(items, selectedId) + 1
  }

  /** The progress figure `Math.round(completedCount / totalSteps * 100)`. */
  function Progress(m: StepMap, steps: seq<InstallationStep>): Ratio {
    RoundedPercent(CompletedStepCount(m), |steps|)
  }

  /** A map with one entry per step gives a whole percentage between 0 and 100; an item with no steps gives no number. */
  lemma ProgressBounds(m: StepMap, steps: seq<InstallationStep>)
    ensures |steps| == 0 ==> !Progress(m, steps).Percent?
    ensures |steps| == 0 && |m| == 0 ==> Progress(m, steps) == NaN
    ensures |m| <= |steps| && |steps| > 0 ==> Progress(m, steps).Percent? && 0 <= Progress(m, steps).value <= 100
    ensures |steps| > 0 && CompletedStepCount(m) == |steps| ==> Progress(m, steps) == Percent(100)
    ensures |steps| > 0 && CompletedStepCount(m) == 0 ==> Progress(m, steps) == Percent(0)
  {
    if |steps| > 0 && CompletedStepCount(m) == |steps| {
      var r := Progress(m, steps);
      assert 2 * r.value * |steps| - |steps| <= 200 * |steps| < 2 * r.value * |steps| + |steps|;
    }
  }

  /** The "Installed" badge: as many completed entries as steps, and at least one step. */
  predicate InstalledBadge(m: StepMap, steps: seq<InstallationStep>) {
    CompletedStepCount(m) == |steps| && |steps| > 0
  }

  /** With distinct step numbers the initial step map has one entry per step. */
  lemma {:induction false} InitialStepMapSize(steps: seq<InstallationStep>)
    requires DistinctStepNumbers(steps)
    ensures |InitialStepMap(steps)| == |steps|
    decreases |steps|
  {
    if |steps| > 0 {
      var init := steps[..|steps| - 1];
      var last := steps[|steps| - 1];
      assert DistinctStepNumbers(init);
      InitialStepMapSize(init);
      InitialStepMapEntries(init);
      assert last.step !in InitialStepMap(init);
    }
  }

  /**
   * When the map has one entry per step, the guide's "Installed" badge and the
   * card's "Completed" badge agree, except on an item with no steps, which the card
   * calls completed and the guide does not call installed.
   */
  lemma InstalledBadgeAgreesWithCard(m: StepMap, steps: seq<InstallationStep>)
    requires |m| == |steps|
    ensures InstalledBadge(m, steps) <==> AllStepsComplete(m) && |steps| > 0
    ensures |steps| == 0 ==> AllStepsComplete(m) && !InstalledBadge(m, steps)
  {
    AllCompleteIffCountIsSize(m);
  }

  /** A step's shown state in the guide: its stored value, or the item's own `isCompleted` when none is stored. */
  function StepShownCompleted(m: StepMap, step: InstallationStep): (done: bool)
    ensures step.step in m ==> done == m[step.step]
    ensures step.step !in m ==> done == step.isCompleted
  {
    if step.step in m then m[step.step] else step.isCompleted
  }

  /** The guide and the card show a step alike whenever a value is stored for it or the item says it is not done. */
  lemma StepShownAgreesWithCard(m: StepMap, step: InstallationStep)
    ensures StepShownCompleted(m, step) == StepChecked(m, step.step) <==> step.step in m || !step.isCompleted
  {
  }

  /** The guide's own state, over the page whose selection it moves. */
  class InstallationGuide {
    const page: FloodKitPage
    var direction: Direction

    constructor (page: FloodKitPage)
      ensures this.page == page && direction == NoDirection
    {
      this.page := page;
      direction := NoDirection;
    }

    /** `goToPreviousItem`: when enabled, slide backward and select the previous item; otherwise nothing changes. */
    method GoToPreviousItem()
      modifies this, page`selectedItemId
      ensures var prev := PreviousId(page.items, old(page.selectedItemId));
        if prev.Some? then direction == Backward && page.selectedItemId == prev
        else direction == old(direction) && page.selectedItemId == old(page.selectedItemId)
    {
      var i := CurrentIndex(page.items, page.selectedItemId);
      if i > 0 {
        direction := Backward;
        page.SelectItem(page.items[i - 1].id);
      }
    }

    /** `goToNextItem`: when enabled, slide forward and select the next item; otherwise nothing changes. */
    method GoToNextItem()
      modifies this, page`selectedItemId
      ensures var next := NextId(page.items, old(page.selectedItemId));
        if next.Some? then direction == Forward && page.selectedItemId == next
        else direction == old(direction) && page.selectedItemId == old(page.selectedItemId)
    {
      var i := CurrentIndex(page.items, page.selectedItemId);
      if i < |page.items| - 1 {
        direction := Forward;
        page.SelectItem(page.items[i + 1].id);
      }
    }

    /** A step indicator click: slide forward to a later position, backward otherwise, and select that item. */
    method GoToIndicator(idx: nat)
      requires idx < |page.items|
      modifies this, page`selectedItemId
      ensures direction == if idx > CurrentIndex(page.items, old(page.selectedItemId)) then Forward else Backward
      ensures page.selectedItemId == Some(page.items[idx].id)
    {
      var i := CurrentIndex(page.items, page.selectedItemId);
      direction := if idx > i then Forward else Backward;
      page.SelectItem(page.items[idx].id);
    }
  }
}
