/**
 * The flood-kit page: the per-item, per-step completion map it owns, how that map
 * is built from the items and updated one step at a time, which item the
 * installation guide should open next, and how many items count as installed.
 *
 * Whether an item counts as installed is decided by `isItemInstalled`, whose
 * definition is not part of this model: it is the parameter `installed`.
 */
module MyFloodKit {
  import opened Wrappers
  import opened Lists
  import opened FloodKitSchema

  /** The completion state of one item: step number to "done". */
  type StepMap = map<int, bool>

  /** The completion state of every item: item id to its step map. */
  type CompletedSteps = map<int, StepMap>

  /** The step map one item starts with: each step number to its `isCompleted`, later steps overwriting earlier ones. */
  function InitialStepMap(steps: seq<InstallationStep>): StepMap
    decreases |steps|
  {
    if |steps| == 0 then map[]
    else
      var last := steps[|steps| - 1];
      InitialStepMap(steps[..|steps| - 1])[last.step := last.isCompleted]
  }

  /** The completion map the page starts with: each item id to its initial step map, later items overwriting earlier ones. */
  function InitialCompletedSteps(items: seq<FloodKitItem>): CompletedSteps
    decreases |items|
  {
    if |items| == 0 then map[]
    else
      var last := items[|items| - 1];
      InitialCompletedSteps(items[..|items| - 1])[last.id := InitialStepMap(last.installationSteps)]
  }

  /** Builds the initial completion map with the two nested `forEach` loops of the page's state initialiser. */
  method BuildCompletedSteps(items: seq<FloodKitItem>) returns (initial: CompletedSteps)
    ensures initial == InitialCompletedSteps(items)
  {
    initial := map[];
    for i := 0 to |items|
      invariant initial == InitialCompletedSteps(items[..i])
    {
      var item := items[i];
      var itemSteps: StepMap := map[];
      for j := 0 to |item.installationSteps|
        invariant itemSteps == InitialStepMap(item.installationSteps[..j])
      {
        var step := item.installationSteps[j];
        assert item.installationSteps[..j + 1][..j] == item.installationSteps[..j];
        itemSteps := itemSteps[step.step := step.isCompleted];
      }
      assert item.installationSteps[..|item.installationSteps|] == item.installationSteps;
      assert items[..i + 1][..i] == items[..i];
      initial := initial[item.id := itemSteps];
    }
    assert items[..|items|] == items;
  }

  /** No two steps share a step number. */
  predicate DistinctStepNumbers(steps: seq<InstallationStep>) {
    forall a, b :: 0 <= a < b < |steps| ==> steps[a].step != steps[b].step
  }

  /** No two items share an id. */
  predicate UniqueIds(items: seq<FloodKitItem>) {
    forall a, b :: 0 <= a < b < |items| ==> items[a].id != items[b].id
  }

  /** The initial step map has exactly the item's step numbers as keys, and with distinct numbers each step's own flag. */
  lemma {:induction false} InitialStepMapEntries(steps: seq<InstallationStep>)
    ensures forall n :: n in InitialStepMap(steps) <==> exists j :: 0 <= j < |steps| && steps[j].step == n
    ensures DistinctStepNumbers(steps) ==>
      forall j :: 0 <= j < |steps| ==> InitialStepMap(steps)[steps[j].step] == steps[j].isCompleted
    decreases |steps|
  {
    if |steps| > 0 {
      var init := steps[..|steps| - 1];
      InitialStepMapEntries(init);
      assert forall j :: 0 <= j < |init| ==> init[j] == steps[j];
    }
  }

  /** The initial completion map has exactly the item ids as keys. */
  lemma {:induction false} InitialCompletedStepsKeys(items: seq<FloodKitItem>)
    ensures forall id :: id in InitialCompletedSteps(items) <==> exists j :: 0 <= j < |items| && items[j].id == id
    decreases |items|
  {
    if |items| > 0 {
      var init := items[..|items| - 1];
      InitialCompletedStepsKeys(init);
      assert forall j :: 0 <= j < |init| ==> init[j] == items[j];
    }
  }

  /** With unique ids, each item's entry is its own initial step map. */
  lemma {:induction false} InitialCompletedStepsEntry(items: seq<FloodKitItem>, k: nat)
    requires UniqueIds(items) && k < |items|
    ensures items[k].id in InitialCompletedSteps(items)
    ensures InitialCompletedSteps(items)[items[k].id] == InitialStepMap(items[k].installationSteps)
    decreases |items|
  {
    if k < |items| - 1 {
      var init := items[..|items| - 1];
      assert init[k] == items[k];
      assert UniqueIds(init);
      InitialCompletedStepsEntry(init, k);
    }
  }

  /**
   * After initialisation, with unique item ids and distinct step numbers, the map
   * holds every installation step's own `isCompleted` under its item and its number.
   */
  lemma InitialisationMatchesItems(items: seq<FloodKitItem>, k: nat, j: nat)
    requires UniqueIds(items) && k < |items|
    requires DistinctStepNumbers(items[k].installationSteps) && j < |items[k].installationSteps|
    ensures var s := items[k].installationSteps[j];
      && items[k].id in InitialCompletedSteps(items)
      && s.step in InitialCompletedSteps(items)[items[k].id]
      && InitialCompletedSteps(items)[items[k].id][s.step] == s.isCompleted
  {
    InitialCompletedStepsEntry(items, k);
    InitialStepMapEntries(items[k].installationSteps);
  }

  /** The step map of an item, the empty map when it has none (`completedSteps[id] || {}`). */
  function StepsOf(cs: CompletedSteps, itemId: int): StepMap {
    if itemId in cs then cs[itemId] else map[]
  }

  /** `handleStepCompletion(itemId, stepNumber, checked)`: the new completion map. */
  function SetStep(cs: CompletedSteps, itemId: int, stepNumber: int, checked: bool): (r: CompletedSteps)
    ensures r.Keys == cs.Keys + {itemId}
    ensures r[itemId].Keys == StepsOf(cs, itemId).Keys + {stepNumber}
    ensures r[itemId][stepNumber] == checked
    ensures forall n :: n in StepsOf(cs, itemId) && n != stepNumber ==> r[itemId][n] == StepsOf(cs, itemId)[n]
    ensures forall i :: i in cs && i != itemId ==> r[i] == cs[i]
  {
    cs[itemId := StepsOf(cs, itemId)[stepNumber := checked]]
  }

  /** On an item with no step map yet, the update creates a map holding only that step. */
  lemma SetStepOnFreshItem(cs: CompletedSteps, itemId: int, stepNumber: int, checked: bool)
    requires itemId !in cs
    ensures SetStep(cs, itemId, stepNumber, checked)[itemId] == map[stepNumber := checked]
  {
  }

  /** The update is idempotent: applying the same update twice is applying it once. */
  lemma SetStepIdempotent(cs: CompletedSteps, itemId: int, stepNumber: int, checked: bool)
    ensures SetStep(SetStep(cs, itemId, stepNumber, checked), itemId, stepNumber, checked)
         == SetStep(cs, itemId, stepNumber, checked)
  {
    var once := SetStep(cs, itemId, stepNumber, checked);
    assert StepsOf(once, itemId)[stepNumber := checked] == once[itemId];
  }

  /** Updates to different steps commute, whatever their items. */
  lemma SetStepCommutes(cs: CompletedSteps, i1: int, n1: int, c1: bool, i2: int, n2: int, c2: bool)
    requires i1 != i2 || n1 != n2
    ensures SetStep(SetStep(cs, i1, n1, c1), i2, n2, c2) == SetStep(SetStep(cs, i2, n2, c2), i1, n1, c1)
  {
    var a := SetStep(SetStep(cs, i1, n1, c1), i2, n2, c2);
    var b := SetStep(SetStep(cs, i2, n2, c2), i1, n1, c1);
    assert a.Keys == b.Keys;
    forall i | i in a.Keys
      ensures a[i] == b[i]
    {
      if i == i1 || i == i2 {
        assert a[i].Keys == b[i].Keys;
      }
    }
  }

  /** An item still to install, for the next-item search. */
  predicate Uninstalled(installed: (FloodKitItem, CompletedSteps) -> bool, cs: CompletedSteps, item: FloodKitItem) {
    !installed(item, cs)
  }

  /** `getNextUninstalledItem`: the first uninstalled high-priority item, else the first uninstalled item, else none. */
  function NextUninstalledItem(items: seq<FloodKitItem>, cs: CompletedSteps,
                               installed: (FloodKitItem, CompletedSteps) -> bool): (r: Option<int>)
  {
    match FindIndex(items, (it: FloodKitItem) => it.priority == High && Uninstalled(installed, cs, it))
    case Some(k) => Some(items[k].id)
    case None =>
      match FindIndex(items, (it: FloodKitItem) => Uninstalled(installed, cs, it))
      case Some(k) => Some(items[k].id)
      case None => None
  }

  /** When some high-priority item is uninstalled, the next item is the first such item in list order. */
  lemma NextPrefersHighPriority(items: seq<FloodKitItem>, cs: CompletedSteps,
                                installed: (FloodKitItem, CompletedSteps) -> bool, k: nat)
    requires k < |items| && items[k].priority == High && !installed(items[k], cs)
    requires forall j :: 0 <= j < k ==> items[j].priority != High || installed(items[j], cs)
    ensures NextUninstalledItem(items, cs, installed) == Some(items[k].id)
  {
    var p := (it: FloodKitItem) => it.priority == High && Uninstalled(installed, cs, it);
    var f := FindIndex(items, p);
    assert p(items[k]);
    assert f.Some?;
    assert f.value == k;
  }

  /** When every high-priority item is installed, the next item is the first uninstalled item in list order. */
  lemma NextFallsBackToFirstUninstalled(items: seq<FloodKitItem>, cs: CompletedSteps,
                                        installed: (FloodKitItem, CompletedSteps) -> bool, k: nat)
    requires forall j :: 0 <= j < |items| ==> items[j].priority != High || installed(items[j], cs)
    requires k < |items| && !installed(items[k], cs)
    requires forall j :: 0 <= j < k ==> installed(items[j], cs)
    ensures NextUninstalledItem(items, cs, installed) == Some(items[k].id)
  {
    var p := (it: FloodKitItem) => it.priority == High && Uninstalled(installed, cs, it);
    var q := (it: FloodKitItem) => Uninstalled(installed, cs, it);
    assert FindIndex(items, p).None? by {
      assert forall j :: 0 <= j < |items| ==> !p(items[j]);
    }
    var f := FindIndex(items, q);
    assert q(items[k]);
    assert f.Some?;
    assert f.value == k;
  }

  /** There is no next item exactly when every item is installed. */
  lemma NextIsNoneIffAllInstalled(items: seq<FloodKitItem>, cs: CompletedSteps,
                                  installed: (FloodKitItem, CompletedSteps) -> bool)
    ensures NextUninstalledItem(items, cs, installed).None? <==>
            forall j :: 0 <= j < |items| ==> installed(items[j], cs)
  {
    var p := (it: FloodKitItem) => it.priority == High && Uninstalled(installed, cs, it);
    var q := (it: FloodKitItem) => Uninstalled(installed, cs, it);
    if forall j :: 0 <= j < |items| ==> installed(items[j], cs) {
      assert forall j :: 0 <= j < |items| ==> !p(items[j]) && !q(items[j]);
    } else {
      var j :| 0 <= j < |items| && !installed(items[j], cs);
      assert q(items[j]);
      if FindIndex(items, p).None? {
        assert FindIndex(items, q).Some?;
      }
    }
  }

  /** The next item, when there is one, is an uninstalled item of the list. */
  lemma NextIsUninstalled(items: seq<FloodKitItem>, cs: CompletedSteps,
                          installed: (FloodKitItem, CompletedSteps) -> bool)
    requires NextUninstalledItem(items, cs, installed).Some?
    ensures exists k :: 0 <= k < |items| && !installed(items[k], cs)
              && items[k].id == NextUninstalledItem(items, cs, installed).value
  {
    var p := (it: FloodKitItem) => it.priority == High && Uninstalled(installed, cs, it);
    var q := (it: FloodKitItem) => Uninstalled(installed, cs, it);
    match FindIndex(items, p)
    case Some(k) => assert p(items[k]);
    case None =>
      var k := FindIndex(items, q).value;
      assert q(items[k]);
  }

  /** `installedItems`: the number of items that count as installed. */
  function InstalledItems(items: seq<FloodKitItem>, cs: CompletedSteps,
                          installed: (FloodKitItem, CompletedSteps) -> bool): (n: nat)
    ensures n <= |items|
  {
    |Filter(items, (it: FloodKitItem) => installed(it, cs))|
  }

  /** `installedItems` reaches `totalItems` exactly when there is no next item to install. */
  lemma InstalledItemsAllIffNoNext(items: seq<FloodKitItem>, cs: CompletedSteps,
                                   installed: (FloodKitItem, CompletedSteps) -> bool)
    ensures InstalledItems(items, cs, installed) == |items| <==> NextUninstalledItem(items, cs, installed).None?
  {
    FilterAll(items, (it: FloodKitItem) => installed(it, cs));
    NextIsNoneIffAllInstalled(items, cs, installed);
  }

  /** The page: its items, the completion map it owns and the item the installation guide shows. */
  class FloodKitPage {
    const items: seq<FloodKitItem>
    var completedSteps: CompletedSteps
    var selectedItemId: Option<int>

    /** The page on mount: nothing selected, the completion map built from the items. */
    constructor (items: seq<FloodKitItem>)
      ensures this.items == items
      ensures completedSteps == InitialCompletedSteps(items)
      ensures selectedItemId == None
    {
      this.items := items;
      var initial := BuildCompletedSteps(items);
      completedSteps := initial;
      selectedItemId := None;
    }

    /** `handleStepCompletion`: one entry of the completion map replaced. */
    method HandleStepCompletion(itemId: int, stepNumber: int, checked: bool)
      modifies this`completedSteps
      ensures completedSteps == SetStep(old(completedSteps), itemId, stepNumber, checked)
    {
      completedSteps := completedSteps[itemId := StepsOf(completedSteps, itemId)[stepNumber := checked]];
    }

    /** `setSelectedItemId(id)`, from "view full guide" or the guide's own navigation. */
    method SelectItem(itemId: int)
      modifies this`selectedItemId
      ensures selectedItemId == Some(itemId)
    {
      selectedItemId := Some(itemId);
    }

    /** Closing the guide. */
    method CloseGuide()
      modifies this`selectedItemId
      ensures selectedItemId == None
    {
      selectedItemId := None;
    }

    /** The guide is shown for a truthy selected id; id 0 shows the list. */
    predicate ShowsInstallationView()
      reads this
    {
      selectedItemId.Some? && selectedItemId.value != 0
    }
  }
}
