/**
 * The flood-kit progress card: the overall protection percentage, the start or
 * continue button's label, and what that button opens.
 */
module FloodKitProgressCard {
  import opened Wrappers
  import opened JsMath
  import opened FloodKitSchema
  import opened MyFloodKit

  /** `protectedPercentage`: `Math.round(installedItems / totalItems * 100)`. */
  function ProtectedPercentage(installedItems: nat, totalItems: nat): Ratio {
    RoundedPercent(installedItems, totalItems)
  }

  /**
   * On the page, the percentage is a whole number from 0 to 100; with fewer than 200
   * items it reaches 100 exactly when nothing is left to install.
   */
  lemma ProtectedPercentageOnPage(items: seq<FloodKitItem>, cs: CompletedSteps,
                                  installed: (FloodKitItem, CompletedSteps) -> bool)
    requires |items| > 0
    ensures var r := ProtectedPercentage(InstalledItems(items, cs, installed), |items|);
      && r.Percent? && 0 <= r.value <= 100
      && (NextUninstalledItem(items, cs, installed).None? ==> r.value == 100)
      && (|items| < 200 && r.value == 100 ==> NextUninstalledItem(items, cs, installed).None?)
  {
    InstalledItemsAllIffNoNext(items, cs, installed);
    var n := InstalledItems(items, cs, installed);
    if n == |items| {
      WholeIsHundred(n);
    } else if |items| < 200 {
      ShortOfWholeBelowHundred(n, |items|);
    }
  }

  /** A whole share rounds to 100. */
  lemma WholeIsHundred(t: nat)
    requires t > 0
    ensures RoundedPercent(t, t) == Percent(100)
  {
  }

  /** A share short of the whole, out of fewer than 200, rounds below 100. */
  lemma ShortOfWholeBelowHundred(n: nat, t: nat)
    requires n < t < 200
    ensures RoundedPercent(n, t).Percent? && RoundedPercent(n, t).value < 100
  {
  }

  /** Rounding shows 100% with one item of 200 still to install. */
  lemma FullPercentageWithOneLeft()
    ensures ProtectedPercentage(199, 200) == Percent(100)
  {
  }

  /** The button's label. */
  function StartButtonLabel(installedItems: nat): (text: string)
    ensures text == "Continue the Installation" <==> installedItems > 0
    ensures text == "Continue the Installation" || text == "Start the Installation"
  {
    if installedItems > 0 then "Continue the Installation" else "Start the Installation"
  }

  /** `handleStartInstallation`: the item the guide opens on, only for a truthy next id (so never id 0). */
  function StartInstallation(nextItemId: Option<int>): (target: Option<int>)
    ensures target.Some? <==> nextItemId.Some? && nextItemId.value != 0
    ensures target.Some? ==> target == nextItemId
  {
    if nextItemId.Some? && nextItemId.value != 0 then nextItemId else None
  }

  /**
   * Pressing the button opens the guide on the next item to install (a high-priority
   * one first), unless every item is installed or that item's id is 0.
   */
  lemma StartOpensNextUninstalled(items: seq<FloodKitItem>, cs: CompletedSteps,
                                  installed: (FloodKitItem, CompletedSteps) -> bool)
    ensures var target := StartInstallation(NextUninstalledItem(items, cs, installed));
      && ((forall j :: 0 <= j < |items| ==> installed(items[j], cs)) ==> target.None?)
      && (target.Some? ==> && target.value != 0
                           && exists k :: 0 <= k < |items| && items[k].id == target.value && !installed(items[k], cs))
  {
    NextIsNoneIffAllInstalled(items, cs, installed);
    if NextUninstalledItem(items, cs, installed).Some? {
      NextIsUninstalled(items, cs, installed);
    }
  }

  /** The button's handler on the page: select the item `StartInstallation` opens, if any. */
  method HandleStartInstallation(page: FloodKitPage, installed: (FloodKitItem, CompletedSteps) -> bool)
    modifies page`selectedItemId
    ensures var target := StartInstallation(NextUninstalledItem(page.items, old(page.completedSteps), installed));
      page.selectedItemId == if target.Some? then target else old(page.selectedItemId)
  {
    var nextItemId := NextUninstalledItem(page.items, page.completedSteps, installed);
    if nextItemId.Some? && nextItemId.value != 0 {
      page.SelectItem(nextItemId.value);
    }
  }
}
