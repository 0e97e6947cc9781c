/**
 * The flood-kit item card: what it shows for one item given that item's step
 * map, and the step updates its checkboxes request.
 */
module FloodKitItemCard {
  import opened Wrappers
  import opened FloodKitSchema
  import opened MyFloodKit

  /** Every value of the step map is `true`; vacuously so for an empty map. */
  predicate AllStepsComplete(m: StepMap) {
    forall n :: n in m ==> m[n]
  }

  /** The step numbers whose value is `true`. */
  function CompletedStepNumbers(m: StepMap): set<int> {
    set n | n in m && m[n]
  }

  /** The count of `true` values shown on the "k/N Steps" badge. */
  function CompletedStepCount(m: StepMap): (k: nat)
    ensures k <= |m|
  {
    assert CompletedStepNumbers(m) <= m.Keys;
    SubsetCardinality(CompletedStepNumbers(m), m.Keys);
    |CompletedStepNumbers(m)|
  }

  /** A subset has at most as many elements, and the same number only when it is the whole set. */
  lemma {:induction false} SubsetCardinality<T>(a: set<T>, b: set<T>)
    requires a <= b
    ensures |a| <= |b|
    ensures |a| == |b| ==> a == b
    decreases |b|
  {
    if b != {} {
      var x :| x in b;
      SubsetCardinality(a - {x}, b - {x});
      if x in a {
        assert |a - {x}| == |a| - 1;
        if |a| == |b| {
          assert a == (a - {x}) + {x};
          assert b == (b - {x}) + {x};
        }
      } else {
        assert a - {x} == a;
      }
    }
  }

  /** The card is "Completed" exactly when the badge count equals the number of entries of the step map. */
  lemma AllCompleteIffCountIsSize(m: StepMap)
    ensures AllStepsComplete(m) <==> CompletedStepCount(m) == |m|
  {
    SubsetCardinality(CompletedStepNumbers(m), m.Keys);
    if CompletedStepCount(m) == |m| {
      forall n | n in m
        ensures m[n]
      {
        assert n in CompletedStepNumbers(m);
      }
    } else {
      if AllStepsComplete(m) {
        assert forall n :: n in m.Keys ==> n in CompletedStepNumbers(m);
      }
    }
  }

  /** The status badge: "Completed" or "Not Installed". */
  function StatusBadge(m: StepMap): (text: string)
    ensures text == "Completed" <==> AllStepsComplete(m)
    ensures text == "Completed" || text == "Not Installed"
  {
    if AllStepsComplete(m) then "Completed" else "Not Installed"
  }

  /** A step's checkbox: its stored value, unchecked when the step has none (`?? false`). */
  function StepChecked(m: StepMap, stepNumber: int): (checked: bool)
    ensures checked <==> stepNumber in m && m[stepNumber]
  {
    if stepNumber in m then m[stepNumber] else false
  }

  /** The "Installed: <date>" line is shown when the item has an installation date and every step is complete. */
  function ShowsInstallationDate(item: FloodKitItem, m: StepMap): (shown: bool)
    ensures shown ==> item.installationDate.Some?
    ensures shown ==> StatusBadge(m) == "Completed"
    ensures item.installationDate.Some? && AllStepsComplete(m) ==> shown
  {
    item.installationDate.Some? && AllStepsComplete(m)
  }

  /** The priority badge text. */
  function PriorityLabel(p: Priority): string {
    match p
    case High => "High Priority"
    case Medium => "Medium Priority"
    case Low => "Low Priority"
  }

  /** Different priorities get different badges. */
  lemma PriorityLabelInjective(p: Priority, q: Priority)
    ensures PriorityLabel(p) == PriorityLabel(q) <==> p == q
  {
    if p != q {
      assert PriorityLabel(p)[0] != PriorityLabel(q)[0];
    }
  }

  /** One call of the card's `onStepCompletionChange(stepNumber, checked)`. */
  datatype StepChange = StepChange(stepNumber: int, checked: bool)

  /** The calls the master checkbox makes: one per installation step, in order, all with the box's new value. */
  function MasterChanges(steps: seq<InstallationStep>, checked: bool): (calls: seq<StepChange>)
    ensures |calls| == |steps|
    ensures forall j :: 0 <= j < |steps| ==> calls[j] == StepChange(steps[j].step, checked)
  {
    seq(|steps|, j requires 0 <= j < |steps| => StepChange(steps[j].step, checked))
  }

  /** The master checkbox's `forEach` over the installation steps, collecting the calls it makes. */
  method MasterCheckboxChanges(steps: seq<InstallationStep>, checked: bool) returns (calls: seq<StepChange>)
    ensures calls == MasterChanges(steps, checked)
  {
    calls := [];
    for j := 0 to |steps|
      invariant |calls| == j
      invariant forall i :: 0 <= i < j ==> calls[i] == StepChange(steps[i].step, checked)
    {
      calls := calls + [StepChange(steps[j].step, checked)];
    }
  }

  /** The page's completion map after it handles the card's calls for one item, in order. */
  function ApplyChanges(cs: CompletedSteps, itemId: int, calls: seq<StepChange>): CompletedSteps
    decreases |calls|
  {
    if |calls| == 0 then cs
    else ApplyChanges(SetStep(cs, itemId, calls[0].stepNumber, calls[0].checked), itemId, calls[1..])
  }

  /** The step numbers a batch of calls names. */
  function CalledSteps(calls: seq<StepChange>): set<int> {
    set j | 0 <= j < |calls| :: calls[j].stepNumber
  }

  /**
   * After a batch of calls the item's step map holds the old keys plus the called
   * step numbers; a step number that some call names holds the last value given for it.
   */
  lemma {:induction false} ApplyChangesEntries(cs: CompletedSteps, itemId: int, calls: seq<StepChange>, checked: bool)
    requires forall j :: 0 <= j < |calls| ==> calls[j].checked == checked
    requires |calls| > 0 || itemId in cs
    ensures var r := ApplyChanges(cs, itemId, calls);
      && itemId in r
      && r[itemId].Keys == StepsOf(cs, itemId).Keys + CalledSteps(calls)
      && (forall j :: 0 <= j < |calls| ==> r[itemId][calls[j].stepNumber] == checked)
      && (forall n :: n in StepsOf(cs, itemId) && (forall j :: 0 <= j < |calls| ==> calls[j].stepNumber != n) ==>
            r[itemId][n] == StepsOf(cs, itemId)[n])
      && (forall i :: i in cs && i != itemId ==> i in r && r[i] == cs[i])
    decreases |calls|
  {
    if |calls| > 0 {
      var next := SetStep(cs, itemId, calls[0].stepNumber, calls[0].checked);
      ApplyChangesEntries(next, itemId, calls[1..], checked);
      var r := ApplyChanges(cs, itemId, calls);
      assert r == ApplyChanges(next, itemId, calls[1..]);
      var called := CalledSteps(calls);
      var calledRest := CalledSteps(calls[1..]);
      assert called == calledRest + {calls[0].stepNumber} by {
        forall n | n in called
          ensures n in calledRest + {calls[0].stepNumber}
        {
          var j :| 0 <= j < |calls| && calls[j].stepNumber == n;
          if j > 0 {
            assert calls[1..][j - 1] == calls[j];
          }
        }
        forall n | n in calledRest
          ensures n in called
        {
          var j :| 0 <= j < |calls[1..]| && calls[1..][j].stepNumber == n;
          assert calls[j + 1] == calls[1..][j];
        }
      }
      forall j | 0 <= j < |calls|
        ensures r[itemId][calls[j].stepNumber] == checked
      {
        if j > 0 {
          assert calls[1..][j - 1] == calls[j];
        }
      }
      forall n | n in StepsOf(cs, itemId) && (forall j :: 0 <= j < |calls| ==> calls[j].stepNumber != n)
        ensures r[itemId][n] == StepsOf(cs, itemId)[n]
      {
        assert calls[0].stepNumber != n;
        forall j | 0 <= j < |calls[1..]|
          ensures calls[1..][j].stepNumber != n
        {
          assert calls[1..][j] == calls[j + 1];
        }
      }
    }
  }

  /**
   * Ticking the master checkbox completes the card: once the page has handled its
   * calls, every installation step of the item is checked and, when the item's map
   * had no keys other than its step numbers (as after initialisation), the card shows
   * "Completed". Unticking it unchecks every installation step.
   */
  lemma MasterCheckboxSetsEveryStep(cs: CompletedSteps, item: FloodKitItem, checked: bool)
    requires |item.installationSteps| > 0 || item.id in cs
    ensures item.id in ApplyChanges(cs, item.id, MasterChanges(item.installationSteps, checked))
    ensures var m := ApplyChanges(cs, item.id, MasterChanges(item.installationSteps, checked))[item.id];
      && (forall j :: 0 <= j < |item.installationSteps| ==> StepChecked(m, item.installationSteps[j].step) == checked)
      && (checked && (forall n :: n in StepsOf(cs, item.id) ==>
                       exists j :: 0 <= j < |item.installationSteps| && item.installationSteps[j].step == n)
          ==> StatusBadge(m) == "Completed")
  {
    var steps := item.installationSteps;
    var calls := MasterChanges(steps, checked);
    ApplyChangesEntries(cs, item.id, calls, checked);
    var m := ApplyChanges(cs, item.id, calls)[item.id];
    assert forall j :: 0 <= j < |steps| ==> calls[j].stepNumber == steps[j].step;
    if checked && (forall n :: n in StepsOf(cs, item.id) ==>
                    exists j :: 0 <= j < |steps| && steps[j].step == n) {
      forall n | n in m
        ensures m[n]
      {
        var j :| 0 <= j < |steps| && steps[j].step == n;
        assert calls[j].stepNumber == n;
      }
    }
  }
}
