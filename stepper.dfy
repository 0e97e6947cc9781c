/**
 * The bounded "previous / next" step counters the flood-plan and assessment
 * wizards share: steps 1 to `last`, moves outside the range ignored.
 */
module Stepper {
  /** `goToPrevious`: one step back unless already on step 1. */
  function Previous(step: int): (r: int)
    ensures step > 1 ==> r == step - 1
    ensures step <= 1 ==> r == step
  {
    if step > 1 then step - 1 else step
  }

  /** `goToNext`: one step on unless already on the last step. */
  function Next(step: int, last: int): (r: int)
    ensures step < last ==> r == step + 1
    ensures step >= last ==> r == step
  {
    if step < last then step + 1 else step
  }

  /** Both moves keep a step within 1..last, and each undoes the other away from the ends. */
  lemma MovesStayInRange(step: int, last: int)
    requires 1 <= step <= last
    ensures 1 <= Previous(step) <= last && 1 <= Next(step, last) <= last
    ensures step < last ==> Previous(Next(step, last)) == step
    ensures step > 1 ==> Next(Previous(step), last) == step
  {
  }

  /** `k` presses of "next" from `step`; `NextTimesReaches` shows they reach `min(step + k, last)`. */
  function NextTimes(step: int, last: int, k: nat): int
    decreases k
  {
    if k == 0 then step else NextTimes(Next(step, last), last, k - 1)
  }

  lemma {:induction false} NextTimesReaches(step: int, last: int, k: nat)
    requires 1 <= step <= last
    ensures NextTimes(step, last, k) == if step + k <= last then step + k else last
    decreases k
  {
    if k > 0 {
      NextTimesReaches(Next(step, last), last, k - 1);
    }
  }
}
