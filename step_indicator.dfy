/**
 * The step indicator shared by the wizards: which kind of target a step has, where
 * a click on its dot leads, the "Step n of m" number and the dot's style.
 */
module StepIndicator {
  import opened Wrappers
  import opened Lists
  import opened FloodKitSchema

  /**
   * A step: a route, a click callback (only whether one was given), or a flood-kit
   * item id; `completed` may be absent.
   */
  datatype Step = Step(id: string, path: Option<string>, hasOnClick: bool, itemId: Option<int>, completed: Option<bool>)

  datatype StepType = Url | Callback | Item

  /** What a click on a step's dot does. */
  datatype Action = DoNothing | NavigateTo(target: string) | InvokeOnClick

  datatype DotStyle = Active | Done | Pending

  /** A path counts only when it is a non-empty string. */
  predicate HasPath(step: Step) {
    step.path.Some? && step.path.value != ""
  }

  /** `getStepType`: a path wins, then a callback, then an item id; a step with none of them is a url step. */
  function GetStepType(step: Step): (t: StepType)
    ensures t == Url <==> HasPath(step) || (!step.hasOnClick && step.itemId.None?)
    ensures t == Callback <==> !HasPath(step) && step.hasOnClick
    ensures t == Item <==> !HasPath(step) && !step.hasOnClick && step.itemId.Some?
  {
    if HasPath(step) then Url
    else if step.hasOnClick then Callback
    else if step.itemId.Some? then Item
    else Url
  }

  function HasId(id: int): FloodKitItem -> bool {
    (it: FloodKitItem) => it.id == id
  }

  /**
   * `navigateToStep`: the action for a click, given the indicator's optional item
   * list and optional item-path builder.
   */
  function NavigateToStep(step: Step, getItemPath: Option<int -> string>, items: Option<seq<FloodKitItem>>): Action {
    match GetStepType(step)
    case Url => if HasPath(step) then NavigateTo(step.path.value) else DoNothing
    case Callback => InvokeOnClick
    case Item =>
      if step.itemId.value != 0 && items.Some? && getItemPath.Some?
         && FindIndex(items.value, HasId(step.itemId.value)).Some?
      then NavigateTo(getItemPath.value(step.itemId.value))
      else DoNothing
  }

  /** A url step goes to exactly its path, and a path-less step with nothing else does nothing. */
  lemma UrlStepNavigatesToPath(step: Step, getItemPath: Option<int -> string>, items: Option<seq<FloodKitItem>>)
    ensures HasPath(step) ==> NavigateToStep(step, getItemPath, items) == NavigateTo(step.path.value)
    ensures !HasPath(step) && !step.hasOnClick && step.itemId.None? ==> NavigateToStep(step, getItemPath, items) == DoNothing
  {
  }

  /** A callback step without a path invokes its callback, whatever else it carries. */
  lemma CallbackStepInvokes(step: Step, getItemPath: Option<int -> string>, items: Option<seq<FloodKitItem>>)
    requires !HasPath(step) && step.hasOnClick
    ensures NavigateToStep(step, getItemPath, items) == InvokeOnClick
  {
  }

  /**
   * An item step navigates exactly when its id is truthy (so id 0 never navigates),
   * both the item list and the path builder are given and the list holds that id;
   * it then goes to the builder's path for that id.
   */
  lemma ItemStepNavigation(step: Step, getItemPath: Option<int -> string>, items: Option<seq<FloodKitItem>>)
    requires !HasPath(step) && !step.hasOnClick && step.itemId.Some?
    ensures NavigateToStep(step, getItemPath, items).NavigateTo? <==>
      step.itemId.value != 0 && items.Some? && getItemPath.Some?
      && exists i :: 0 <= i < |items.value| && items.value[i].id == step.itemId.value
    ensures NavigateToStep(step, getItemPath, items).NavigateTo? ==>
      NavigateToStep(step, getItemPath, items) == NavigateTo(getItemPath.value(step.itemId.value))
    ensures step.itemId.value == 0 ==> NavigateToStep(step, getItemPath, items) == DoNothing
  {
    if items.Some? {
      var f := FindIndex(items.value, HasId(step.itemId.value));
      if f.Some? {
        assert items.value[f.value].id == step.itemId.value;
      }
    }
  }

  function IsStep(id: string): Step -> bool {
    (s: Step) => s.id == id
  }

  /** `currentStepNumber`: the 1-based position of the first step with the current id, 1 when there is none. */
  function CurrentStepNumber(steps: seq<Step>, currentStepId: string): (n: int)
    ensures FindIndex(steps, IsStep(currentStepId)).Some? ==> n == FindIndex(steps, IsStep(currentStepId)).value + 1
    ensures FindIndex(steps, IsStep(currentStepId)).None? ==> n == 1
  {
    match FindIndex(steps, IsStep(currentStepId))
    case Some(i) => i + 1
    case None => 1
  }

  /** The number names the first step carrying the current id, never lies outside 1..steps, and is 1 when no step matches. */
  lemma CurrentStepNumberIsPosition(steps: seq<Step>, currentStepId: string)
    ensures 1 <= CurrentStepNumber(steps, currentStepId) <= (if |steps| == 0 then 1 else |steps|)
    ensures (exists i :: 0 <= i < |steps| && steps[i].id == currentStepId) ==>
      var n := CurrentStepNumber(steps, currentStepId);
      steps[n - 1].id == currentStepId && forall j :: 0 <= j < n - 1 ==> steps[j].id != currentStepId
    ensures (forall i :: 0 <= i < |steps| ==> steps[i].id != currentStepId) ==> CurrentStepNumber(steps, currentStepId) == 1
  {
    var f := FindIndex(steps, IsStep(currentStepId));
    if f.Some? {
      assert steps[f.value].id == currentStepId;
    } else {
      assert forall i :: 0 <= i < |steps| ==> !IsStep(currentStepId)(steps[i]);
    }
  }

  /** A dot's style: the current step first, then a completed one (absent means not completed), otherwise pending. */
  function Dot(step: Step, currentStepId: string): (d: DotStyle)
    ensures d == Active <==> step.id == currentStepId
    ensures d == Done <==> step.id != currentStepId && step.completed == Some(true)
  {
    if step.id == currentStepId then Active
    else if step.completed.GetOr(false) then Done
    else Pending
  }
}
