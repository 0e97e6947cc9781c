/**
 * The "how your flood plan works" dialog: three steps, opened automatically on the
 * flood-plan page unless the user opted out, or driven by a parent that controls it.
 */
module YourFloodPlanDialog {
  import opened Wrappers
  import opened Stepper

  const LastStep := 3
  const PlanPath := "/flood-plan/your-flood-plan"

  /** The route the dialog opens itself on. */
  predicate IsPlanPage(pathname: string) {
    pathname == PlanPath
  }

  class FloodPlanDialog {
    /** The parent's `open` value, when the parent controls the dialog. */
    const controlledOpen: Option<bool>
    /** Whether the parent supplied `onOpenChange`. */
    const controlledOnOpenChange: bool
    var internalOpen: bool
    var currentStep: int
    var dontShowAgain: bool
    /** The page flag the auto-open effect last ran for. */
    var onPlanPage: bool

    predicate Valid()
      reads this
    {
      1 <= currentStep <= LastStep
    }

    /** The dialog's visibility: the parent's value when controlled, its own otherwise. */
    function IsOpen(): (b: bool)
      reads this
      ensures controlledOpen.Some? ==> b == controlledOpen.value
      ensures controlledOpen.None? ==> b == internalOpen
    {
      controlledOpen.GetOr(internalOpen)
    }

    /** The auto-open effect: uncontrolled, it opens at step 1 on the plan page unless opted out, and closes elsewhere. */
    method RunOpenEffect(isPlanPage: bool)
      requires Valid()
      modifies this`internalOpen, this`currentStep
      ensures Valid()
      ensures controlledOpen.None? && isPlanPage && !dontShowAgain ==> internalOpen && currentStep == 1
      ensures controlledOpen.None? && !isPlanPage ==> !internalOpen && currentStep == old(currentStep)
      ensures controlledOpen.Some? || (isPlanPage && dontShowAgain) ==>
        internalOpen == old(internalOpen) && currentStep == old(currentStep)
    {
      if controlledOpen.None? && isPlanPage {
        if !dontShowAgain {
          internalOpen := true;
          currentStep := 1;
        }
      } else if controlledOpen.None? && !isPlanPage {
        internalOpen := false;
      }
    }

    /** Mounting on a route runs the effect once. */
    constructor (controlledOpen: Option<bool>, controlledOnOpenChange: bool, pathname: string)
      ensures Valid()
      ensures this.controlledOpen == controlledOpen && this.controlledOnOpenChange == controlledOnOpenChange
      ensures onPlanPage == IsPlanPage(pathname) && !dontShowAgain && currentStep == 1
      ensures internalOpen == (controlledOpen.None? && IsPlanPage(pathname))
    {
      this.controlledOpen := controlledOpen;
      this.controlledOnOpenChange := controlledOnOpenChange;
      internalOpen := false;
      currentStep := 1;
      dontShowAgain := false;
      onPlanPage := IsPlanPage(pathname);
      new;
      RunOpenEffect(onPlanPage);
    }

    /** A route change re-runs the effect only when the page flag changes. */
    method Navigate(pathname: string)
      requires Valid()
      modifies this`internalOpen, this`currentStep, this`onPlanPage
      ensures Valid() && onPlanPage == IsPlanPage(pathname)
      ensures IsPlanPage(pathname) == old(onPlanPage) ==>
        internalOpen == old(internalOpen) && currentStep == old(currentStep)
      ensures IsPlanPage(pathname) != old(onPlanPage) && controlledOpen.None? ==>
        if IsPlanPage(pathname) then
          (if dontShowAgain then internalOpen == old(internalOpen) && currentStep == old(currentStep)
           else internalOpen && currentStep == 1)
        else !internalOpen && currentStep == old(currentStep)
    {
      var flag := IsPlanPage(pathname);
      if flag != onPlanPage {
        onPlanPage := flag;
        RunOpenEffect(flag);
      }
    }

    /** The dialog asks to open or close: a parent callback takes it when supplied, the dialog's own state otherwise. */
    method RequestOpenChange(open: bool)
      requires Valid()
      modifies this`internalOpen
      ensures Valid()
      ensures internalOpen == if controlledOnOpenChange then old(internalOpen) else open
    {
      if !controlledOnOpenChange {
        internalOpen := open;
      }
    }

    method GoToPrevious()
      requires Valid()
      modifies this`currentStep
      ensures Valid() && currentStep == Previous(old(currentStep))
    {
      if currentStep > 1 {
        currentStep := currentStep - 1;
      }
    }

    method GoToNext()
      requires Valid()
      modifies this`currentStep
      ensures Valid() && currentStep == Next(old(currentStep), LastStep)
    {
      if currentStep < LastStep {
        currentStep := currentStep + 1;
      }
    }

    /** "Don't show anymore". */
    method SetDontShowAgain(checked: bool)
      requires Valid()
      modifies this`dontShowAgain
      ensures Valid() && dontShowAgain == checked
    {
      dontShowAgain := checked;
    }
  }
}
