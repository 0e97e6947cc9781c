/**
 * The "understanding your flood risk" section of the flood plan: four steps, the
 * flood-warning answer, the confirmation tick, and completing the section.
 */
module FloodInformations {
  import opened Wrappers
  import opened Stepper

  const LastStep := 4

  datatype WarningStatus = SignedUp | NotAvailable

  class FloodInformationsView {
    var currentStep: int
    var floodWarningStatus: Option<WarningStatus>
    var understandsFloodRisk: bool
    var hasCompletedSection: bool
    var hasAttemptedComplete: bool

    /** The step is one of the four, and the section is only ever completed with the tick given. */
    predicate Valid()
      reads this
    {
      1 <= currentStep <= LastStep && (hasCompletedSection ==> understandsFloodRisk)
    }

    /** The completion view replaces the steps once the section is completed with the tick given. */
    predicate ShowsCompletion()
      reads this
    {
      hasCompletedSection && understandsFloodRisk
    }

    /** The red reminder under "Complete This Section". */
    predicate ShowsTickReminder()
      reads this
    {
      hasAttemptedComplete && !understandsFloodRisk
    }

    constructor ()
      ensures Valid() && currentStep == 1 && floodWarningStatus.None?
      ensures !understandsFloodRisk && !hasCompletedSection && !hasAttemptedComplete
    {
      currentStep := 1;
      floodWarningStatus := None;
      understandsFloodRisk := false;
      hasCompletedSection := false;
      hasAttemptedComplete := false;
    }

    method GoToPrevious()
      requires Valid()
      modifies this`currentStep
      ensures Valid() && currentStep == Previous(old(currentStep))
    {
      if currentStep > 1 {
        currentStep := currentStep - 1;
      }
    }

    method GoToNext()
      requires Valid()
      modifies this`currentStep
      ensures Valid() && currentStep == Next(old(currentStep), LastStep)
    {
      if currentStep < LastStep {
        currentStep := currentStep + 1;
      }
    }

    /** "Check again" leaves the completion view. */
    method HandleCheckAgain()
      requires Valid()
      modifies this`hasCompletedSection
      ensures Valid() && !hasCompletedSection && !ShowsCompletion()
    {
      hasCompletedSection := false;
    }

    /** One of the two flood-warning buttons. */
    method SetWarningStatus(status: WarningStatus)
      requires Valid()
      modifies this`floodWarningStatus
      ensures Valid() && floodWarningStatus == Some(status)
    {
      floodWarningStatus := Some(status);
    }

    /** The confirmation checkbox (shown only outside the completion view): ticking it also clears the reminder. */
    method SetUnderstands(checked: bool)
      requires Valid() && !ShowsCompletion()
      modifies this`understandsFloodRisk, this`hasAttemptedComplete
      ensures Valid() && understandsFloodRisk == checked
      ensures hasAttemptedComplete == if checked then false else old(hasAttemptedComplete)
    {
      understandsFloodRisk := checked;
      if checked {
        hasAttemptedComplete := false;
      }
    }

    /** The checkbox's label flips the tick. */
    method ToggleUnderstands()
      requires Valid() && !ShowsCompletion()
      modifies this`understandsFloodRisk, this`hasAttemptedComplete
      ensures Valid() && understandsFloodRisk == !old(understandsFloodRisk)
      ensures hasAttemptedComplete == if understandsFloodRisk then false else old(hasAttemptedComplete)
    {
      SetUnderstands(!understandsFloodRisk);
    }

    /**
     * A click on "Complete This Section" on the last step: with the tick given it
     * completes the section; otherwise the disabled button lets the click through to
     * its wrapper, which records the attempt and so shows the reminder.
     */
    method ClickComplete()
      requires Valid() && currentStep == LastStep && !ShowsCompletion()
      modifies this`hasCompletedSection, this`hasAttemptedComplete
      ensures Valid()
      ensures old(understandsFloodRisk) ==> hasCompletedSection && ShowsCompletion() && hasAttemptedComplete == old(hasAttemptedComplete)
      ensures !old(understandsFloodRisk) ==> hasAttemptedComplete && ShowsTickReminder() && hasCompletedSection == old(hasCompletedSection)
    {
      if understandsFloodRisk {
        hasCompletedSection := true;
      } else {
        hasAttemptedComplete := true;
      }
    }
  }
}
