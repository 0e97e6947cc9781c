/**
 * The flood-kit item schema (`floodKitItemSchema`): which objects it accepts, and
 * the item record it produces, with its defaults filled in. The record is the
 * `FloodKitItemData` every flood-kit component works on.
 */
module FloodKitSchema {
  import opened Wrappers
  import opened Zod

  datatype Priority = Low | Medium | High

  datatype InstallationStep = InstallationStep(step: nat, description: string, isCompleted: bool)

  /** A parsed flood-kit item; the installation date is an opaque timestamp. */
  datatype FloodKitItem = FloodKitItem(
    id: nat,
    title: string,
    description: string,
    videoUrl: string,
    imageUrl: Option<string>,
    size: string,
    installed: bool,
    installationDate: Option<int>,
    rating: string,
    priority: Priority,
    installationSteps: seq<InstallationStep>)

  /** One entry of `installationSteps` as handed to the schema. */
  datatype StepInput = StepInput(step: Field<real>, description: Field<string>, isCompleted: Field<bool>)

  /** An object as handed to the schema; `otherKeys` are the properties the schema does not name. */
  datatype FloodKitItemInput = FloodKitItemInput(
    id: Field<real>,
    title: Field<string>,
    description: Field<string>,
    videoUrl: Field<string>,
    imageUrl: Field<string>,
    size: Field<string>,
    installed: Field<bool>,
    installationDate: Field<int>,
    rating: Field<string>,
    priority: Field<string>,
    installationSteps: Field<seq<StepInput>>,
    otherKeys: set<string>)

  /** `z.enum(["low", "medium", "high"])`. */
  predicate IsPriorityName(s: string) {
    s == "low" || s == "medium" || s == "high"
  }

  function PriorityOf(s: string): Priority
    requires IsPriorityName(s)
  {
    if s == "low" then Low else if s == "medium" then Medium else High
  }

  predicate ValidStep(s: StepInput) {
    && s.step.Given? && IsNonNegInt(s.step.value)
    && NonEmptyGiven(s.description)
    && MissingOrGiven(s.isCompleted)
  }

  /** The schema accepts `x`. */
  predicate Valid(x: FloodKitItemInput) {
    && x.id.Given? && IsNonNegInt(x.id.value)
    && NonEmptyGiven(x.title)
    && NonEmptyGiven(x.description)
    && NonEmptyGiven(x.videoUrl)
    && (x.imageUrl.Missing? || NonEmptyGiven(x.imageUrl))
    && NonEmptyGiven(x.size)
    && MissingOrGiven(x.installed)
    && MissingOrGiven(x.installationDate)
    && NonEmptyGiven(x.rating)
    && (x.priority.Missing? || (x.priority.Given? && IsPriorityName(x.priority.value)))
    && x.installationSteps.Given?
    && (forall i :: 0 <= i < |x.installationSteps.value| ==> ValidStep(x.installationSteps.value[i]))
    && x.otherKeys == {}
  }

  function ParseStep(s: StepInput): InstallationStep
    requires ValidStep(s)
  {
    InstallationStep(NatOf(s.step.value), s.description.value, WithDefault(s.isCompleted, false).value)
  }

  /** `floodKitItemSchema.safeParse(x)`: the item with defaults applied, or `None` when rejected. */
  function Parse(x: FloodKitItemInput): (r: Option<FloodKitItem>)
    ensures r.Some? <==> Valid(x)
  {
    if !Valid(x) then None
    else
      var steps := x.installationSteps.value;
      Some(FloodKitItem(
        NatOf(x.id.value),
        x.title.value,
        x.description.value,
        x.videoUrl.value,
        if x.imageUrl.Given? then Some(x.imageUrl.value) else None,
        x.size.value,
        WithDefault(x.installed, false).value,
        if x.installationDate.Given? then Some(x.installationDate.value) else None,
        x.rating.value,
        if x.priority.Given? then PriorityOf(x.priority.value) else Medium,
        seq(|steps|, i requires 0 <= i < |steps| => ParseStep(steps[i]))))
  }

  /** What an accepted item holds: the given values, and where a value was left out, its default. */
  lemma ParseKeepsFields(x: FloodKitItemInput)
    requires Valid(x)
    ensures var it := Parse(x).value;
      && it.id as real == x.id.value
      && it.title == x.title.value && |it.title| >= 1
      && it.description == x.description.value
      && (x.imageUrl.Missing? <==> it.imageUrl.None?)
      && it.installed == (x.installed.Given? && x.installed.value)
      && (x.priority.Missing? ==> it.priority == Medium)
      && (x.priority.Given? ==> it.priority == PriorityOf(x.priority.value))
      && |it.installationSteps| == |x.installationSteps.value|
      && forall i :: 0 <= i < |it.installationSteps| ==>
           var s := x.installationSteps.value[i];
           && it.installationSteps[i].step as real == s.step.value
           && it.installationSteps[i].description == s.description.value
           && it.installationSteps[i].isCompleted == (s.isCompleted.Given? && s.isCompleted.value)
  {
  }

  /** The schema is strict: a property it does not name is refused, whatever the rest holds. */
  lemma StrictRejectsUnknownKeys(x: FloodKitItemInput, k: string)
    requires k in x.otherKeys
    ensures Parse(x) == None
  {
  }

  /** A negative or fractional id is refused. */
  lemma IdMustBeNonNegativeInteger(x: FloodKitItemInput)
    requires x.id.Given? && (x.id.value < 0.0 || x.id.value.Floor as real != x.id.value)
    ensures Parse(x) == None
  {
  }

  /** An image URL may be left out, but an empty one is refused. */
  lemma EmptyImageUrlRejected(x: FloodKitItemInput)
    requires x.imageUrl == Given("")
    ensures Parse(x) == None
  {
  }

  /** A priority outside low/medium/high is refused. */
  lemma UnknownPriorityRejected(x: FloodKitItemInput)
    requires x.priority.Given? && !IsPriorityName(x.priority.value)
    ensures Parse(x) == None
  {
  }
}
