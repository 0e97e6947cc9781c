/** The property-assessment card of the property overview: steps answered, a progress bar and a button label. */
module PropertyAssessment {
  import opened Wrappers
  import opened Zod
  import opened JsMath
  import AddressSchema
  import opened PropertySchema

  const TotalAssessmentSteps := 10

  /** `Math.min(100, Math.round((completed / 10) * 100))`. */
  function Progress(completed: nat): (p: int)
    ensures 0 <= p <= 100
  {
    var r := RoundedPercent(completed, TotalAssessmentSteps);
    if r.value < 100 then r.value else 100
  }

  /** Each answered step is worth ten points, up to 100. */
  lemma ProgressIsTenPerStep(completed: nat)
    ensures Progress(completed) == if completed <= 10 then 10 * completed else 100
  {
    var r := RoundedPercent(completed, TotalAssessmentSteps);
    assert 20 * r.value - 10 <= 200 * completed < 20 * r.value + 10;
    assert r.value == 10 * completed;
  }

  function ButtonLabel(completed: nat): string {
    if completed == 0 then "Start Assessment"
    else if completed < TotalAssessmentSteps then "Continue Assessment"
    else "Edit Assessment"
  }

  /** The label starts, continues or edits, agreeing with the bar: "Edit" exactly when it is full. */
  lemma LabelAgreesWithProgress(completed: nat)
    ensures ButtonLabel(completed) == "Start Assessment" <==> Progress(completed) == 0
    ensures ButtonLabel(completed) == "Edit Assessment" <==> Progress(completed) == 100
    ensures ButtonLabel(completed) == "Continue Assessment" <==> 0 < Progress(completed) < 100
  {
    ProgressIsTenPerStep(completed);
  }

  /** The steps answered are the property's attributes. */
  function Completed(p: PropertyDto): nat {
    |p.attributes|
  }

  function MockAttribute(i: nat): PropertyAttributeInput
    requires i < 9
  {
    PropertyAttributeInput(Given((i + 1) as real), Given(1.0), Given(false), Given("Q_" + [('1' as int + i) as char]),
                           Given("Yes"), Null, Given([]))
  }

  /** The mock property as handed to the property schema. */
  function MockPropertyInput(): PropertyDtoInput {
    PropertyDtoInput(Given(1.0), Given(123.0), Given(false),
      Given(AddressSchema.AddressInput(Given(10.0), Given(1.0), Given("123 Main St"), Null, Given("Anytown"), Given("Anyshire"), Given("A1 2BC"))),
      Given([MockAttribute(0), MockAttribute(1), MockAttribute(2)]))
  }

  /** The schema accepts the mock property, whose three answers show 30% and "Continue Assessment". */
  lemma MockPropertyShowsThirtyPercent()
    ensures ParsePropertyDto(MockPropertyInput()).Some?
    ensures var p := ParsePropertyDto(MockPropertyInput()).value;
      Completed(p) == 3 && Progress(Completed(p)) == 30 && ButtonLabel(Completed(p)) == "Continue Assessment"
  {
    var x := MockPropertyInput();
    forall i | 0 <= i < 3
      ensures ValidAttribute(x.attributes.value[i])
    {
      assert (((i + 1) as real).Floor) == i + 1;
    }
    assert (10.0).Floor == 10 && (1.0).Floor == 1 && (123.0).Floor == 123;
    assert ValidPropertyDto(x);
    ProgressIsTenPerStep(3);
  }
}
