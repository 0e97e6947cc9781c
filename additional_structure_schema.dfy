/**
 * The schema of an additional structure (garage, shed or outbuilding) on a
 * property: which objects it accepts and the record it produces.
 */
module AdditionalStructureSchema {
  import opened Wrappers
  import opened Zod

  /** `BuildingTypeEnum`. */
  datatype BuildingType = Garage | Shed | Outbuilding

  /** The four optional airbrick counters. */
  datatype Airbricks = Airbricks(singleAirbrick: Option<nat>, doubleAirbrick: Option<nat>, weepVent: Option<nat>, irregularAirbrick: Option<nat>)

  /** A parsed structure; the `type` property is `structureType` here. */
  datatype AdditionalStructure = AdditionalStructure(
    name: string,
    structureType: BuildingType,
    isConnected: bool,
    numberOfDoors: nat,
    airbricks: Option<Airbricks>)

  datatype AirbricksInput = AirbricksInput(singleAirbrick: Field<real>, doubleAirbrick: Field<real>, weepVent: Field<real>, irregularAirbrick: Field<real>)

  datatype StructureInput = StructureInput(
    name: Field<string>,
    structureType: Field<string>,
    isConnected: Field<bool>,
    numberOfDoors: Field<real>,
    airbricks: Field<AirbricksInput>)

  predicate IsBuildingTypeName(s: string) {
    s == "garage" || s == "shed" || s == "outbuilding"
  }

  function BuildingTypeOf(s: string): (t: BuildingType)
    requires IsBuildingTypeName(s)
    ensures BuildingTypeName(t) == s
  {
    if s == "garage" then Garage else if s == "shed" then Shed else Outbuilding
  }

  function BuildingTypeName(t: BuildingType): string {
    match t
    case Garage => "garage"
    case Shed => "shed"
    case Outbuilding => "outbuilding"
  }

  /** `z.number().int().nonnegative().optional()`: absent, or a non-negative integer. */
  predicate ValidCounter(f: Field<real>) {
    f.Missing? || (f.Given? && IsNonNegInt(f.value))
  }

  predicate ValidAirbricks(a: AirbricksInput) {
    ValidCounter(a.singleAirbrick) && ValidCounter(a.doubleAirbrick) && ValidCounter(a.weepVent) && ValidCounter(a.irregularAirbrick)
  }

  /** `AdditionalStructureSchema` accepts `x`. */
  predicate Valid(x: StructureInput) {
    && x.name.Given? && 1 <= |x.name.value| <= 100
    && x.structureType.Given? && IsBuildingTypeName(x.structureType.value)
    && x.isConnected.Given?
    && (x.numberOfDoors.Missing? || (x.numberOfDoors.Given? && IsNonNegInt(x.numberOfDoors.value)))
    && (x.airbricks.Missing? || (x.airbricks.Given? && ValidAirbricks(x.airbricks.value)))
  }

  function CounterOf(f: Field<real>): Option<nat>
    requires ValidCounter(f)
  {
    if f.Given? then Some(NatOf(f.value)) else None
  }

  function ParseAirbricks(a: AirbricksInput): Airbricks
    requires ValidAirbricks(a)
  {
    Airbricks(CounterOf(a.singleAirbrick), CounterOf(a.doubleAirbrick), CounterOf(a.weepVent), CounterOf(a.irregularAirbrick))
  }

  /** `safeParse`: the structure, with 0 doors when the count was left out, or `None` when rejected. */
  function Parse(x: StructureInput): (r: Option<AdditionalStructure>)
    ensures r.Some? <==> Valid(x)
  {
    if !Valid(x) then None
    else Some(AdditionalStructure(
      x.name.value,
      BuildingTypeOf(x.structureType.value),
      x.isConnected.value,
      if x.numberOfDoors.Given? then NatOf(x.numberOfDoors.value) else 0,
      if x.airbricks.Given? then Some(ParseAirbricks(x.airbricks.value)) else None))
  }

  /** The record a structure is handed to the schema as: every property given, optional ones left out when empty. */
  function CounterInput(c: Option<nat>): Field<real> {
    if c.Some? then Given(c.value as real) else Missing
  }

  function InputOf(s: AdditionalStructure): StructureInput {
    StructureInput(
      Given(s.name),
      Given(BuildingTypeName(s.structureType)),
      Given(s.isConnected),
      Given(s.numberOfDoors as real),
      if s.airbricks.Some? then
        var a := s.airbricks.value;
        Given(AirbricksInput(CounterInput(a.singleAirbrick), CounterInput(a.doubleAirbrick), CounterInput(a.weepVent), CounterInput(a.irregularAirbrick)))
      else Missing)
  }

  /** A record passes the schema exactly when its name is 1 to 100 characters. */
  predicate NameInRange(s: AdditionalStructure) {
    1 <= |s.name| <= 100
  }

  /** Handing a record to the schema gives it back exactly when its name is within bounds, and is refused otherwise. */
  lemma ParseInputOf(s: AdditionalStructure)
    ensures NameInRange(s) ==> Parse(InputOf(s)) == Some(s)
    ensures !NameInRange(s) ==> Parse(InputOf(s)) == None
  {
    if NameInRange(s) {
      var x := InputOf(s);
      assert x.numberOfDoors.value.Floor == s.numberOfDoors;
      if s.airbricks.Some? {
        var a := s.airbricks.value;
        assert ParseAirbricks(x.airbricks.value) == a by {
          CounterRoundTrip(a.singleAirbrick);
          CounterRoundTrip(a.doubleAirbrick);
          CounterRoundTrip(a.weepVent);
          CounterRoundTrip(a.irregularAirbrick);
        }
      }
      BuildingTypeRoundTrip(s.structureType);
    }
  }

  lemma CounterRoundTrip(c: Option<nat>)
    ensures ValidCounter(CounterInput(c)) && CounterOf(CounterInput(c)) == c
  {
    if c.Some? {
      assert (c.value as real).Floor == c.value;
    }
  }

  lemma BuildingTypeRoundTrip(t: BuildingType)
    ensures IsBuildingTypeName(BuildingTypeName(t)) && BuildingTypeOf(BuildingTypeName(t)) == t
  {
  }

  /** An empty name and a name over 100 characters are both refused. */
  lemma NameLengthRejected(x: StructureInput)
    requires x.name.Given? && (|x.name.value| == 0 || |x.name.value| > 100)
    ensures Parse(x) == None
  {
  }

  /** A type other than garage, shed or outbuilding is refused. */
  lemma UnknownTypeRejected(x: StructureInput)
    requires x.structureType.Given? && !IsBuildingTypeName(x.structureType.value)
    ensures Parse(x) == None
  {
  }

  /** A negative or fractional airbrick count is refused, though the counter itself may be left out. */
  lemma NegativeCounterRejected(x: StructureInput)
    requires x.airbricks.Given? && x.airbricks.value.weepVent.Given?
    requires x.airbricks.value.weepVent.value < 0.0 || x.airbricks.value.weepVent.value.Floor as real != x.airbricks.value.weepVent.value
    ensures Parse(x) == None
  {
  }

  /** `isConnected` is required: leaving it out or passing `null` is refused. */
  lemma IsConnectedRequired(x: StructureInput)
    requires !x.isConnected.Given?
    ensures Parse(x) == None
  {
  }
}
