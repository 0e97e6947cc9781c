/**
 * The property schemas: map coordinates, the property summary, the property
 * address, and the property record the back end sends with its assessment
 * attributes.
 */
module PropertySchema {
  import opened Wrappers
  import opened Zod
  import AddressSchema

  datatype CoordinatesInput = CoordinatesInput(latitude: Field<real>, longitude: Field<real>)

  /** `propertyCoordinatesSchema`. */
  predicate ValidCoordinates(c: CoordinatesInput) {
    && c.latitude.Given? && -90.0 <= c.latitude.value <= 90.0
    && c.longitude.Given? && -180.0 <= c.longitude.value <= 180.0
  }

  /** The poles and the antimeridian are on the map; a step past them is not. */
  lemma CoordinateBounds(lat: real, lon: real)
    ensures ValidCoordinates(CoordinatesInput(Given(lat), Given(lon))) <==> -90.0 <= lat <= 90.0 && -180.0 <= lon <= 180.0
    ensures ValidCoordinates(CoordinatesInput(Given(90.0), Given(-180.0)))
    ensures !ValidCoordinates(CoordinatesInput(Given(90.5), Given(0.0)))
  {
  }

  datatype PropertyInfoInput = PropertyInfoInput(
    id: Field<string>,
    emoji: Field<string>,
    name: Field<string>,
    address: Field<string>,
    city: Field<string>,
    state: Field<string>,
    zip: Field<string>,
    authority: Field<string>,
    floodZone: Field<string>,
    coordinates: Field<CoordinatesInput>)

  /** `propertyInfoSchema`: every text field non-empty, the state code at most two characters. */
  predicate ValidPropertyInfo(x: PropertyInfoInput) {
    && NonEmptyGiven(x.id) && NonEmptyGiven(x.emoji) && NonEmptyGiven(x.name) && NonEmptyGiven(x.address)
    && NonEmptyGiven(x.city) && LengthGiven(x.state, 1, 2) && NonEmptyGiven(x.zip)
    && NonEmptyGiven(x.authority) && NonEmptyGiven(x.floodZone)
    && x.coordinates.Given? && ValidCoordinates(x.coordinates.value)
  }

  /** A state code of three or more characters is refused. */
  lemma LongStateRejected(x: PropertyInfoInput)
    requires x.state.Given? && |x.state.value| > 2
    ensures !ValidPropertyInfo(x)
  {
  }

  /** An empty text field, or missing coordinates, refuses the property information. */
  lemma EmptyInfoFieldRejected(x: PropertyInfoInput)
    requires || !NonEmptyGiven(x.id) || !NonEmptyGiven(x.name) || !NonEmptyGiven(x.address)
             || !NonEmptyGiven(x.city) || !NonEmptyGiven(x.zip) || !NonEmptyGiven(x.authority)
             || !NonEmptyGiven(x.floodZone) || !x.coordinates.Given?
    ensures !ValidPropertyInfo(x)
  {
  }

  /** `propertyAddressSchema`: the address record, except that a left-out id is 0. */
  predicate ValidPropertyAddress(x: AddressSchema.AddressInput) {
    (x.id.Missing? || NonNegIntGiven(x.id)) && NonNegIntGiven(x.propertyId) && AddressSchema.RequiredLines(x)
  }

  function ParsePropertyAddress(x: AddressSchema.AddressInput): (r: Option<AddressSchema.AddressDto>)
    ensures r.Some? <==> ValidPropertyAddress(x)
  {
    if !ValidPropertyAddress(x) then None
    else AddressSchema.Parse(x.(id := WithDefault(x.id, 0.0)))
  }

  /** The property address accepts every back-end address unchanged, and also one without an id, as id 0. */
  lemma PropertyAddressDefaultsId(x: AddressSchema.AddressInput)
    ensures AddressSchema.Valid(x) ==> ParsePropertyAddress(x) == AddressSchema.Parse(x)
    ensures x.id.Missing? ==>
      (ParsePropertyAddress(x).Some? <==> NonNegIntGiven(x.propertyId) && AddressSchema.RequiredLines(x))
    ensures x.id.Missing? && ParsePropertyAddress(x).Some? ==> ParsePropertyAddress(x).value.id == 0
  {
  }

  datatype AdditionalAttribute = AdditionalAttribute(id: nat, attributeId: nat, questionCode: string, value: string)

  datatype AdditionalAttributeInput = AdditionalAttributeInput(id: Field<real>, attributeId: Field<real>, questionCode: Field<string>, value: Field<string>)

  /**
   * An assessment answer. `answeredAt` is given as whatever is coerced to a date:
   * `Some(t)` for one that coerces to the timestamp `t`, `None` for one that
   * does not make a valid date.
   */
  datatype PropertyAttribute = PropertyAttribute(
    id: nat,
    propertyId: nat,
    isAssessmentCompleted: bool,
    questionCode: string,
    value: string,
    answeredAt: Option<int>,
    additionalAttributes: seq<AdditionalAttribute>)

  datatype PropertyAttributeInput = PropertyAttributeInput(
    id: Field<real>,
    propertyId: Field<real>,
    isAssessmentCompleted: Field<bool>,
    questionCode: Field<string>,
    value: Field<string>,
    answeredAt: Field<Option<int>>,
    additionalAttributes: Field<seq<AdditionalAttributeInput>>)

  datatype PropertyDto = PropertyDto(
    id: nat,
    customerId: nat,
    isAssessmentCompleted: bool,
    address: AddressSchema.AddressDto,
    attributes: seq<PropertyAttribute>)

  datatype PropertyDtoInput = PropertyDtoInput(
    id: Field<real>,
    customerId: Field<real>,
    isAssessmentCompleted: Field<bool>,
    address: Field<AddressSchema.AddressInput>,
    attributes: Field<seq<PropertyAttributeInput>>)

  /** A question code of 1 to 300 characters and a non-empty answer, as both attribute kinds require. */
  predicate ValidAnswer(questionCode: Field<string>, value: Field<string>) {
    LengthGiven(questionCode, 1, 300) && NonEmptyGiven(value)
  }

  predicate ValidAdditionalAttribute(x: AdditionalAttributeInput) {
    NonNegIntGiven(x.id) && NonNegIntGiven(x.attributeId) && ValidAnswer(x.questionCode, x.value)
  }

  predicate ValidAttribute(x: PropertyAttributeInput) {
    && NonNegIntGiven(x.id) && NonNegIntGiven(x.propertyId) && x.isAssessmentCompleted.Given?
    && ValidAnswer(x.questionCode, x.value)
    && !(x.answeredAt.Given? && x.answeredAt.value.None?)
    && MissingOrGiven(x.additionalAttributes)
    && (x.additionalAttributes.Given? ==>
          forall i :: 0 <= i < |x.additionalAttributes.value| ==> ValidAdditionalAttribute(x.additionalAttributes.value[i]))
  }

  /** `PropertyDtoSchema` accepts `x`. */
  predicate ValidPropertyDto(x: PropertyDtoInput) {
    && NonNegIntGiven(x.id) && NonNegIntGiven(x.customerId) && x.isAssessmentCompleted.Given?
    && x.address.Given? && AddressSchema.Valid(x.address.value)
    && MissingOrGiven(x.attributes)
    && (x.attributes.Given? ==> forall i :: 0 <= i < |x.attributes.value| ==> ValidAttribute(x.attributes.value[i]))
  }

  function ParseAdditionalAttribute(x: AdditionalAttributeInput): AdditionalAttribute
    requires ValidAdditionalAttribute(x)
  {
    AdditionalAttribute(NatOf(x.id.value), NatOf(x.attributeId.value), x.questionCode.value, x.value.value)
  }

  function ParseAttribute(x: PropertyAttributeInput): PropertyAttribute
    requires ValidAttribute(x)
  {
    var extra := if x.additionalAttributes.Given? then x.additionalAttributes.value else [];
    PropertyAttribute(
      NatOf(x.id.value), NatOf(x.propertyId.value), x.isAssessmentCompleted.value, x.questionCode.value, x.value.value,
      if x.answeredAt.Given? then x.answeredAt.value else None,
      seq(|extra|, i requires 0 <= i < |extra| => ParseAdditionalAttribute(extra[i])))
  }

  /** `PropertyDtoSchema.safeParse`: the record with left-out attribute lists as empty lists. */
  function ParsePropertyDto(x: PropertyDtoInput): (r: Option<PropertyDto>)
    ensures r.Some? <==> ValidPropertyDto(x)
  {
    if !ValidPropertyDto(x) then None
    else
      var attrs := if x.attributes.Given? then x.attributes.value else [];
      Some(PropertyDto(
        NatOf(x.id.value), NatOf(x.customerId.value), x.isAssessmentCompleted.value,
        AddressSchema.Parse(x.address.value).value,
        seq(|attrs|, i requires 0 <= i < |attrs| => ParseAttribute(attrs[i]))))
  }

  /** Left-out attribute lists become empty lists; given ones keep their length and answers. */
  lemma AttributesDefaultToEmpty(x: PropertyDtoInput)
    requires ValidPropertyDto(x)
    ensures x.attributes.Missing? ==> ParsePropertyDto(x).value.attributes == []
    ensures x.attributes.Given? ==> |ParsePropertyDto(x).value.attributes| == |x.attributes.value|
    ensures x.attributes.Given? ==> forall i :: 0 <= i < |x.attributes.value| ==>
      var a := ParsePropertyDto(x).value.attributes[i];
      && a.value == x.attributes.value[i].value.value && |a.value| >= 1
      && 1 <= |a.questionCode| <= 300
      && (x.attributes.value[i].additionalAttributes.Missing? ==> a.additionalAttributes == [])
  {
    if x.attributes.Given? {
      var r := ParsePropertyDto(x).value;
      forall i | 0 <= i < |x.attributes.value|
        ensures r.attributes[i] == ParseAttribute(x.attributes.value[i])
      {
      }
    }
  }

  /** One bad attribute, such as an empty answer, refuses the whole record. */
  lemma BadAttributeRejected(x: PropertyDtoInput, i: nat)
    requires x.attributes.Given? && i < |x.attributes.value|
    requires !NonEmptyGiven(x.attributes.value[i].value)
    ensures ParsePropertyDto(x) == None
  {
  }

  /** A `null` attribute list is refused: the default covers only a left-out list. */
  lemma NullAttributesRejected(x: PropertyDtoInput)
    requires x.attributes.Null?
    ensures ParsePropertyDto(x) == None
  {
  }
}
