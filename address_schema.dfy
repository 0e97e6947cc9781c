/** The address record the back end sends (`AddressDtoSchema`). */
module AddressSchema {
  import opened Wrappers
  import opened Zod

  /** A parsed address; the additional line keeps whether it was left out, `null` or given. */
  datatype AddressDto = AddressDto(
    id: nat,
    propertyId: nat,
    addressLine: string,
    additionalAddressLine: Field<string>,
    city: string,
    county: string,
    postcode: string)

  datatype AddressInput = AddressInput(
    id: Field<real>,
    propertyId: Field<real>,
    addressLine: Field<string>,
    additionalAddressLine: Field<string>,
    city: Field<string>,
    county: Field<string>,
    postcode: Field<string>)

  /** The four text lines an address must carry, each non-empty. */
  predicate RequiredLines(x: AddressInput) {
    NonEmptyGiven(x.addressLine) && NonEmptyGiven(x.city) && NonEmptyGiven(x.county) && NonEmptyGiven(x.postcode)
  }

  /** `AddressDtoSchema` accepts `x`; the additional line may be anything a string property can be. */
  predicate Valid(x: AddressInput) {
    NonNegIntGiven(x.id) && NonNegIntGiven(x.propertyId) && RequiredLines(x)
  }

  function Parse(x: AddressInput): (r: Option<AddressDto>)
    ensures r.Some? <==> Valid(x)
  {
    if !Valid(x) then None
    else Some(AddressDto(NatOf(x.id.value), NatOf(x.propertyId.value), x.addressLine.value, x.additionalAddressLine,
                         x.city.value, x.county.value, x.postcode.value))
  }

  /** An address as it is handed to the schema. */
  function InputOf(a: AddressDto): AddressInput {
    AddressInput(Given(a.id as real), Given(a.propertyId as real), Given(a.addressLine), a.additionalAddressLine,
                 Given(a.city), Given(a.county), Given(a.postcode))
  }

  predicate LinesNonEmpty(a: AddressDto) {
    |a.addressLine| >= 1 && |a.city| >= 1 && |a.county| >= 1 && |a.postcode| >= 1
  }

  /** An address survives the schema unchanged exactly when its four required lines are non-empty. */
  lemma ParseInputOf(a: AddressDto)
    ensures LinesNonEmpty(a) ==> Parse(InputOf(a)) == Some(a)
    ensures !LinesNonEmpty(a) ==> Parse(InputOf(a)) == None
  {
    assert (a.id as real).Floor == a.id;
    assert (a.propertyId as real).Floor == a.propertyId;
  }

  /** The additional line never decides acceptance: left out, `null` or any string. */
  lemma AdditionalLineOptional(x: AddressInput, line: Field<string>)
    ensures Valid(x.(additionalAddressLine := line)) == Valid(x)
  {
  }

  /** An empty or missing address line, city, county or postcode is refused. */
  lemma MissingLineRejected(x: AddressInput)
    requires !RequiredLines(x)
    ensures Parse(x) == None
  {
  }
}
