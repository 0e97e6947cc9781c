/**
 * The customer record the back end sends (`CustomerInfoSchema`). The e-mail
 * format check belongs to the validation library and is a parameter here.
 */
module CustomerSchema {
  import opened Zod
  import PropertySchema

  datatype CustomerInput = CustomerInput(
    id: Field<real>,
    sid: Field<string>,
    firstName: Field<string>,
    lastName: Field<string>,
    email: Field<string>,
    phoneNumber: Field<string>,
    insureReference: Field<string>,
    password: Field<string>,
    isReminderActive: Field<bool>,
    isNotificationActive: Field<bool>,
    properties: Field<seq<PropertySchema.PropertyDtoInput>>)

  /** A name or phone number: required, 1 to 100 characters. */
  predicate ValidNameField(f: Field<string>) {
    LengthGiven(f, 1, 100)
  }

  /** `z.string().email().max(100)`, with the format check `isEmail`. */
  predicate ValidEmail(f: Field<string>, isEmail: string -> bool) {
    f.Given? && isEmail(f.value) && |f.value| <= 100
  }

  /** `CustomerInfoSchema` accepts `x`. */
  predicate Valid(x: CustomerInput, isEmail: string -> bool) {
    && NonNegIntGiven(x.id)
    && ValidNameField(x.firstName) && ValidNameField(x.lastName) && ValidNameField(x.phoneNumber)
    && ValidEmail(x.email, isEmail)
    && NullableMaxLength(x.insureReference, 100) && NullableMaxLength(x.password, 100)
    && (x.properties.Given? ==>
          forall i :: 0 <= i < |x.properties.value| ==> PropertySchema.ValidPropertyDto(x.properties.value[i]))
  }

  /** The optional texts may be left out or `null`, and the flags and `sid` never decide acceptance. */
  lemma OptionalFieldsMayBeAbsent(x: CustomerInput, isEmail: string -> bool, sid: Field<string>, reminder: Field<bool>, notification: Field<bool>)
    requires Valid(x, isEmail)
    ensures Valid(x.(insureReference := Null, password := Missing, properties := Null), isEmail)
    ensures Valid(x.(sid := sid, isReminderActive := reminder, isNotificationActive := notification), isEmail)
  {
  }

  /** A reference or password over 100 characters, or an e-mail over 100, is refused even when well-formed. */
  lemma OverlongTextRejected(x: CustomerInput, isEmail: string -> bool)
    requires (x.insureReference.Given? && |x.insureReference.value| > 100)
          || (x.password.Given? && |x.password.value| > 100)
          || (x.email.Given? && |x.email.value| > 100)
    ensures !Valid(x, isEmail)
  {
  }

  /** Every listed property must itself pass the property schema. */
  lemma PropertiesChecked(x: CustomerInput, isEmail: string -> bool, i: nat)
    requires x.properties.Given? && i < |x.properties.value|
    requires !PropertySchema.ValidPropertyDto(x.properties.value[i])
    ensures !Valid(x, isEmail)
  {
  }
}
