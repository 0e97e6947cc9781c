/**
 * The "verify your details" step of the property assessment: the personal and
 * property forms with their validation rules, the read-only display of the
 * customer's address and property type, and the edit/cancel/save cycle of each
 * form. The page exists in two versions: one shows the property read-only, the
 * other lets it be edited too.
 */
module VerifyDetails {
  import opened Wrappers
  import opened Text
  import opened Zod
  import opened AddressSchema
  import opened PropertySchema

  /** The personal-information form's values; the policy number may be left out. */
  datatype PersonalForm = PersonalForm(firstName: string, lastName: string, email: string, phoneNumber: string, insureReference: Option<string>)

  /** The property form's values: the address as one line, and the property type, which may be `null` or left out. */
  datatype PropertyForm = PropertyForm(propertyAddress: string, propertyType: Field<string>)

  /** The signed-in user's details the personal form starts from. */
  datatype UserData = UserData(firstName: string, lastName: string, email: string, phoneNumber: string, insureReference: Option<string>)

  /** `personalInfoFormSchema`, with the e-mail format check `isEmail`. */
  predicate ValidPersonalForm(v: PersonalForm, isEmail: string -> bool) {
    && 1 <= |v.firstName| <= 100 && 1 <= |v.lastName| <= 100
    && isEmail(v.email) && |v.email| <= 100
    && 1 <= |v.phoneNumber| <= 100
    && (v.insureReference.Some? ==> |v.insureReference.value| <= 100)
  }

  /** `propertyInfoFormSchema`: an address of 5 to 70 characters; any property type. */
  predicate ValidPropertyForm(v: PropertyForm) {
    5 <= |v.propertyAddress| <= 70
  }

  /** The personal form's starting values: the user's, with a missing policy number as "". */
  function PersonalDefaults(u: UserData): (v: PersonalForm)
    ensures v.insureReference.Some?
    ensures u.insureReference.Some? ==> v.insureReference == u.insureReference
    ensures u.insureReference.None? ==> v.insureReference == Some("")
  {
    PersonalForm(u.firstName, u.lastName, u.email, u.phoneNumber, Some(u.insureReference.GetOr("")))
  }

  /**
   * The untouched personal form passes its schema exactly when the user's own
   * details do; a missing policy number never stands in the way.
   */
  lemma PersonalDefaultsSavable(u: UserData, isEmail: string -> bool)
    ensures ValidPersonalForm(PersonalDefaults(u), isEmail) <==>
      && 1 <= |u.firstName| <= 100 && 1 <= |u.lastName| <= 100
      && isEmail(u.email) && |u.email| <= 100
      && 1 <= |u.phoneNumber| <= 100
      && (u.insureReference.Some? ==> |u.insureReference.value| <= 100)
  {
  }

  /** The property type, whether given, `null` or left out, never decides whether the property form is accepted. */
  lemma PropertyTypeNeverDecides(v: PropertyForm, t: Field<string>)
    ensures ValidPropertyForm(v.(propertyType := t)) == ValidPropertyForm(v)
  {
  }

  /** A JavaScript string value is truthy when given and non-empty. */
  predicate Truthy(f: Field<string>) {
    f.Given? && f.value != ""
  }

  /** The address on one line: the first line, the additional line when there is one, the city and the postcode. */
  function AddressText(a: AddressDto): string {
    a.addressLine
    + (if Truthy(a.additionalAddressLine) then ", " + a.additionalAddressLine.value else "")
    + ", " + a.city + ", " + a.postcode
  }

  /** The text is the parts joined by ", ", the additional line only when it is non-empty. */
  lemma AddressTextParts(a: AddressDto)
    ensures Truthy(a.additionalAddressLine) ==>
      AddressText(a) == a.addressLine + ", " + a.additionalAddressLine.value + ", " + a.city + ", " + a.postcode
    ensures !Truthy(a.additionalAddressLine) ==> AddressText(a) == a.addressLine + ", " + a.city + ", " + a.postcode
    ensures Contains(AddressText(a), a.city) && Contains(AddressText(a), a.postcode)
  {
    var s := AddressText(a);
    var pre := if Truthy(a.additionalAddressLine) then a.addressLine + ", " + a.additionalAddressLine.value else a.addressLine;
    assert s == pre + ", " + a.city + ", " + a.postcode;
    var i := |pre| + 2;
    assert s[i..i + |a.city|] == a.city;
    ContainsAt(s, a.city, i);
    var j := |s| - |a.postcode|;
    assert s[j..j + |a.postcode|] == a.postcode;
    ContainsAt(s, a.postcode, j);
  }

  /** The property form's starting values: the address text, and the first attribute's answer or `null`. */
  function PropertyDefaults(p: PropertyDto): (v: PropertyForm)
    ensures v.propertyAddress == AddressText(p.address)
    ensures v.propertyType.Given? <==> |p.attributes| > 0 && p.attributes[0].value != ""
    ensures v.propertyType.Given? ==> v.propertyType.value == p.attributes[0].value
    ensures !v.propertyType.Given? ==> v.propertyType.Null?
  {
    PropertyForm(AddressText(p.address),
      if |p.attributes| > 0 && p.attributes[0].value != "" then Given(p.attributes[0].value) else Null)
  }

  /**
   * An address the back-end schema accepts always gives a default long enough for
   * the property form (at least 7 characters); it passes exactly when it is at most
   * 70 characters, so a long address makes the untouched form unsavable.
   */
  lemma DefaultAddressLength(p: PropertyDto)
    requires LinesNonEmpty(p.address)
    ensures |PropertyDefaults(p).propertyAddress| >= 7
    ensures ValidPropertyForm(PropertyDefaults(p)) <==> |AddressText(p.address)| <= 70
  {
  }

  /** `x || "—"` for a displayed text. */
  function OrDash(f: Field<string>): (s: string)
    ensures Truthy(f) ==> s == f.value
    ensures !Truthy(f) ==> s == "—"
  {
    if Truthy(f) then f.value else "—"
  }

  function FieldOf(o: Option<string>): Field<string> {
    if o.Some? then Given(o.value) else Missing
  }

  /** The policy number as displayed. */
  function PolicyNumberText(v: PersonalForm): string {
    OrDash(FieldOf(v.insureReference))
  }

  /** The read-only property type: the first attribute's answer with its first character upper-cased, or "—". */
  function PropertyTypeText(p: PropertyDto): string {
    if |p.attributes| == 0 || p.attributes[0].value == "" then "—"
    else var v := p.attributes[0].value; [UpperChar(v[0])] + v[1..]
  }

  /** A dash stands exactly for a missing or empty answer; otherwise only the first character changes. */
  lemma PropertyTypeTextShape(p: PropertyDto)
    ensures |p.attributes| == 0 || p.attributes[0].value == "" ==> PropertyTypeText(p) == "—"
    ensures |p.attributes| > 0 && p.attributes[0].value != "" ==>
      var v := p.attributes[0].value;
      var s := PropertyTypeText(p);
      |s| == |v| && s[0] == UpperChar(v[0]) && s[1..] == v[1..]
  {
  }

  /** A name such as "detached" is shown as "Detached", and one already capitalised is unchanged. */
  lemma CapitalisationExamples(p: PropertyDto)
    requires |p.attributes| > 0
    ensures p.attributes[0].value == "detached" ==> PropertyTypeText(p) == "Detached"
    ensures p.attributes[0].value == "Flat" ==> PropertyTypeText(p) == "Flat"
  {
  }

  /**
   * The personal-information card: the form's default and current values, and
   * whether it is being edited. The read-only view shows the current values.
   */
  class PersonalInfoCard {
    const defaults: PersonalForm
    var values: PersonalForm
    var isEditing: bool

    constructor (user: UserData)
      ensures defaults == PersonalDefaults(user) && values == defaults && !isEditing
    {
      defaults := PersonalDefaults(user);
      values := PersonalDefaults(user);
      isEditing := false;
    }

    /** The pencil button flips editing; leaving this way keeps the values typed so far. */
    method ToggleEditing()
      modifies this`isEditing
      ensures isEditing == !old(isEditing)
    {
      isEditing := !isEditing;
    }

    /** "Something's not right" opens the form. */
    method StartEditing()
      modifies this`isEditing
      ensures isEditing
    {
      isEditing := true;
    }

    method Edit(v: PersonalForm)
      modifies this`values
      ensures values == v
    {
      values := v;
    }

    /** "Cancel" puts back the default values and closes the form. */
    method Cancel()
      modifies this`values, this`isEditing
      ensures values == defaults && !isEditing
    {
      values := defaults;
      isEditing := false;
    }

    /** "Save" closes the form only when the values pass the schema; otherwise the form stays open with them. */
    method Save(isEmail: string -> bool)
      modifies this`isEditing
      ensures isEditing == (old(isEditing) && !ValidPersonalForm(values, isEmail))
      ensures !ValidPersonalForm(values, isEmail) ==> isEditing == old(isEditing)
    {
      if ValidPersonalForm(values, isEmail) {
        isEditing := false;
      }
    }
  }

  /** The property card of the editable version, with the same cycle. */
  class PropertyInfoCard {
    const defaults: PropertyForm
    var values: PropertyForm
    var isEditing: bool

    constructor (property: PropertyDto)
      ensures defaults == PropertyDefaults(property) && values == defaults && !isEditing
    {
      defaults := PropertyDefaults(property);
      values := PropertyDefaults(property);
      isEditing := false;
    }

    method ToggleEditing()
      modifies this`isEditing
      ensures isEditing == !old(isEditing)
    {
      isEditing := !isEditing;
    }

    method Edit(v: PropertyForm)
      modifies this`values
      ensures values == v
    {
      values := v;
    }

    method Cancel()
      modifies this`values, this`isEditing
      ensures values == defaults && !isEditing
    {
      values := defaults;
      isEditing := false;
    }

    method Save()
      modifies this`isEditing
      ensures isEditing == (old(isEditing) && !ValidPropertyForm(values))
    {
      if ValidPropertyForm(values) {
        isEditing := false;
      }
    }

    /** The property type as displayed. */
    function TypeText(): string
      reads this
    {
      OrDash(values.propertyType)
    }
  }
}
