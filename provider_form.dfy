/** The provider form: its validation schema as a list of failing fields, the
    default values built from optional initial data, and the submit label.
    String lengths are counted in characters; the email check is the
    parameter `isEmail`. */
module ProviderForm {
  import opened Wrappers
  import opened RecordList

  /** The values the form holds and submits. */
  datatype FormValues = FormValues(
    name: string,
    email: string,
    phone: string,
    serviceCategory: string,
    location: string,
    status: string,
    verified: bool,
    description: string,
    avatarUrl: string,
    hourlyRate: real)

  datatype Field = Name | Email | Phone | ServiceCategory | Location | StatusField | HourlyRate

  /** The schema's message for a failing field; the status enum uses the
      validation library's own text, which is not part of this model. */
  function Message(f: Field): Option<string> {
    match f
    case Name => Some("Name must be at least 2 characters")
    case Email => Some("Please enter a valid email address")
    case Phone => Some("Please enter a valid phone number")
    case ServiceCategory => Some("Please select a service category")
    case Location => Some("Please enter a valid location")
    case StatusField => None
    case HourlyRate => Some("Hourly rate must be a positive number")
  }

  predicate IsStatus(s: string) {
    s == "active" || s == "pending" || s == "inactive"
  }

  /** The reference reading of the schema: every constraint holds. */
  predicate Valid(v: FormValues, isEmail: string -> bool) {
    && |v.name| >= 2
    && isEmail(v.email)
    && |v.phone| >= 10
    && |v.serviceCategory| >= 1
    && |v.location| >= 2
    && IsStatus(v.status)
    && v.hourlyRate >= 0.0
  }

  /** The schema's fields in order. */
  const SchemaFields: seq<Field> := [Name, Email, Phone, ServiceCategory, Location, StatusField, HourlyRate]

  /** The constraint on one field does not hold. */
  predicate Fails(v: FormValues, f: Field, isEmail: string -> bool) {
    match f
    case Name => |v.name| < 2
    case Email => !isEmail(v.email)
    case Phone => |v.phone| < 10
    case ServiceCategory => |v.serviceCategory| < 1
    case Location => |v.location| < 2
    case StatusField => !IsStatus(v.status)
    case HourlyRate => v.hourlyRate < 0.0
  }

  /** The fields the schema rejects, in schema order. */
  function FieldErrors(v: FormValues, isEmail: string -> bool): (r: seq<Field>)
    ensures forall f :: f in r <==> Fails(v, f, isEmail)
    ensures IsSubsequence(r, SchemaFields)
  {
    assert forall f: Field :: f in SchemaFields by {
      forall f: Field ensures f in SchemaFields { SchemaListsField(f); }
    }
    FilterIsSubsequence(SchemaFields, (f: Field) => Fails(v, f, isEmail));
    Filter(SchemaFields, (f: Field) => Fails(v, f, isEmail))
  }

  lemma SchemaListsField(f: Field)
    ensures f in SchemaFields
  {
    match f
    case Name => assert SchemaFields[0] == f;
    case Email => assert SchemaFields[1] == f;
    case Phone => assert SchemaFields[2] == f;
    case ServiceCategory => assert SchemaFields[3] == f;
    case Location => assert SchemaFields[4] == f;
    case StatusField => assert SchemaFields[5] == f;
    case HourlyRate => assert SchemaFields[6] == f;
  }

  /** The form is accepted exactly when no field is rejected. */
  lemma ValidIffNoErrors(v: FormValues, isEmail: string -> bool)
    ensures FieldErrors(v, isEmail) == [] <==> Valid(v, isEmail)
  {
    var r := FieldErrors(v, isEmail);
    if r != [] {
      assert Fails(v, r[0], isEmail);
    }
    if !Valid(v, isEmail) {
      var f :| f in [Name, Email, Phone, ServiceCategory, Location, StatusField, HourlyRate] && Fails(v, f, isEmail);
      assert f in r;
    }
  }

  /** A negative rate, a one-character name or a nine-character phone number
      each reject the form, whatever the other fields hold. */
  lemma OneBadFieldRejects(v: FormValues, isEmail: string -> bool)
    requires v.hourlyRate < 0.0 || |v.name| == 1 || |v.phone| == 9
    ensures !Valid(v, isEmail)
    ensures v.hourlyRate < 0.0 ==> HourlyRate in FieldErrors(v, isEmail)
    ensures |v.name| == 1 ==> Name in FieldErrors(v, isEmail)
    ensures |v.phone| == 9 ==> Phone in FieldErrors(v, isEmail)
  {
    assert Fails(v, HourlyRate, isEmail) || Fails(v, Name, isEmail) || Fails(v, Phone, isEmail);
  }

  /** `Partial<ProviderFormValues>`: each field may be missing (`None`);
      a missing or `null` avatar URL is `None`. */
  datatype Partial = Partial(
    name: Option<string>,
    email: Option<string>,
    phone: Option<string>,
    serviceCategory: Option<string>,
    location: Option<string>,
    status: Option<string>,
    verified: Option<bool>,
    description: Option<string>,
    avatarUrl: Option<string>,
    hourlyRate: Option<real>)

  /** `x || fallback` for an optional string. */
  function OrString(x: Option<string>, fallback: string): (r: string)
    ensures x.Some? && x.value != "" ==> r == x.value
    ensures x.None? || x.value == "" ==> r == fallback
  {
    if x.Some? && x.value != "" then x.value else fallback
  }

  /** `defaultValues`: every truthy supplied value, and otherwise "" for the
      text fields, "pending" for the status, false and 0. */
  function Defaults(initial: Option<Partial>): (r: FormValues)
    ensures initial.None? ==> r == FormValues("", "", "", "", "", "pending", false, "", "", 0.0)
    ensures initial.Some? ==> var p := initial.value;
      && r.name == OrString(p.name, "") && r.email == OrString(p.email, "")
      && r.phone == OrString(p.phone, "") && r.serviceCategory == OrString(p.serviceCategory, "")
      && r.location == OrString(p.location, "") && r.status == OrString(p.status, "pending")
      && r.verified == (p.verified == Some(true))
      && r.description == OrString(p.description, "") && r.avatarUrl == OrString(p.avatarUrl, "")
      && r.hourlyRate == (if p.hourlyRate.Some? then p.hourlyRate.value else 0.0)
  {
    match initial
    case None => FormValues("", "", "", "", "", "pending", false, "", "", 0.0)
    case Some(p) =>
      FormValues(OrString(p.name, ""), OrString(p.email, ""), OrString(p.phone, ""),
                 OrString(p.serviceCategory, ""), OrString(p.location, ""),
                 OrString(p.status, "pending"),
                 if p.verified.Some? && p.verified.value then true else false,
                 OrString(p.description, ""), OrString(p.avatarUrl, ""),
                 if p.hourlyRate.Some? && p.hourlyRate.value != 0.0 then p.hourlyRate.value else 0.0)
  }

  /** The form filled in from a complete set of values. */
  function ToPartial(v: FormValues): Partial {
    Partial(Some(v.name), Some(v.email), Some(v.phone), Some(v.serviceCategory), Some(v.location),
            Some(v.status), Some(v.verified), Some(v.description), Some(v.avatarUrl), Some(v.hourlyRate))
  }

  /** Opening the form on a provider's own values shows those values, except
      that an empty status becomes "pending". */
  lemma DefaultsRoundTrip(v: FormValues)
    ensures v.status != "" ==> Defaults(Some(ToPartial(v))) == v
    ensures v.status == "" ==> Defaults(Some(ToPartial(v))) == v.(status := "pending")
  {
  }

  /** The blank form cannot be submitted: its name is empty. */
  lemma BlankFormInvalid(isEmail: string -> bool)
    ensures Name in FieldErrors(Defaults(None), isEmail)
    ensures !Valid(Defaults(None), isEmail)
  {
  }

  /** The submit button's text. */
  function SubmitLabel(initial: Option<Partial>): (r: string)
    ensures r == "Update Provider" <==> initial.Some? && initial.value.name.Some? && initial.value.name.value != ""
    ensures r == "Update Provider" || r == "Add Provider"
  {
    if initial.Some? && initial.value.name.Some? && initial.value.name.value != "" then "Update Provider"
    else "Add Provider"
  }
}
