/**
 * The "Add IT Vendor" page: the raw form becomes a vendor payload, a guard
 * refuses payloads without a name, domain or email before anything is sent,
 * and two fields (`submitting`, `error`) follow the submission through its
 * start, rejection, failed request and success.
 */
module NewVendor {
  import opened Options
  import opened JsString

  /** The mandatory text inputs of the form (`name`, `domain`, `email`). */
  datatype RequiredField = Name | Domain | Email

  /** The optional text inputs of the form. */
  datatype OptionalField = SubDomain | Phone | Website | City | Country | TechStack | Certifications | PartnerStatus

  /** The numeric inputs of the form. */
  datatype NumericField = ExperienceYears | EmployeeStrength | Rating

  /** A named input of the form; `StatusSelect` is the status drop-down. */
  datatype FormField =
    | Required(required: RequiredField)
    | Optional(optional: OptionalField)
    | Numeric(numeric: NumericField)
    | StatusSelect

  /** The submitted form: each input mapped to its text value, as `FormData.get` returns it. */
  type Form = map<FormField, string>

  /** The body POSTed to create a vendor. */
  datatype Payload = Payload(
    name: string,
    domain: string,
    subDomain: Option<string>,
    email: string,
    phone: Option<string>,
    website: Option<string>,
    city: Option<string>,
    country: Option<string>,
    techStack: Option<string>,
    certifications: Option<string>,
    partnerStatus: Option<string>,
    experienceYears: Option<int>,
    employeeStrength: Option<int>,
    status: string,
    rating: Option<int>)

  const DefaultStatus: string := "PENDING"
  const MandatoryMessage: string := "Name, Domain and Email are mandatory."
  const RequestFailedMessage: string := "Failed to create vendor"
  const UnknownErrorMessage: string := "Something went wrong"

  /** `String(formData.get(key) || '')`: the input's text, with an absent input read as empty. */
  function Raw(form: Form, key: FormField): (r: string)
    ensures r == "" <==> !Filled(form, key)
    ensures Filled(form, key) ==> r == form[key]
  {
    if key in form then form[key] else ""
  }

  /** `formData.get(key)` is truthy: the input is present and not empty (whitespace counts as content). */
  predicate Filled(form: Form, key: FormField)
    ensures Filled(form, key) <==> key in form && form[key] != ""
  {
    Truthy(if key in form then Some(form[key]) else None)
  }

  /** A required text field: the trimmed raw value. */
  function RequiredValue(form: Form, f: RequiredField): (t: string)
    ensures Trimmed(t)
  {
    Trim(Raw(form, Required(f)))
  }

  /** An optional text field: the trimmed raw value, or null when nothing is left (`… .trim() || null`). */
  function OptionalValue(form: Form, f: OptionalField): (o: Option<string>)
    ensures NormalOptional(o)
  {
    var t := Trim(Raw(form, Optional(f)));
    if t == "" then None else Some(t)
  }

  /** A numeric field: `parse` of the raw value when it is filled, otherwise null. `parse` stands for `Number`. */
  function NumericValue(form: Form, f: NumericField, parse: string -> int): (o: Option<int>)
    ensures o.None? <==> Raw(form, Numeric(f)) == ""
    ensures o.Some? ==> o.value == parse(Raw(form, Numeric(f)))
  {
    if Filled(form, Numeric(f)) then Some(parse(form[Numeric(f)])) else None
  }

  /** The status, passed through unchanged, or PENDING when the form gives none. */
  function StatusValue(form: Form): (s: string)
    ensures s != ""
  {
    if Filled(form, StatusSelect) then form[StatusSelect] else DefaultStatus
  }

  /** The shape every payload built from a form has. */
  predicate IsNormalised(p: Payload) {
    Trimmed(p.name) && Trimmed(p.domain) && Trimmed(p.email) &&
    NormalOptional(p.subDomain) && NormalOptional(p.phone) && NormalOptional(p.website) &&
    NormalOptional(p.city) && NormalOptional(p.country) && NormalOptional(p.techStack) &&
    NormalOptional(p.certifications) && NormalOptional(p.partnerStatus) &&
    p.status != ""
  }

  /** An optional text value is either null or non-empty and trimmed. */
  predicate NormalOptional(o: Option<string>) {
    o.Some? ==> o.value != "" && Trimmed(o.value)
  }

  /** The payload built from the form; `parse` stands for JavaScript's `Number`. */
  function Normalise(form: Form, parse: string -> int): (p: Payload)
    ensures IsNormalised(p)
  {
    Payload(
      name := RequiredValue(form, Name),
      domain := RequiredValue(form, Domain),
      subDomain := OptionalValue(form, SubDomain),
      email := RequiredValue(form, Email),
      phone := OptionalValue(form, Phone),
      website := OptionalValue(form, Website),
      city := OptionalValue(form, City),
      country := OptionalValue(form, Country),
      techStack := OptionalValue(form, TechStack),
      certifications := OptionalValue(form, Certifications),
      partnerStatus := OptionalValue(form, PartnerStatus),
      experienceYears := NumericValue(form, ExperienceYears, parse),
      employeeStrength := NumericValue(form, EmployeeStrength, parse),
      status := StatusValue(form),
      rating := NumericValue(form, Rating, parse))
  }

  /** A required text field of a payload. */
  function RequiredAt(p: Payload, f: RequiredField): string {
    match f
    case Name => p.name
    case Domain => p.domain
    case Email => p.email
  }

  /** An optional text field of a payload. */
  function OptionalAt(p: Payload, f: OptionalField): Option<string> {
    match f
    case SubDomain => p.subDomain
    case Phone => p.phone
    case Website => p.website
    case City => p.city
    case Country => p.country
    case TechStack => p.techStack
    case Certifications => p.certifications
    case PartnerStatus => p.partnerStatus
  }

  /** A numeric field of a payload. */
  function NumericAt(p: Payload, f: NumericField): Option<int> {
    match f
    case ExperienceYears => p.experienceYears
    case EmployeeStrength => p.employeeStrength
    case Rating => p.rating
  }

  /** Name, domain and email are the raw values trimmed; an absent input gives the empty string. */
  lemma RequiredFields(form: Form, parse: string -> int, f: RequiredField)
    ensures RequiredAt(Normalise(form, parse), f) == Trim(Raw(form, Required(f)))
    ensures RequiredAt(Normalise(form, parse), f) == "" <==> Blank(Raw(form, Required(f)))
  {
  }

  /** Each optional text field is null exactly when its raw value is blank, and otherwise the trimmed value. */
  lemma OptionalFields(form: Form, parse: string -> int, f: OptionalField)
    ensures OptionalAt(Normalise(form, parse), f).None? <==> Blank(Raw(form, Optional(f)))
    ensures !Blank(Raw(form, Optional(f))) ==>
              OptionalAt(Normalise(form, parse), f) == Some(Trim(Raw(form, Optional(f))))
  {
  }

  /** Each numeric field is null exactly when the raw value is empty or absent, and otherwise parsed. */
  lemma NumericFields(form: Form, parse: string -> int, f: NumericField)
    ensures NumericAt(Normalise(form, parse), f).None? <==> !Filled(form, Numeric(f))
    ensures Filled(form, Numeric(f)) ==>
              NumericAt(Normalise(form, parse), f) == Some(parse(form[Numeric(f)]))
  {
  }

  /** The status is PENDING when the form gives none, and the given value unchanged otherwise. */
  lemma StatusField(form: Form, parse: string -> int)
    ensures !Filled(form, StatusSelect) ==> Normalise(form, parse).status == DefaultStatus
    ensures Filled(form, StatusSelect) ==> Normalise(form, parse).status == form[StatusSelect]
  {
  }

  /** The guard of the submit handler: a payload may be sent only with a name, a domain and an email. */
  predicate MandatoryPresent(p: Payload)
    ensures MandatoryPresent(p) <==> forall f :: RequiredAt(p, f) != ""
  {
    assert RequiredAt(p, Name) == p.name && RequiredAt(p, Domain) == p.domain && RequiredAt(p, Email) == p.email;
    p.name != "" && p.domain != "" && p.email != ""
  }

  /** The guard refuses a form exactly when its name, domain or email is blank or absent. */
  lemma GuardRejectsBlank(form: Form, parse: string -> int)
    ensures MandatoryPresent(Normalise(form, parse)) <==>
              !Blank(Raw(form, Required(Name))) && !Blank(Raw(form, Required(Domain))) &&
              !Blank(Raw(form, Required(Email)))
  {
  }

  /** Every input of the form. */
  const AllFields: set<FormField> := {
    Required(Name), Required(Domain), Required(Email),
    Optional(SubDomain), Optional(Phone), Optional(Website), Optional(City), Optional(Country),
    Optional(TechStack), Optional(Certifications), Optional(PartnerStatus),
    Numeric(ExperienceYears), Numeric(EmployeeStrength), Numeric(Rating),
    StatusSelect}

  /** What a user types into input `key` to obtain `p`; numbers are written out by `show`. */
  function Entry(p: Payload, show: int -> string, key: FormField): Option<string> {
    match key
    case Required(f) => Some(RequiredAt(p, f))
    case Optional(f) => OptionalAt(p, f)
    case Numeric(f) => if NumericAt(p, f).Some? then Some(show(NumericAt(p, f).value)) else None
    case StatusSelect => Some(p.status)
  }

  /** The form a user would fill in to obtain `p`: inputs for null fields are left out. */
  function ToForm(p: Payload, show: int -> string): Form {
    map key | key in AllFields && Entry(p, show, key).Some? :: Entry(p, show, key).value
  }

  /** `show` writes every number as a non-empty text that `parse` reads back. */
  ghost predicate Readable(parse: string -> int, show: int -> string) {
    forall n :: show(n) != "" && parse(show(n)) == n
  }

  lemma RequiredRoundTrip(p: Payload, parse: string -> int, show: int -> string, f: RequiredField)
    requires IsNormalised(p)
    ensures RequiredAt(Normalise(ToForm(p, show), parse), f) == RequiredAt(p, f)
  {
    var form := ToForm(p, show);
    assert Required(f) in AllFields;
    assert Raw(form, Required(f)) == RequiredAt(p, f);
    assert Trimmed(RequiredAt(p, f)) by {
      match f
      case Name =>
      case Domain =>
      case Email =>
    }
    TrimTrimmed(RequiredAt(p, f));
    RequiredFields(form, parse, f);
  }

  lemma OptionalRoundTrip(p: Payload, parse: string -> int, show: int -> string, f: OptionalField)
    requires IsNormalised(p)
    ensures OptionalAt(Normalise(ToForm(p, show), parse), f) == OptionalAt(p, f)
  {
    var form := ToForm(p, show);
    var o := OptionalAt(p, f);
    assert Optional(f) in AllFields;
    assert NormalOptional(o) by {
      match f
      case SubDomain =>
      case Phone =>
      case Website =>
      case City =>
      case Country =>
      case TechStack =>
      case Certifications =>
      case PartnerStatus =>
    }
    OptionalFields(form, parse, f);
    if o.Some? {
      assert Raw(form, Optional(f)) == o.value;
      TrimTrimmed(o.value);
    } else {
      assert Raw(form, Optional(f)) == "";
    }
  }

  lemma NumericRoundTrip(p: Payload, parse: string -> int, show: int -> string, f: NumericField)
    requires Readable(parse, show)
    ensures NumericAt(Normalise(ToForm(p, show), parse), f) == NumericAt(p, f)
  {
    var form := ToForm(p, show);
    var o := NumericAt(p, f);
    assert Numeric(f) in AllFields;
    assert Entry(p, show, Numeric(f)) == (if o.Some? then Some(show(o.value)) else None);
    if o.Some? {
      var n := o.value;
      assert form[Numeric(f)] == show(n);
      assert show(n) != "" && parse(show(n)) == n;
      assert NumericValue(form, f, parse) == o;
    } else {
      assert Numeric(f) !in form;
      assert NumericValue(form, f, parse) == o;
    }
    assert NumericAt(Normalise(form, parse), f) == NumericValue(form, f, parse) by {
      match f
      case ExperienceYears =>
      case EmployeeStrength =>
      case Rating =>
    }
  }

  lemma StatusRoundTrip(p: Payload, parse: string -> int, show: int -> string)
    requires IsNormalised(p)
    ensures Normalise(ToForm(p, show), parse).status == p.status
  {
  }

  /** Two payloads agreeing on every field are equal. */
  lemma PayloadExt(p: Payload, q: Payload)
    requires forall f :: RequiredAt(p, f) == RequiredAt(q, f)
    requires forall f :: OptionalAt(p, f) == OptionalAt(q, f)
    requires forall f :: NumericAt(p, f) == NumericAt(q, f)
    requires p.status == q.status
    ensures p == q
  {
    assert RequiredAt(p, Name) == RequiredAt(q, Name);
    assert RequiredAt(p, Domain) == RequiredAt(q, Domain);
    assert RequiredAt(p, Email) == RequiredAt(q, Email);
    assert OptionalAt(p, SubDomain) == OptionalAt(q, SubDomain);
    assert OptionalAt(p, Phone) == OptionalAt(q, Phone);
    assert OptionalAt(p, Website) == OptionalAt(q, Website);
    assert OptionalAt(p, City) == OptionalAt(q, City);
    assert OptionalAt(p, Country) == OptionalAt(q, Country);
    assert OptionalAt(p, TechStack) == OptionalAt(q, TechStack);
    assert OptionalAt(p, Certifications) == OptionalAt(q, Certifications);
    assert OptionalAt(p, PartnerStatus) == OptionalAt(q, PartnerStatus);
    assert NumericAt(p, ExperienceYears) == NumericAt(q, ExperienceYears);
    assert NumericAt(p, EmployeeStrength) == NumericAt(q, EmployeeStrength);
    assert NumericAt(p, Rating) == NumericAt(q, Rating);
  }

  /**
   * Normalising is a left inverse of filling in the form: every normalised
   * payload is what its own form yields, so the payloads built from forms are
   * exactly the normalised ones.
   */
  lemma NormaliseRoundTrip(p: Payload, parse: string -> int, show: int -> string)
    requires IsNormalised(p)
    requires Readable(parse, show)
    ensures Normalise(ToForm(p, show), parse) == p
  {
    var q := Normalise(ToForm(p, show), parse);
    forall f ensures RequiredAt(q, f) == RequiredAt(p, f) {
      RequiredRoundTrip(p, parse, show, f);
    }
    forall f ensures OptionalAt(q, f) == OptionalAt(p, f) {
      OptionalRoundTrip(p, parse, show, f);
    }
    forall f ensures NumericAt(q, f) == NumericAt(p, f) {
      NumericRoundTrip(p, parse, show, f);
    }
    StatusRoundTrip(p, parse, show);
    PayloadExt(q, p);
  }

  /** Normalising is idempotent: a payload entered again as a form comes back unchanged (trim of trim). */
  lemma NormaliseIdempotent(form: Form, parse: string -> int, show: int -> string)
    requires Readable(parse, show)
    ensures Normalise(ToForm(Normalise(form, parse), show), parse) == Normalise(form, parse)
  {
    NormaliseRoundTrip(Normalise(form, parse), parse, show);
  }

  /** What the request for the POST came back with; the network is outside the model. */
  datatype Response =
    | Created                         // a 2xx response
    | HttpError(body: string)         // a non-2xx response and its body text
    | NetworkError(message: string)   // `fetch` itself threw, with this message

  /** The message shown after the request: none on success, else never empty. */
  function FailureMessage(response: Response): (m: Option<string>)
    ensures m.None? <==> response.Created?
    ensures m.Some? ==> m.value != ""
    ensures response.HttpError? ==> m.value == (if response.body != "" then response.body else RequestFailedMessage)
    ensures response.NetworkError? ==>
              m.value == (if response.message != "" then response.message else UnknownErrorMessage)
  {
    match response
    case Created => None
    case HttpError(body) => Some(if body != "" then body else RequestFailedMessage)
    case NetworkError(message) => Some(if message != "" then message else UnknownErrorMessage)
  }

  const NewVendorRoute: string := "/vendors/new"
  const HomeRoute: string := "/"

  /** The page's submission state, and the requests it has issued. */
  class NewVendorPage {
    var submitting: bool
    var error: Option<string>
    var route: string
    var sent: seq<Payload>

    /**
     * An error is shown only with the form enabled and is never empty, and
     * every request issued carried a normalised payload that passed the guard.
     */
    ghost predicate Valid()
      reads this
    {
      (error.Some? ==> !submitting && error.value != "") &&
      forall i :: 0 <= i < |sent| ==> MandatoryPresent(sent[i]) && IsNormalised(sent[i])
    }

    constructor ()
      ensures Valid()
      ensures !submitting && error == None && route == NewVendorRoute && sent == []
    {
      submitting := false;
      error := None;
      route := NewVendorRoute;
      sent := [];
    }

    /** A submission starts: the form is disabled and any earlier error cleared. */
    method Begin()
      requires Valid()
      modifies this`submitting, this`error
      ensures Valid()
      ensures submitting && error == None
    {
      submitting := true;
      error := None;
    }

    /** The guard refused the payload: the mandatory-fields message is shown and the form re-enabled. */
    method Reject()
      requires Valid()
      modifies this`submitting, this`error
      ensures Valid()
      ensures !submitting && error == Some(MandatoryMessage)
    {
      error := Some(MandatoryMessage);
      submitting := false;
    }

    /** The request failed: its message is shown and the form re-enabled. */
    method Fail(message: string)
      requires Valid()
      requires message != ""
      modifies this`submitting, this`error
      ensures Valid()
      ensures !submitting && error == Some(message)
    {
      error := Some(message);
      submitting := false;
    }

    /** The request is issued with payload `p`. */
    method Send(p: Payload)
      requires Valid()
      requires MandatoryPresent(p) && IsNormalised(p)
      modifies this`sent
      ensures Valid()
      ensures sent == old(sent) + [p]
    {
      sent := sent + [p];
    }

    /**
     * The submit handler. A blank name, domain or email is refused before any
     * request is issued; otherwise the payload is sent and the response decides
     * between showing an error and going back to the directory. On success
     * `submitting` stays set: the page is left with the form still disabled.
     */
    method HandleSubmit(form: Form, parse: string -> int, response: Response)
      requires Valid()
      modifies this
      ensures Valid()
      ensures !MandatoryPresent(Normalise(form, parse)) ==>
                !submitting && error == Some(MandatoryMessage) && sent == old(sent) && route == old(route)
      ensures MandatoryPresent(Normalise(form, parse)) ==> sent == old(sent) + [Normalise(form, parse)]
      ensures MandatoryPresent(Normalise(form, parse)) && response.Created? ==>
                submitting && error == None && route == HomeRoute
      ensures MandatoryPresent(Normalise(form, parse)) && !response.Created? ==>
                !submitting && error == FailureMessage(response) && route == old(route)
    {
      var p := Normalise(form, parse);
      var sent0, route0 := sent, route;
      Begin();
      assert submitting && error == None && sent == sent0 && route == route0;
      if !MandatoryPresent(p) {
        Reject();
        assert !submitting && error == Some(MandatoryMessage) && sent == sent0 && route == route0;
        return;
      }
      Send(p);
      assert submitting && error == None && sent == sent0 + [p] && route == route0;
      var failure := FailureMessage(response);
      if failure.Some? {
        Fail(failure.value);
        assert !submitting && error == failure && sent == sent0 + [p] && route == route0;
      } else {
        route := HomeRoute;
      }
    }
  }
}
