/** The enquiry form: its values, the declarative validation schema with its
    fixed messages, and the edits its controls can make. */
module LeadForm {

  datatype FormValues = FormValues(
    fullName: string,
    phone: string,
    email: string,
    lookingFor: string,
    budget: string,
    terms: bool)

  /** The form's initial values: every text field empty, terms not accepted. */
  const INITIAL: FormValues := FormValues("", "", "", "", "", false)

  datatype Field = FullName | Phone | Email | LookingFor | Budget | Terms

  const FULL_NAME_REQUIRED := "Full name is required"
  const PHONE_REQUIRED := "Phone number is required"
  const EMAIL_REQUIRED := "Email is required"
  const EMAIL_INVALID := "Invalid email"
  const LOOKING_FOR_REQUIRED := "Please select what you're looking for"
  const BUDGET_REQUIRED := "Please select your budget range"
  const TERMS_REQUIRED := "You must accept the terms"

  /** The message a failing field reports. */
  function Message(f: Field, email: string): string
  {
    match f
    case FullName => FULL_NAME_REQUIRED
    case Phone => PHONE_REQUIRED
    case Email => if email == "" then EMAIL_REQUIRED else EMAIL_INVALID
    case LookingFor => LOOKING_FOR_REQUIRED
    case Budget => BUDGET_REQUIRED
    case Terms => TERMS_REQUIRED
  }

  /** The rule of one field of the schema fails on v. */
  predicate Fails(v: FormValues, f: Field, isEmail: string -> bool)
  {
    match f
    case FullName => v.fullName == ""
    case Phone => v.phone == ""
    case Email => v.email == "" || !isEmail(v.email)
    case LookingFor => v.lookingFor == ""
    case Budget => v.budget == ""
    case Terms => !v.terms
  }

  const ALL_FIELDS: set<Field> := {FullName, Phone, Email, LookingFor, Budget, Terms}

  /** The validation schema, as the field-to-message map the form library
      derives from it. `isEmail` is the library's e-mail grammar; an empty
      e-mail reports only that it is required. */
  function Validate(v: FormValues, isEmail: string -> bool): (errors: map<Field, string>)
    ensures FullName in errors <==> v.fullName == ""
    ensures Phone in errors <==> v.phone == ""
    ensures Email in errors <==> v.email == "" || !isEmail(v.email)
    ensures LookingFor in errors <==> v.lookingFor == ""
    ensures Budget in errors <==> v.budget == ""
    ensures Terms in errors <==> !v.terms
    ensures forall f :: f in errors ==> errors[f] == Message(f, v.email)
  {
    map f | f in ALL_FIELDS && Fails(v, f, isEmail) :: Message(f, v.email)
  }

  /** The form passes validation exactly when the five text fields are
      non-empty, the e-mail is well formed and the terms are accepted; no
      length, trimming or option-list rule applies. */
  lemma ValidExactly(v: FormValues, isEmail: string -> bool)
    ensures Validate(v, isEmail) == map[] <==>
              v.fullName != "" && v.phone != "" && v.email != "" && isEmail(v.email)
              && v.lookingFor != "" && v.budget != "" && v.terms
  {
  }

  /** The initial values fail on every field, each with its fixed message. */
  lemma InitialErrors(isEmail: string -> bool)
    ensures Validate(INITIAL, isEmail) == map[
              FullName := FULL_NAME_REQUIRED, Phone := PHONE_REQUIRED, Email := EMAIL_REQUIRED,
              LookingFor := LOOKING_FOR_REQUIRED, Budget := BUDGET_REQUIRED, Terms := TERMS_REQUIRED]
  {
  }

  /** A select with a non-empty value always passes, whether or not the value
      is one of the offered options. */
  lemma SelectsAcceptAnyValue(v: FormValues, isEmail: string -> bool)
    requires v.lookingFor != "" && v.budget != ""
    ensures LookingFor !in Validate(v, isEmail) && Budget !in Validate(v, isEmail)
  {
  }

  /** Values whose terms are not accepted always report the terms error. */
  lemma UnacceptedTermsFail(v: FormValues, isEmail: string -> bool)
    requires !v.terms
    ensures Terms in Validate(v, isEmail) && Validate(v, isEmail)[Terms] == TERMS_REQUIRED
  {
  }

  /** One change made through a form control. SetTerms stands for a terms
      checkbox, which the banner as written does not render. */
  datatype Edit =
    | SetFullName(fullName: string)
    | SetPhone(phone: string)
    | SetEmail(email: string)
    | SetLookingFor(lookingFor: string)
    | SetBudget(budget: string)
    | SetTerms(accepted: bool)

  /** The characters HTML counts as ASCII whitespace. */
  predicate AsciiWhitespace(c: char)
  {
    c == ' ' || c == '\t' || c == '\n' || c == '\r' || c == '\U{C}'
  }

  /** A value an e-mail input can hold: the browser's value sanitization has
      removed every line break and any leading or trailing ASCII whitespace. */
  predicate SanitizedEmail(s: string)
  {
    && (forall i :: 0 <= i < |s| ==> s[i] != '\n' && s[i] != '\r')
    && (s != [] ==> !AsciiWhitespace(s[0]) && !AsciiWhitespace(s[|s| - 1]))
  }

  /** The edits the rendered controls can make: the name input (any text),
      the e-mail input (a sanitized value), the phone widget and the two
      selects. */
  predicate RenderedControl(e: Edit)
  {
    && !e.SetTerms?
    && (e.SetEmail? ==> SanitizedEmail(e.email))
  }

  function Apply(v: FormValues, e: Edit): (w: FormValues)
  {
    match e
    case SetFullName(s) => v.(fullName := s)
    case SetPhone(s) => v.(phone := s)
    case SetEmail(s) => v.(email := s)
    case SetLookingFor(s) => v.(lookingFor := s)
    case SetBudget(s) => v.(budget := s)
    case SetTerms(b) => v.(terms := b)
  }

  /** The values after a sequence of edits, applied in order. */
  function ApplyAll(v: FormValues, edits: seq<Edit>): FormValues
    decreases |edits|
  {
    if edits == [] then v else Apply(ApplyAll(v, edits[..|edits| - 1]), edits[|edits| - 1])
  }

  /** No sequence of edits through the rendered controls changes `terms`. */
  lemma {:induction false} RenderedControlsKeepTerms(v: FormValues, edits: seq<Edit>)
    requires forall i :: 0 <= i < |edits| ==> RenderedControl(edits[i])
    ensures ApplyAll(v, edits).terms == v.terms
  {
    if edits != [] {
      RenderedControlsKeepTerms(v, edits[..|edits| - 1]);
    }
  }

  /** Whatever is typed or selected in the rendered controls, starting from the
      initial values, validation still reports the terms error, so the submit
      handler is never reached. */
  lemma RenderedFormNeverValid(edits: seq<Edit>, isEmail: string -> bool)
    requires forall i :: 0 <= i < |edits| ==> RenderedControl(edits[i])
    ensures Terms in Validate(ApplyAll(INITIAL, edits), isEmail)
    ensures Validate(ApplyAll(INITIAL, edits), isEmail)[Terms] == TERMS_REQUIRED
  {
    RenderedControlsKeepTerms(INITIAL, edits);
    UnacceptedTermsFail(ApplyAll(INITIAL, edits), isEmail);
  }

  /** With a terms control in the form, filling in the five fields
      (with a well-formed e-mail) and accepting the terms passes validation. */
  lemma TermsControlMakesFormValid(
    fullName: string, phone: string, email: string, lookingFor: string, budget: string,
    isEmail: string -> bool)
    requires fullName != "" && phone != "" && email != "" && isEmail(email)
    requires lookingFor != "" && budget != ""
    ensures Validate(ApplyAll(INITIAL, [SetFullName(fullName), SetPhone(phone), SetEmail(email),
              SetLookingFor(lookingFor), SetBudget(budget), SetTerms(true)]), isEmail) == map[]
  {
    var e1 := [SetFullName(fullName)];
    var e2 := e1 + [SetPhone(phone)];
    var e3 := e2 + [SetEmail(email)];
    var e4 := e3 + [SetLookingFor(lookingFor)];
    var e5 := e4 + [SetBudget(budget)];
    var e6 := e5 + [SetTerms(true)];
    assert e1[..0] == [] && e2[..1] == e1 && e3[..2] == e2;
    assert e4[..3] == e3 && e5[..4] == e4 && e6[..5] == e5;
    var filled := FormValues(fullName, phone, email, lookingFor, budget, true);
    assert ApplyAll(INITIAL, e1) == INITIAL.(fullName := fullName);
    assert ApplyAll(INITIAL, e2) == INITIAL.(fullName := fullName, phone := phone);
    assert ApplyAll(INITIAL, e3) == INITIAL.(fullName := fullName, phone := phone, email := email);
    assert ApplyAll(INITIAL, e4) == filled.(budget := "", terms := false);
    assert ApplyAll(INITIAL, e5) == filled.(terms := false);
    assert ApplyAll(INITIAL, e6) == filled;
    assert e6 == [SetFullName(fullName), SetPhone(phone), SetEmail(email),
                  SetLookingFor(lookingFor), SetBudget(budget), SetTerms(true)];
    ValidExactly(filled, isEmail);
  }
}
