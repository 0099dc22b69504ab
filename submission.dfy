/** The submission record: the form values followed by the resolved
    attribution keys, the request body appended from it, the two outcome
    statuses and how the page renders the status and the submit control. */
module Submission {
  import opened Attribution
  import opened LeadForm

  /** A property value of the record: the text fields and attribution keys are
      strings, `terms` is a boolean. */
  datatype Value = Text(text: string) | Flag(flag: bool)

  /** The string that `append` stores for a value (JavaScript's String(v)). */
  function ValueString(v: Value): string
  {
    match v
    case Text(s) => s
    case Flag(b) => if b then "true" else "false"
  }

  /** The record's property names in order: the form's own fields, then the
      seven attribution keys. */
  const FIELD_NAMES: seq<string> := ["fullName", "phone", "email", "lookingFor", "budget", "terms"]
  const RECORD_NAMES: seq<string> := FIELD_NAMES + ATTRIBUTION_KEYS

  lemma RecordNamesDistinct()
    ensures forall i, j :: 0 <= i < j < |RECORD_NAMES| ==> RECORD_NAMES[i] != RECORD_NAMES[j]
  {
  }

  /** The `formData` object: the form values as they are, then every
      attribution key resolved from memory or from the store. */
  function FormData(values: FormValues, urlParams: Pairs, store: map<string, string>): seq<(string, Value)>
  {
    [("fullName", Text(values.fullName)), ("phone", Text(values.phone)), ("email", Text(values.email)),
     ("lookingFor", Text(values.lookingFor)), ("budget", Text(values.budget)), ("terms", Flag(values.terms))]
    + seq(|ATTRIBUTION_KEYS|, i requires 0 <= i < |ATTRIBUTION_KEYS| =>
            (ATTRIBUTION_KEYS[i], Text(Resolve(urlParams, store, ATTRIBUTION_KEYS[i]))))
  }

  /** The name/value list of a body that has had every entry appended, in order. */
  function Serialize(formData: seq<(string, Value)>): Pairs
  {
    seq(|formData|, i requires 0 <= i < |formData| => (formData[i].0, ValueString(formData[i].1)))
  }

  /** Builds the request body by appending each entry of `formData` to an
      empty parameter list. */
  method AppendAll(formData: seq<(string, Value)>) returns (body: Pairs)
    ensures body == Serialize(formData)
  {
    body := [];
    for i := 0 to |formData|
      invariant |body| == i
      invariant forall j :: 0 <= j < i ==> body[j] == (formData[j].0, ValueString(formData[j].1))
    {
      body := body + [(formData[i].0, ValueString(formData[i].1))];
    }
  }

  /** The entries of the serialized record, position by position. */
  lemma RecordEntries(values: FormValues, urlParams: Pairs, store: map<string, string>)
    ensures var body := Serialize(FormData(values, urlParams, store));
      && |body| == |RECORD_NAMES|
      && body[0] == ("fullName", values.fullName)
      && body[1] == ("phone", values.phone)
      && body[2] == ("email", values.email)
      && body[3] == ("lookingFor", values.lookingFor)
      && body[4] == ("budget", values.budget)
      && body[5] == ("terms", if values.terms then "true" else "false")
      && forall i :: 0 <= i < |ATTRIBUTION_KEYS| ==>
           body[|FIELD_NAMES| + i] == (ATTRIBUTION_KEYS[i], Resolve(urlParams, store, ATTRIBUTION_KEYS[i]))
  {
  }

  /** The body carries the record names in order; each form value is read back
      unchanged (no trimming, no case folding), `terms` as "true" or "false",
      and every attribution key is present with its resolved value, "" included. */
  lemma RecordContents(values: FormValues, urlParams: Pairs, store: map<string, string>)
    ensures var body := Serialize(FormData(values, urlParams, store));
      && |body| == |RECORD_NAMES|
      && (forall i :: 0 <= i < |body| ==> body[i].0 == RECORD_NAMES[i])
      && Get(body, "fullName") == Some(values.fullName)
      && Get(body, "phone") == Some(values.phone)
      && Get(body, "email") == Some(values.email)
      && Get(body, "lookingFor") == Some(values.lookingFor)
      && Get(body, "budget") == Some(values.budget)
      && Get(body, "terms") == Some(if values.terms then "true" else "false")
      && forall i :: 0 <= i < |ATTRIBUTION_KEYS| ==>
           Get(body, ATTRIBUTION_KEYS[i]) == Some(Resolve(urlParams, store, ATTRIBUTION_KEYS[i]))
  {
    var body := Serialize(FormData(values, urlParams, store));
    RecordEntries(values, urlParams, store);
    assert forall i :: 0 <= i < |body| ==> body[i].0 == RECORD_NAMES[i] by {
      forall i | 0 <= i < |body| ensures body[i].0 == RECORD_NAMES[i] {
        if i >= |FIELD_NAMES| {
          assert body[|FIELD_NAMES| + (i - |FIELD_NAMES|)].0 == ATTRIBUTION_KEYS[i - |FIELD_NAMES|];
        }
      }
    }
    RecordNamesDistinct();
    NamesLocateFirst(body);
    assert FirstAt(body, RECORD_NAMES[0], 0) && FirstAt(body, RECORD_NAMES[1], 1);
    assert FirstAt(body, RECORD_NAMES[2], 2) && FirstAt(body, RECORD_NAMES[3], 3);
    assert FirstAt(body, RECORD_NAMES[4], 4) && FirstAt(body, RECORD_NAMES[5], 5);
    forall i | 0 <= i < |ATTRIBUTION_KEYS|
      ensures Get(body, ATTRIBUTION_KEYS[i]) == Some(Resolve(urlParams, store, ATTRIBUTION_KEYS[i]))
    {
      assert RECORD_NAMES[|FIELD_NAMES| + i] == ATTRIBUTION_KEYS[i];
      assert FirstAt(body, RECORD_NAMES[|FIELD_NAMES| + i], |FIELD_NAMES| + i);
    }
  }

  /** In a list whose names are the distinct record names, each name is first found at its own position. */
  lemma NamesLocateFirst(body: Pairs)
    requires |body| == |RECORD_NAMES|
    requires forall i :: 0 <= i < |body| ==> body[i].0 == RECORD_NAMES[i]
    requires forall i, j :: 0 <= i < j < |RECORD_NAMES| ==> RECORD_NAMES[i] != RECORD_NAMES[j]
    ensures forall i :: 0 <= i < |body| ==> FirstAt(body, RECORD_NAMES[i], i)
  {
  }

  /** The outcome of the delivery call: it returned, or it threw. */
  datatype Delivery = Dispatched | Threw

  const SUCCESS_STATUS := "Form submitted successfully!"
  const FAILURE_STATUS := "Something went wrong. Please try again."
  const THANK_YOU_PATH := "/thank-you"

  /** JavaScript's `s.includes(pat)`. */
  function Includes(s: string, pat: string): (r: bool)
    ensures r <==> exists i :: OccursAt(s, pat, i)
    decreases |s|
  {
    if |s| < |pat| then false
    else if s[..|pat|] == pat then assert OccursAt(s, pat, 0); true
    else if s == [] then false
    else
      var r := Includes(s[1..], pat);
      assert forall i :: OccursAt(s, pat, i) ==> i > 0 && OccursAt(s[1..], pat, i - 1);
      assert forall j :: OccursAt(s[1..], pat, j) ==> OccursAt(s, pat, j + 1);
      r
  }

  /** pat occurs in s starting at position i. */
  predicate OccursAt(s: string, pat: string, i: int)
  {
    0 <= i && i + |pat| <= |s| && s[i..i + |pat|] == pat
  }

  datatype Tone = Green | Red

  /** The status line: shown only when the status is non-empty, green when it
      mentions "success" and red otherwise. */
  function StatusLine(status: string): (r: Option<Tone>)
    ensures r.None? <==> status == ""
    ensures r == Some(Green) <==> status != "" && Includes(status, "success")
  {
    if status == "" then None
    else if Includes(status, "success") then Some(Green)
    else Some(Red)
  }

  /** The success status shows green and the failure status shows red. */
  lemma StatusTones()
    ensures StatusLine(SUCCESS_STATUS) == Some(Green)
    ensures StatusLine(FAILURE_STATUS) == Some(Red)
  {
    assert OccursAt(SUCCESS_STATUS, "success", 15);
    // "success" has a 'c' at position 2 and the failure status has no 'c'.
    forall i | OccursAt(FAILURE_STATUS, "success", i) ensures FAILURE_STATUS[i + 2] == 'c' {
      OccurrenceMatches(FAILURE_STATUS, "success", i, 2);
    }
    assert forall j :: 0 <= j < |FAILURE_STATUS| ==> FAILURE_STATUS[j] != 'c';
  }

  lemma OccurrenceMatches(s: string, pat: string, i: int, k: int)
    requires OccursAt(s, pat, i) && 0 <= k < |pat|
    ensures s[i + k] == pat[k]
  {
  }

  datatype SubmitControl = SubmitControl(disabled: bool, caption: string)

  /** The submit button: disabled, and labelled "SUBMITTING...", exactly while
      a submission is in progress. */
  function Button(isSubmitting: bool): (b: SubmitControl)
    ensures b.disabled <==> isSubmitting
    ensures b.caption == "SUBMITTING..." <==> isSubmitting
    ensures !isSubmitting ==> b.caption == "SUBMIT ENQUIRY"
  {
    SubmitControl(isSubmitting, if isSubmitting then "SUBMITTING..." else "SUBMIT ENQUIRY")
  }
}
