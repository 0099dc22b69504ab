# Lead-submission pipeline of the landing-page banner

This project models the logic inside the banner component of a real-estate
landing page (`components/Banner.js`). The banner holds an enquiry form. On
mount it captures seven marketing-attribution parameters from the query
string. It keeps them in memory and copies the non-empty ones into the
browser's persisted key-value store. The form is validated by a declarative
schema. A valid submit builds a record from the form values and the resolved
attribution values, appends it to a form-encoded body and hands it to a
delivery call. A successful delivery resets the form and navigates to the
confirmation page. A failed one shows a retry message.

Modules, one per part of the component:

- `Attribution` (`attribution.dfy`): the seven keys, the query lookup, the
  captured `params` object, the persisted store (`ParamStore`, a class whose
  `items` map `setItem` updates), the persistence fold and the resolution rule
  `getParam`.
- `LeadForm` (`lead_form.dfy`): the form values, their initial state, the
  validation schema with its fixed messages, and the edits the form controls
  make.
- `Submission` (`submission.dfy`): the `formData` record, the loop that
  appends it to the body, the two status strings, the status colour rule and
  the submit button.
- `BannerComponent` (`banner.dfy`): the component's state as a class
  `Banner`, with the mount effect, edits, the submit handler and the status
  timer as methods, plus two drivers for whole page loads.

Modelling choices:

- The query string, the `params` object and the request body are
  `seq<(string, string)>`: JavaScript objects keep insertion order, and
  `get` / a property read returns the first pair with that name (`Get`).
- The submit handler is `async`. It is split at its `await`. `Submit` runs up
  to the delivery call and records the body in `sent`. `Settle(outcome)` runs
  the `try`/`catch`/`finally` tail once the delivery has settled. Between the
  two, `isSubmitting` is set, so the button is disabled. `Valid()` states that
  at most one delivery is in flight, and exactly while `isSubmitting` is set.
- Delivery is an outcome parameter: `Dispatched` (the call returned) or
  `Threw`. The no-cors mode gives no further information.
- Navigation is appended to `navigations`.
- The e-mail grammar of the validation library is a parameter
  `isEmail: string -> bool`.
- Absence of a browser context at mount is `Mount(None)`. The submit handler
  always runs in a browser, so its `typeof window` check is always true and
  the store is always read.

What the code does not do: it lower-cases no field and does not trim the
name, phone or select values. It checks no minimum length and does not check
that the selects hold one of the offered options. It adds no timestamp,
user-agent or referrer fields. `terms` is always required, and the record
carries it as "true" or "false". The one value that arrives trimmed is the
e-mail: its input has `type="email"`, so the browser removes line breaks and
surrounding whitespace before the form library reads it. `RenderedControl`
admits only such e-mail values.

## Model

| member | source | states |
|---|---|---|
| Attribution.Get | components/Banner.js:50-58 | a lookup yields the value of the first pair with that name, and nothing exactly when no pair has that name |
| Attribution.Capture | components/Banner.js:51-59 | the captured object has exactly the seven keys in order; each value is the key's first query value, or "" when the key is absent |
| Attribution.PersistKeeps | components/Banner.js:64-66 | a key that is never written with a non-empty value keeps its previous store contents, present or absent |
| Attribution.PersistWrites | components/Banner.js:64-66 | a non-empty entry not overridden by a later one with the same key is what the store then holds |
| Attribution.CaptureStored | components/Banner.js:61-66 | after mount, every key captured with a non-empty value is stored under that key with exactly that value |
| Attribution.CaptureKeepsOthers | components/Banner.js:64-66 | after mount, keys captured empty and every key outside the seven keep their previous store contents |
| Attribution.Resolve | components/Banner.js:93-96 | getParam returns the non-empty in-memory value; otherwise the stored value; otherwise "" (never absent) |
| Attribution.ResolveAfterCapture | components/Banner.js:93-96 | right after mount, a key with a non-empty query value resolves to that first value; otherwise it resolves to what an earlier visit stored, else "" |
| Attribution.ParamStore.SetItem | components/Banner.js:65 | setItem maps the key to the value and leaves every other key unchanged |
| LeadForm.Validate | components/Banner.js:79-88 | each of the five text fields fails exactly when empty and terms fails exactly when not true, each with its fixed message; a non-empty e-mail that fails the grammar gets "Invalid email" |
| LeadForm.ValidExactly | components/Banner.js:79-88 | validation passes if and only if the five fields are non-empty, the e-mail is well formed and terms is true |
| LeadForm.InitialErrors | components/Banner.js:71-88 | the initial values fail on all six fields, with their six messages |
| LeadForm.SelectsAcceptAnyValue | components/Banner.js:83-86 | any non-empty lookingFor and budget pass, whether or not they are among the offered options |
| LeadForm.UnacceptedTermsFail | components/Banner.js:87 | values whose terms is false always report "You must accept the terms" |
| LeadForm.RenderedControlsKeepTerms | components/Banner.js:191-334 | no sequence of edits through the rendered controls (any name, phone and select text, a sanitized e-mail) changes terms |
| LeadForm.RenderedFormNeverValid | components/Banner.js:71-88 | from the initial values, any edits through the rendered controls still leave the terms error, so the submit handler is never reached |
| LeadForm.TermsControlMakesFormValid | components/Banner.js:87 | with a terms control, filling the five fields with a well-formed e-mail and accepting the terms passes validation |
| Submission.AppendAll | components/Banner.js:110-111 | the body holds every record entry, in order, with its value in string form |
| Submission.RecordEntries | components/Banner.js:98-107 | the record is the six form values unchanged, in their order, then the seven keys with their resolved values |
| Submission.RecordContents | components/Banner.js:98-111 | the body carries the thirteen names in order; each form value reads back verbatim, terms as "true"/"false", and every attribution key is present, "" included |
| Submission.Includes | components/Banner.js:183 | includes(s, pat) holds exactly when pat occurs in s at some position |
| Submission.StatusLine | components/Banner.js:180-187 | no status line for the empty status; green exactly when the status mentions "success", red otherwise |
| Submission.StatusTones | components/Banner.js:124-129 | the success status shows green and the failure status shows red |
| Submission.Button | components/Banner.js:337-347 | the button is disabled, and labelled "SUBMITTING...", exactly while submitting; otherwise "SUBMIT ENQUIRY" |
| BannerComponent.Banner.constructor | components/Banner.js:34-44 | empty attribution values, empty status, not submitting, initial form values, no navigation, no delivery |
| BannerComponent.Banner.Mount | components/Banner.js:47-67 | with no browser context nothing changes; otherwise the in-memory values become the captured ones and the store becomes the persistence of their non-empty values; nothing else changes |
| BannerComponent.Banner.Edit | components/Banner.js:197-334 | a control edit changes the form values and nothing else |
| BannerComponent.Banner.Submit | components/Banner.js:89-122 | a delivery starts if and only if none is in flight and validation reports no error; it then sets isSubmitting and sends the body built from the record; values, status and navigation are unchanged |
| BannerComponent.Banner.Settle | components/Banner.js:123-131 | on success: success status, initial values, exactly one navigation to "/thank-you"; on a throw: failure status, values and navigation unchanged; isSubmitting cleared either way |
| BannerComponent.Banner.ClearStatus | components/Banner.js:132 | the status becomes empty and nothing else changes |
| BannerComponent.Banner.SubmitButton | components/Banner.js:339 | the rendered control is disabled exactly while isSubmitting is set |
| BannerComponent.RunSession | components/Banner.js:89-133 | over any page load at most one delivery is in flight, and none is ever issued when every edit goes through the rendered controls |
| BannerComponent.SubmitWithTermsControl | components/Banner.js:124-126 | with a terms checkbox, a filled-in form issues exactly one delivery; success resets the form and navigates once to "/thank-you" |

## Findings

| source | as written | input that shows it | evidently intended | confidence | as-written member | corrected member |
|---|---|---|---|---|---|---|
| components/Banner.js:87 | `terms` must be `true` and starts `false` (line 77), but no control in the form (lines 191-348) ever sets it, so validation always fails and the submit handler never runs | fullName "Jane Doe", phone "12025551234", email "jane@example.com", lookingFor "Villa", budget "Under $500,000", then submit: the terms error remains and nothing is delivered | a terms checkbox bound to `terms`, so that a completed form can be submitted | high; not executed | LeadForm.RenderedFormNeverValid | LeadForm.TermsControlMakesFormValid |

The model's `Edit` type therefore includes `SetTerms`, which stands for the
missing checkbox. `RenderedControl` picks out the edits that the page as
written can make. `RunSession` shows that no delivery happens with those
edits. `SubmitWithTermsControl` shows that one happens once the checkbox is
used.

## Left out

- Layout, images, styling classes and the global style block: presentation only.
- The phone widget's error styling keyed on `lookingFor`: cosmetic only.
- The confirmation page (`app/thank-you/page.js`): static markup with no logic.
- The validation library's e-mail regular expression: it is the parameter `isEmail`.
- The form library's touched flags and error display: UI state that does not affect what is sent.
- Percent-encoding of the body by `toString`, the application/x-www-form-urlencoded serializer of the WHATWG URL Standard, section 5.2: a library call. The body is modelled as the ordered pair list before encoding.
- The HTTP request itself: network I/O with an opaque response. It is the `Delivery` outcome.
- The router call: foreign code. It is an entry appended to `navigations`.
- The 3000 ms timer: time is not modelled. Its effect is the separate `ClearStatus` step. The order in which timers fire relative to other events is left to the caller.
- Store read and write failures: the code catches none of them. The store read in `getParam` (components/Banner.js:95) runs before the `try` at line 113, so a throw there would leave `isSubmitting` set for good. The model's store never fails.
- The `console.error` call on a failed delivery (components/Banner.js:128): logging only.
- BannerComponent.Banner.Submit: the browser's own constraint validation is not modelled. The form has no `noValidate`, so the `type="email"` input and the phone input's `required` can stop the submit event before the form library's handler runs. `isEmail` stands for the browser's and the library's e-mail grammars together. The browser's `required` check on the phone widget rejects the empty phone, as the library's rule does.
- Mount: the model stores each captured value with `setItem` one at a time, in key order. Interleaving with other tabs that share the store is not modelled.
