/** The banner component's state and its event handlers: the mount-time
    capture, edits through the form controls, the submit handler split at its
    `await` into the part that issues the delivery and the part that runs when
    the delivery settles, and the timer that clears the status. */
module BannerComponent {
  import opened Attribution
  import opened LeadForm
  import opened Submission

  class Banner {
    /** The persisted store, shared with every later page load. */
    const store: ParamStore
    /** The in-memory attribution values (`urlParams`). */
    var urlParams: Pairs
    var status: string
    var isSubmitting: bool
    /** The form library's current values. */
    var values: FormValues
    /** Every navigation requested, in order. */
    var navigations: seq<string>
    /** Every request body handed to the delivery call, in order. */
    var sent: seq<Pairs>
    /** How many of those deliveries have settled. */
    var settled: nat

    /** At most one delivery is in flight, and it is in flight exactly while
        `isSubmitting` is set. */
    ghost predicate Valid()
      reads this
    {
      |sent| == settled + (if isSubmitting then 1 else 0)
    }

    constructor (store: ParamStore)
      ensures Valid() && this.store == store
      ensures urlParams == EMPTY_PARAMS && status == "" && !isSubmitting
      ensures values == INITIAL && navigations == [] && sent == [] && settled == 0
    {
      this.store := store;
      urlParams := EMPTY_PARAMS;
      status := "";
      isSubmitting := false;
      values := INITIAL;
      navigations := [];
      sent := [];
      settled := 0;
    }

    /** The mount effect. `query` is the page's query string, or None when
        there is no browser context, in which case nothing changes. Otherwise
        the captured parameters replace `urlParams`, and each one with a
        non-empty value is written to the store, in key order. */
    method Mount(query: Option<Pairs>)
      requires Valid()
      modifies this, store
      ensures Valid()
      ensures query.None? ==> urlParams == old(urlParams) && store.items == old(store.items)
      ensures query.Some? ==> urlParams == Capture(query.value)
      ensures query.Some? ==> store.items == Persist(old(store.items), urlParams)
      ensures status == old(status) && isSubmitting == old(isSubmitting) && values == old(values)
      ensures navigations == old(navigations) && sent == old(sent) && settled == old(settled)
    {
      if query.None? {
        return;
      }
      var params := Capture(query.value);
      urlParams := params;
      for i := 0 to |params|
        invariant urlParams == params
        invariant store.items == Persist(old(store.items), params[..i])
        modifies store
      {
        var (k, v) := params[i];
        if v != "" {
          store.SetItem(k, v);
        }
        assert params[..i + 1][..i] == params[..i];
      }
      assert params[..|params|] == params;
    }

    /** A change through one form control. */
    method Edit(e: Edit)
      requires Valid()
      modifies this
      ensures Valid()
      ensures values == Apply(old(values), e)
      ensures urlParams == old(urlParams) && status == old(status) && isSubmitting == old(isSubmitting)
      ensures navigations == old(navigations) && sent == old(sent) && settled == old(settled)
    {
      values := Apply(values, e);
    }

    /** A submit attempt, up to the `await` of the delivery. It does nothing
        while a submission is in progress (the button is disabled) or while
        validation reports an error; otherwise it sets `isSubmitting` and hands
        the body built from the values and the resolved attribution to the
        delivery call. */
    method Submit(isEmail: string -> bool) returns (started: bool)
      requires Valid()
      modifies this
      ensures Valid()
      ensures started <==> !old(isSubmitting) && Validate(old(values), isEmail) == map[]
      ensures started ==> isSubmitting
      ensures started ==> sent == old(sent) + [Serialize(FormData(values, urlParams, store.items))]
      ensures !started ==> isSubmitting == old(isSubmitting) && sent == old(sent)
      ensures values == old(values) && urlParams == old(urlParams) && status == old(status)
      ensures navigations == old(navigations) && settled == old(settled)
    {
      if SubmitButton().disabled || Validate(values, isEmail) != map[] {
        return false;
      }
      isSubmitting := true;
      var body := AppendAll(FormData(values, urlParams, store.items));
      sent := sent + [body];
      started := true;
    }

    /** The rest of the submit handler, once the delivery has settled. On
        success the status reports it, the form is reset and one navigation
        to the confirmation page is requested; on a throw the status reports
        the failure and the values stay as they are. Either way the
        submission is over. */
    method Settle(outcome: Delivery)
      requires Valid() && isSubmitting
      modifies this
      ensures Valid() && !isSubmitting && settled == old(settled) + 1
      ensures outcome == Dispatched ==> status == SUCCESS_STATUS && values == INITIAL
      ensures outcome == Dispatched ==> navigations == old(navigations) + [THANK_YOU_PATH]
      ensures outcome == Threw ==> status == FAILURE_STATUS && values == old(values)
      ensures outcome == Threw ==> navigations == old(navigations)
      ensures urlParams == old(urlParams) && sent == old(sent)
    {
      match outcome {
        case Dispatched =>
          status := SUCCESS_STATUS;
          values := INITIAL;
          navigations := navigations + [THANK_YOU_PATH];
        case Threw =>
          status := FAILURE_STATUS;
      }
      isSubmitting := false;
      settled := settled + 1;
    }

    /** The timer set by the submit handler fires and clears the status. */
    method ClearStatus()
      requires Valid()
      modifies this
      ensures Valid() && status == ""
      ensures urlParams == old(urlParams) && isSubmitting == old(isSubmitting) && values == old(values)
      ensures navigations == old(navigations) && sent == old(sent) && settled == old(settled)
    {
      status := "";
    }

    /** What the page currently renders for the submit control. */
    function SubmitButton(): (b: SubmitControl)
      reads this
      ensures b.disabled <==> isSubmitting
    {
      Button(isSubmitting)
    }
  }

  /** An event of the page after it has mounted. */
  datatype Event =
    | Type(edit: Edit)
    | ClickSubmit
    | DeliverySettles(outcome: Delivery)
    | StatusTimer

  /** One page load: a banner over a store holding `stored` mounts with
      `query`, then handles `events` in order (a settle event with nothing in
      flight is ignored). It reports how many deliveries were issued and how
      many are still in flight: never more than one, and none at all when
      every edit went through the rendered controls. */
  method RunSession(stored: map<string, string>, query: Option<Pairs>, events: seq<Event>, isEmail: string -> bool)
    returns (deliveries: nat, inFlight: nat)
    ensures inFlight <= 1 && inFlight <= deliveries
    ensures (forall i :: 0 <= i < |events| && events[i].Type? ==> RenderedControl(events[i].edit)) ==> deliveries == 0
  {
    var store := new ParamStore(stored);
    var page := new Banner(store);
    page.Mount(query);
    for i := 0 to |events|
      invariant page.Valid() && page.store == store
      invariant (forall j :: 0 <= j < i && events[j].Type? ==> RenderedControl(events[j].edit)) ==>
                  !page.values.terms && page.sent == []
    {
      match events[i] {
        case Type(e) =>
          page.Edit(e);
        case ClickSubmit =>
          var started := page.Submit(isEmail);
        case DeliverySettles(outcome) =>
          if page.isSubmitting {
            page.Settle(outcome);
          }
        case StatusTimer =>
          page.ClearStatus();
      }
    }
    deliveries := |page.sent|;
    inFlight := |page.sent| - page.settled;
  }

  /** The same page with a terms checkbox added: filling in the five fields
      with a well-formed e-mail, ticking the box and submitting issues exactly
      one delivery, and a successful one resets the form and requests one
      navigation to the confirmation page. */
  method SubmitWithTermsControl(
    stored: map<string, string>, query: Option<Pairs>,
    fullName: string, phone: string, email: string, lookingFor: string, budget: string,
    isEmail: string -> bool)
    returns (deliveries: nat, navigations: seq<string>, after: FormValues)
    requires fullName != "" && phone != "" && email != "" && isEmail(email)
    requires lookingFor != "" && budget != ""
    ensures deliveries == 1 && navigations == [THANK_YOU_PATH] && after == INITIAL
  {
    var store := new ParamStore(stored);
    var page := new Banner(store);
    page.Mount(query);
    var edits := [SetFullName(fullName), SetPhone(phone), SetEmail(email),
                  SetLookingFor(lookingFor), SetBudget(budget), SetTerms(true)];
    for i := 0 to |edits|
      invariant page.Valid() && page.store == store && !page.isSubmitting
      invariant page.values == ApplyAll(INITIAL, edits[..i])
      invariant page.sent == [] && page.navigations == []
    {
      page.Edit(edits[i]);
      assert edits[..i + 1][..i] == edits[..i];
    }
    assert edits[..|edits|] == edits;
    TermsControlMakesFormValid(fullName, phone, email, lookingFor, budget, isEmail);
    var started := page.Submit(isEmail);
    page.Settle(Dispatched);
    deliveries := |page.sent|;
    navigations := page.navigations;
    after := page.values;
  }
}
