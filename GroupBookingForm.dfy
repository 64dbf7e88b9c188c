/**
  The submit path of the booking form (src/components/GroupBookingForm.tsx):
  react-hook-form validates the values with the form's schema; only valid
  data reaches `onSubmit`, which posts it to `/api/bookings`; when the
  response is ok it writes the data to the booking store and then navigates
  to `/<locale>/success`.  A non-ok response (thrown at line 36) and a
  transport failure are both caught and logged, so neither writes the store
  nor navigates.  The submit button is disabled while `isSubmitting`.

  The `await fetch(...)` suspension is split into two steps: `Submit` runs
  validation and sends the request, `Settle` resumes with the network's
  outcome, which is an input.
*/
module GroupBookingForm {
  import opened Wrappers
  import opened BookingSchema
  import opened BookingContext
  import EnglishValidation
  import LocalizedValidation

  /** The `fetch` call `onSubmit` makes: URL, method, Content-Type header and JSON body. */
  datatype FetchRequest = FetchRequest(url: string, verb: string, contentType: string, body: Json)

  /**
    `fetch("/api/bookings", { method: "POST", headers: {"Content-Type": "application/json"}, body: JSON.stringify(data) })`:
    a JSON POST to the bookings endpoint.
  */
  function SubmissionRequest(data: BookingData): (q: FetchRequest)
    ensures q.url == "/api/bookings" && q.verb == "POST" && q.contentType == "application/json"
  {
    FetchRequest("/api/bookings", "POST", "application/json", ToJson(data))
  }

  /** The request body is `JSON.stringify(data)`: it reads back as exactly the submitted data, with no other member. */
  lemma RequestCarriesData(data: BookingData)
    ensures SubmissionRequest(data).body.JObject?
    ensures Decode(SubmissionRequest(data).body.members) == data
    ensures forall k :: k in SubmissionRequest(data).body.members <==> exists f: Field :: Key(f) == k && ValueOf(data, f).Some?
  {
    DecodeToJson(data);
  }

  /** How the `fetch` promise settles: with a response (its `ok` flag) or by rejecting. */
  datatype FetchOutcome = Responded(ok: bool) | TransportFailure

  /** The outward effects of the form, in the order they happen. */
  datatype Effect =
    | Sent(request: FetchRequest)     // fetch(...)
    | Stored(data: BookingData)       // setBookingData(data)
    | Navigated(path: string)         // router.push(path)

  function SuccessPath(locale: string): string
  {
    "/" + locale + "/success"
  }

  /**
    What `onSubmit` does once `fetch` has settled: on an ok response, a store
    write of the submitted data and then the navigation to the success page;
    on a non-ok response or a rejected `fetch`, nothing (the error is only logged).
  */
  function AfterResponse(locale: string, data: BookingData, outcome: FetchOutcome): (es: seq<Effect>)
    ensures es != [] <==> outcome == Responded(true)
    ensures forall k :: 0 <= k < |es| ==> !es[k].Sent? && (es[k].Stored? <==> k == 0)
    ensures forall k :: 0 <= k < |es| && es[k].Stored? ==> es[k].data == data
    ensures forall k :: 0 <= k < |es| && es[k].Navigated? ==> k > 0 && es[k].path == "/" + locale + "/success"
    ensures outcome == Responded(true) ==> |es| == 2 && es[1].Navigated?
  {
    if outcome == Responded(true) then [Stored(data), Navigated(SuccessPath(locale))] else []
  }

  /**
    The order the form's effects keep: every navigation goes to the success
    page right after a store write, and every store write comes right after
    the request that sent exactly that data.
  */
  ghost predicate Ordered(locale: string, es: seq<Effect>)
  {
    && (forall k :: 0 <= k < |es| && es[k].Navigated? ==>
          0 < k && es[k - 1].Stored? && es[k].path == SuccessPath(locale))
    && (forall k :: 0 <= k < |es| && es[k].Stored? ==>
          0 < k && es[k - 1] == Sent(SubmissionRequest(es[k].data)))
  }

  /** Sending a request keeps the order. */
  lemma SendKeepsOrder(locale: string, es: seq<Effect>, data: BookingData)
    requires Ordered(locale, es)
    ensures Ordered(locale, es + [Sent(SubmissionRequest(data))])
  {
  }

  /**
    Settling the request that was sent last keeps the order: the store write
    and the navigation come only on an ok response, in that order, with the
    submitted data and the success path of the current locale.
  */
  lemma SettleKeepsOrder(locale: string, es: seq<Effect>, data: BookingData, outcome: FetchOutcome)
    requires Ordered(locale, es)
    requires |es| > 0 && es[|es| - 1] == Sent(SubmissionRequest(data))
    ensures Ordered(locale, es + AfterResponse(locale, data, outcome))
    ensures outcome != Responded(true) ==> es + AfterResponse(locale, data, outcome) == es
    ensures (exists k :: 0 <= k < |AfterResponse(locale, data, outcome)| && AfterResponse(locale, data, outcome)[k].Navigated?)
              <==> outcome == Responded(true)
  {
    var tail := AfterResponse(locale, data, outcome);
    if outcome == Responded(true) {
      assert tail[1].Navigated?;
    }
  }

  class BookingForm {
    const locale: string
    const schema: Schema
    const isEmail: string -> bool
    const store: BookingStore
    /** react-hook-form's `isSubmitting`. */
    var submitting: bool
    /** The validated data whose request has not settled yet. */
    var inFlight: Option<BookingData>
    /** react-hook-form's `errors`: the issues of the last rejected attempt. */
    var errors: seq<Issue>
    var effects: seq<Effect>

    ghost predicate Valid()
      reads this
    {
      && WellFormed(schema)
      && (submitting <==> inFlight.Some?)
      && Ordered(locale, effects)
      && (inFlight.Some? ==> |effects| > 0 && effects[|effects| - 1] == Sent(SubmissionRequest(inFlight.value)))
    }

    constructor (locale: string, schema: Schema, isEmail: string -> bool, store: BookingStore)
      requires WellFormed(schema)
      ensures Valid()
      ensures this.locale == locale && this.schema == schema && this.isEmail == isEmail && this.store == store
      ensures !submitting && errors == [] && effects == []
    {
      this.locale := locale;
      this.schema := schema;
      this.isEmail := isEmail;
      this.store := store;
      submitting := false;
      inFlight := None;
      errors := [];
      effects := [];
    }

    /** `disabled={isSubmitting}` on the submit button: disabled exactly while a request is in flight. */
    predicate SubmitDisabled(): (disabled: bool)
      requires Valid()
      reads this
      ensures disabled <==> inFlight.Some?
    {
      submitting
    }

    /**
      A click on the submit button.  While disabled it does nothing.  Otherwise
      the values are validated: invalid values set the field errors and send
      nothing; valid values clear the errors, send exactly one request with
      the values unchanged, and disable the button.
    */
    method Submit(values: BookingData)
      requires Valid()
      modifies this
      ensures Valid()
      ensures old(SubmitDisabled()) ==> unchanged(this)
      ensures !old(SubmitDisabled()) && Issues(schema, isEmail, ToJson(values)) != [] ==>
                && errors == Issues(schema, isEmail, ToJson(values))
                && !submitting && effects == old(effects)
      ensures !old(SubmitDisabled()) && Issues(schema, isEmail, ToJson(values)) == [] ==>
                && errors == [] && submitting && inFlight == Some(values)
                && effects == old(effects) + [Sent(SubmissionRequest(values))]
    {
      if submitting {
        return;
      }
      ValidateBooking(schema, isEmail, values);
      match Validate(schema, isEmail, ToJson(values))
      case Err(issues) =>
        errors := issues;
      case Ok(data) =>
        SendKeepsOrder(locale, effects, data);
        errors := [];
        effects := effects + [Sent(SubmissionRequest(data))];
        inFlight := Some(data);
        submitting := true;
    }

    /**
      The `fetch` of the in-flight submission settles.  An ok response writes
      the submitted data to the store and then navigates to the success page;
      a non-ok response or a transport failure does neither, and the error is
      not rethrown.  Either way the button is enabled again.
    */
    method Settle(outcome: FetchOutcome)
      requires Valid() && SubmitDisabled()
      modifies this, store
      ensures Valid() && !SubmitDisabled() && errors == old(errors)
      ensures effects == old(effects) + AfterResponse(locale, old(inFlight).value, outcome)
      ensures store.bookingData == if outcome == Responded(true) then old(inFlight) else old(store.bookingData)
    {
      var data := inFlight.value;
      SettleKeepsOrder(locale, effects, data, outcome);
      if outcome == Responded(true) {
        store.SetBookingData(data);
        effects := effects + [Stored(data), Navigated(SuccessPath(locale))];
      }
      inFlight := None;
      submitting := false;
    }
  }

  /**
    A fresh form given values the schema accepts, answered ok: exactly one
    POST of those values, then the store holds them, then the browser is sent
    to the locale's success page.
  */
  method SubmitAccepted(locale: string, isEmail: string -> bool, values: BookingData)
    returns (stored: Option<BookingData>, log: seq<Effect>)
    requires EnglishValidation.NineRulesHold(isEmail, values)
    ensures stored == Some(values)
    ensures log == [Sent(FetchRequest("/api/bookings", "POST", "application/json", ToJson(values))),
                    Stored(values), Navigated(SuccessPath(locale))]
  {
    var store := new BookingStore.Empty();
    var form := new BookingForm(locale, EnglishValidation.GroupBookingSchema(), isEmail, store);
    EnglishValidation.NoIssuesIffRules(isEmail, values);
    form.Submit(values);
    form.Settle(Responded(true));
    stored, log := store.bookingData, form.effects;
  }

  /**
    The same submission when the response is not ok or the network fails:
    the request is sent, nothing is stored, there is no navigation, and the
    form is enabled again.
  */
  method SubmitFailed(locale: string, isEmail: string -> bool, values: BookingData, outcome: FetchOutcome)
    returns (stored: Option<BookingData>, log: seq<Effect>, disabled: bool)
    requires EnglishValidation.NineRulesHold(isEmail, values)
    requires outcome != Responded(true)
    ensures stored == None
    ensures log == [Sent(SubmissionRequest(values))]
    ensures !disabled
  {
    var store := new BookingStore.Empty();
    var form := new BookingForm(locale, EnglishValidation.GroupBookingSchema(), isEmail, store);
    EnglishValidation.NoIssuesIffRules(isEmail, values);
    form.Submit(values);
    form.Settle(outcome);
    stored, log, disabled := store.bookingData, form.effects, form.SubmitDisabled();
  }

  /** A second click while the first submission is in flight sends nothing more. */
  method DoubleSubmitSendsOnce(locale: string, isEmail: string -> bool, values: BookingData, again: BookingData)
    returns (log: seq<Effect>)
    requires EnglishValidation.NineRulesHold(isEmail, values)
    ensures log == [Sent(SubmissionRequest(values))]
  {
    var store := new BookingStore.Empty();
    var form := new BookingForm(locale, EnglishValidation.GroupBookingSchema(), isEmail, store);
    EnglishValidation.NoIssuesIffRules(isEmail, values);
    form.Submit(values);
    form.Submit(again);
    log := form.effects;
  }

  /** The enquiry of the form's tests is one the schema accepts, and its success page is "/en-GB/success". */
  lemma TestEnquiryAccepted(isEmail: string -> bool)
    requires isEmail("john@example.com")
    ensures EnglishValidation.NineRulesHold(isEmail, BookingData("John", "Doe", "john@example.com", "1234567890",
              "Test Company", "1-10", "2024-12-01", "2024-12-05", "London", Some("")))
    ensures SuccessPath("en-GB") == "/en-GB/success"
  {
  }

  /**
    Submitting the untouched form with messages translated by `t`: no
    request, and the nine translated message keys as errors, in key order.
    With `t` the identity these are the keys themselves.
  */
  method SubmitEmptyForm(t: string -> string, isEmail: string -> bool) returns (errors: seq<Issue>, log: seq<Effect>)
    requires !isEmail("")
    ensures log == []
    ensures errors == [
              RuleFailed(FirstName, t(LocalizedValidation.ErrorKey(FirstName))),
              RuleFailed(LastName, t(LocalizedValidation.ErrorKey(LastName))),
              RuleFailed(Email, t(LocalizedValidation.ErrorKey(Email))),
              RuleFailed(Phone, t(LocalizedValidation.ErrorKey(Phone))),
              RuleFailed(Company, t(LocalizedValidation.ErrorKey(Company))),
              RuleFailed(GroupSize, t(LocalizedValidation.ErrorKey(GroupSize))),
              RuleFailed(ArrivalDate, t(LocalizedValidation.ErrorKey(ArrivalDate))),
              RuleFailed(DepartureDate, t(LocalizedValidation.ErrorKey(DepartureDate))),
              RuleFailed(Location, t(LocalizedValidation.ErrorKey(Location)))]
  {
    var store := new BookingStore.Empty();
    var schema := LocalizedValidation.CreateGroupBookingSchema(t);
    var form := new BookingForm("en-GB", schema, isEmail, store);
    LocalizedValidation.EmptyFormShowsKeys(t, isEmail);
    form.Submit(EmptyForm);
    errors, log := form.errors, form.effects;
  }
}
