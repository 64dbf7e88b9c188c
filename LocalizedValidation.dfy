/**
  The schema whose messages come from a translation function
  (`createGroupBookingSchema(t)` in src/lib/validations.ts).
*/
module LocalizedValidation {
  import opened Wrappers
  import opened BookingSchema
  import EnglishValidation

  /**
    The translation key of a field's error message, as the schema file spells
    it.  `requirements` declares no message; its value here is unused filler
    that keeps the function total.
  */
  function ErrorKey(f: Field): string
  {
    match f
    case FirstName => "form.fields.firstName.error"
    case LastName => "form.fields.lastName.error"
    case Email => "form.fields.email.error"
    case Phone => "form.fields.phone.error"
    case Company => "form.fields.company.error"
    case GroupSize => "form.fields.groupSize.error"
    case ArrivalDate => "form.fields.arrivalDate.error"
    case DepartureDate => "form.fields.departureDate.error"
    case Location => "form.fields.location.error"
    case Requirements => "form.fields.requirements.error"
  }

  /** The check each key is declared with; `t` is applied to each required key's message key. */
  function LocalizedCheck(t: string -> string, f: Field): Check
  {
    match f
    case Email => EmailFormat(t(ErrorKey(f)))
    case Phone => MinLength(10, t(ErrorKey(f)))
    case Requirements => OptionalString
    case _ => MinLength(1, t(ErrorKey(f)))
  }

  /** The schema built once from `t`: its messages are the values `t` gave at construction. */
  function CreateGroupBookingSchema(t: string -> string): (s: Schema)
    ensures WellFormed(s)
    ensures forall f: Field :: s[f] == LocalizedCheck(t, f)
  {
    var s := map f | f in FieldOrder :: LocalizedCheck(t, f);
    assert forall f: Field :: f in s by {
      forall f: Field ensures f in s {
        FieldOrderComplete(f);
      }
    }
    s
  }

  /** Every rule failure the translated schema reports carries `t` of that field's key. */
  lemma ReportedMessagesAreTranslated(t: string -> string, isEmail: string -> bool, body: Json, i: Issue)
    requires i in Issues(CreateGroupBookingSchema(t), isEmail, body)
    requires i.RuleFailed?
    ensures i.field != Requirements && i.message == t(ErrorKey(i.field))
  {
  }

  lemma RuleFailedMessage(t: string -> string, isEmail: string -> bool, ms: map<string, Json>, g: Field)
    requires Verdict(CreateGroupBookingSchema(t), isEmail, ms, g).Some?
    requires Verdict(CreateGroupBookingSchema(t), isEmail, ms, g).value.RuleFailed?
    ensures g != Requirements
    ensures Verdict(CreateGroupBookingSchema(t), isEmail, ms, g).value == RuleFailed(g, t(ErrorKey(g)))
  {
    var c := CreateGroupBookingSchema(t)[g];
    assert c == LocalizedCheck(t, g);
  }

  lemma SamePredicateAt(t: string -> string, f: Field)
    ensures Predicate(LocalizedCheck(t, f)) == Predicate(EnglishValidation.EnglishCheck(f))
  {
    match f
    case FirstName =>
    case LastName =>
    case Email =>
    case Phone =>
    case Company =>
    case GroupSize =>
    case ArrivalDate =>
    case DepartureDate =>
    case Location =>
    case Requirements =>
  }

  /** The predicates are those of the English schema: same keys, thresholds 1 and 10, email, optional requirements. */
  lemma SamePredicatesAsEnglish(t: string -> string)
    ensures CreateGroupBookingSchema(t).Keys == EnglishValidation.GroupBookingSchema().Keys
    ensures forall f: Field :: Predicate(CreateGroupBookingSchema(t)[f]) == Predicate(EnglishValidation.GroupBookingSchema()[f])
  {
    var s, e := CreateGroupBookingSchema(t), EnglishValidation.GroupBookingSchema();
    forall f: Field ensures Predicate(s[f]) == Predicate(e[f]) {
      SamePredicateAt(t, f);
    }
    assert forall f :: f in s.Keys <==> f in e.Keys;
  }

  /** Two schemas with the same predicates give every key of an object the same pass/fail verdict. */
  lemma SameVerdicts(a: Schema, b: Schema, isEmail: string -> bool, ms: map<string, Json>)
    requires WellFormed(a) && WellFormed(b)
    requires forall f: Field :: Predicate(a[f]) == Predicate(b[f])
    ensures forall f: Field :: Verdict(a, isEmail, ms, f).None? <==> Verdict(b, isEmail, ms, f).None?
  {
    forall f: Field ensures Verdict(a, isEmail, ms, f).None? <==> Verdict(b, isEmail, ms, f).None? {
      assert Predicate(a[f]) == Predicate(b[f]);
    }
  }

  /**
    Whatever `t` is, the translated schema accepts exactly the bodies the
    English schema accepts, and returns the same booking for them.
  */
  lemma AcceptsLikeEnglish(t: string -> string, isEmail: string -> bool, body: Json)
    ensures Validate(CreateGroupBookingSchema(t), isEmail, body).Ok? <==> Validate(EnglishValidation.GroupBookingSchema(), isEmail, body).Ok?
    ensures Validate(CreateGroupBookingSchema(t), isEmail, body).Ok? ==>
              Validate(CreateGroupBookingSchema(t), isEmail, body).value == Validate(EnglishValidation.GroupBookingSchema(), isEmail, body).value
  {
    var s, e := CreateGroupBookingSchema(t), EnglishValidation.GroupBookingSchema();
    if body.JObject? {
      var ms := body.members;
      SamePredicatesAsEnglish(t);
      SameVerdicts(s, e, isEmail, ms);
      IssuesOverMembers(s, isEmail, ms, FieldOrder);
      IssuesOverMembers(e, isEmail, ms, FieldOrder);
      var iss, ie := Issues(s, isEmail, body), Issues(e, isEmail, body);
      if iss != [] {
        assert iss[0] in iss;
        var g :| g in FieldOrder && Verdict(s, isEmail, ms, g) == Some(iss[0]);
        assert Verdict(e, isEmail, ms, g).value in ie;
      }
      if ie != [] {
        assert ie[0] in ie;
        var g :| g in FieldOrder && Verdict(e, isEmail, ms, g) == Some(ie[0]);
        assert Verdict(s, isEmail, ms, g).value in iss;
      }
    }
  }

  /** `t` is called once per required key when the schema is built; only those nine answers matter. */
  lemma MessagesFixedAtConstruction(t: string -> string, u: string -> string)
    requires forall f: Field :: f != Requirements ==> t(ErrorKey(f)) == u(ErrorKey(f))
    ensures CreateGroupBookingSchema(t) == CreateGroupBookingSchema(u)
  {
    var s, r := CreateGroupBookingSchema(t), CreateGroupBookingSchema(u);
    forall f: Field ensures s[f] == r[f] {
      assert s[f] == LocalizedCheck(t, f) && r[f] == LocalizedCheck(u, f);
    }
    assert forall f :: f in s.Keys <==> f in r.Keys;
  }

  /** With any `t`, each required key of the untouched form fails with `t` of its message key. */
  lemma EmptyFormVerdicts(t: string -> string, isEmail: string -> bool)
    requires !isEmail("")
    ensures forall f: Field :: Verdict(CreateGroupBookingSchema(t), isEmail, ToJson(EmptyForm).members, f) ==
              if f == Requirements then None else Some(RuleFailed(f, t(ErrorKey(f))))
  {
    var s := CreateGroupBookingSchema(t);
    forall g: Field ensures s[g].MinLength? ==> s[g].min >= 1 {
      assert s[g] == LocalizedCheck(t, g);
    }
    forall f: Field ensures Verdict(s, isEmail, ToJson(EmptyForm).members, f) ==
                              if f == Requirements then None else Some(RuleFailed(f, t(ErrorKey(f)))) {
      EmptyFormFails(s, isEmail, f);
      assert s[f] == LocalizedCheck(t, f);
    }
  }

  /** An untouched form surfaces the nine translated message keys, in key order. */
  lemma EmptyFormShowsKeys(t: string -> string, isEmail: string -> bool)
    requires !isEmail("")
    ensures Issues(CreateGroupBookingSchema(t), isEmail, ToJson(EmptyForm)) == [
              RuleFailed(FirstName, t(ErrorKey(FirstName))),
              RuleFailed(LastName, t(ErrorKey(LastName))),
              RuleFailed(Email, t(ErrorKey(Email))),
              RuleFailed(Phone, t(ErrorKey(Phone))),
              RuleFailed(Company, t(ErrorKey(Company))),
              RuleFailed(GroupSize, t(ErrorKey(GroupSize))),
              RuleFailed(ArrivalDate, t(ErrorKey(ArrivalDate))),
              RuleFailed(DepartureDate, t(ErrorKey(DepartureDate))),
              RuleFailed(Location, t(ErrorKey(Location)))]
  {
    var s := CreateGroupBookingSchema(t);
    EmptyFormVerdicts(t, isEmail);
    AllRequiredFailing(s, isEmail, ToJson(EmptyForm).members);
  }

  /**
    With a translator that returns each of the nine message keys unchanged,
    whatever it does with other keys, the untouched form reports the nine
    keys verbatim, in field order.
  */
  lemma EmptyFormShowsTestKeys(t: string -> string, isEmail: string -> bool)
    requires forall f: Field :: f != Requirements ==> t(ErrorKey(f)) == ErrorKey(f)
    requires !isEmail("")
    ensures Issues(CreateGroupBookingSchema(t), isEmail, ToJson(EmptyForm)) == [
              RuleFailed(FirstName, "form.fields.firstName.error"),
              RuleFailed(LastName, "form.fields.lastName.error"),
              RuleFailed(Email, "form.fields.email.error"),
              RuleFailed(Phone, "form.fields.phone.error"),
              RuleFailed(Company, "form.fields.company.error"),
              RuleFailed(GroupSize, "form.fields.groupSize.error"),
              RuleFailed(ArrivalDate, "form.fields.arrivalDate.error"),
              RuleFailed(DepartureDate, "form.fields.departureDate.error"),
              RuleFailed(Location, "form.fields.location.error")]
  {
    EmptyFormShowsKeys(t, isEmail);
    assert t(ErrorKey(FirstName)) == "form.fields.firstName.error";
    assert t(ErrorKey(LastName)) == "form.fields.lastName.error";
    assert t(ErrorKey(Email)) == "form.fields.email.error";
    assert t(ErrorKey(Phone)) == "form.fields.phone.error";
    assert t(ErrorKey(Company)) == "form.fields.company.error";
    assert t(ErrorKey(GroupSize)) == "form.fields.groupSize.error";
    assert t(ErrorKey(ArrivalDate)) == "form.fields.arrivalDate.error";
    assert t(ErrorKey(DepartureDate)) == "form.fields.departureDate.error";
    assert t(ErrorKey(Location)) == "form.fields.location.error";
  }

  /** The dictionary the form's tests install as their translations. */
  const TestTranslations: map<string, string> := map[
    "firstName.error" := "First name is required",
    "lastName.error" := "Last name is required",
    "email.error" := "Invalid email address",
    "phone.error" := "Phone number must be at least 10 digits",
    "company.error" := "Company name is required",
    "groupSize.error" := "Group size is required",
    "arrivalDate.error" := "Arrival date is required",
    "departureDate.error" := "Departure date is required",
    "location.error" := "Location is required",
    "firstName.label" := "First Name",
    "lastName.label" := "Last Name",
    "email.label" := "Email Address",
    "phone.label" := "Phone Number",
    "company.label" := "Company Name",
    "groupSize.label" := "Group Size",
    "arrivalDate.label" := "Arrival Date",
    "departureDate.label" := "Departure Date",
    "location.label" := "Preferred Location",
    "firstName.placeholder" := "Enter your first name",
    "lastName.placeholder" := "Enter your last name",
    "email.placeholder" := "Enter your email",
    "phone.placeholder" := "Enter your phone number",
    "company.placeholder" := "Enter your company name",
    "groupSize.placeholder" := "Select group size",
    "location.placeholder" := "Enter preferred location"]

  /** The tests' translator `(key) => translations[key] || key`: a missing or empty entry falls back to the key. */
  function TestTranslator(key: string): string
  {
    if key in TestTranslations && TestTranslations[key] != "" then TestTranslations[key] else key
  }

  /**
    The tests' translator is not the identity, but none of the nine message
    keys is in its dictionary, so it returns each of them unchanged.
  */
  lemma TestTranslatorKeepsMessageKeys()
    ensures TestTranslator("firstName.error") == "First name is required"
    ensures forall f: Field :: f != Requirements ==> TestTranslator(ErrorKey(f)) == ErrorKey(f)
  {
    forall f: Field | f != Requirements ensures TestTranslator(ErrorKey(f)) == ErrorKey(f) {
      MessageKeyUntranslated(f);
    }
  }

  /** Every dictionary entry is shorter than any message key, so no message key is an entry. */
  lemma MessageKeyUntranslated(f: Field)
    requires f != Requirements
    ensures ErrorKey(f) !in TestTranslations
  {
    assert |ErrorKey(f)| >= 23;
    forall k | k in TestTranslations ensures |k| <= 21 {
    }
  }

  /** With the tests' own translator, the untouched form shows the nine keys the test waits for. */
  lemma EmptyFormWithTestTranslator(isEmail: string -> bool)
    requires !isEmail("")
    ensures Issues(CreateGroupBookingSchema(TestTranslator), isEmail, ToJson(EmptyForm)) == [
              RuleFailed(FirstName, "form.fields.firstName.error"),
              RuleFailed(LastName, "form.fields.lastName.error"),
              RuleFailed(Email, "form.fields.email.error"),
              RuleFailed(Phone, "form.fields.phone.error"),
              RuleFailed(Company, "form.fields.company.error"),
              RuleFailed(GroupSize, "form.fields.groupSize.error"),
              RuleFailed(ArrivalDate, "form.fields.arrivalDate.error"),
              RuleFailed(DepartureDate, "form.fields.departureDate.error"),
              RuleFailed(Location, "form.fields.location.error")]
  {
    TestTranslatorKeepsMessageKeys();
    EmptyFormShowsTestKeys(TestTranslator, isEmail);
  }
}
