/**
  The schema with hard-coded English messages
  (`groupBookingSchema` in src/utils/validation/validations.ts).
*/
module EnglishValidation {
  import opened Wrappers
  import opened BookingSchema

  /** The seven keys whose only rule is "at least one character". */
  const RequiredText: set<Field> := {FirstName, LastName, Company, GroupSize, ArrivalDate, DepartureDate, Location}

  /** The check each key is declared with. */
  function EnglishCheck(f: Field): Check
  {
    match f
    case FirstName => MinLength(1, "First name is required")
    case LastName => MinLength(1, "Last name is required")
    case Email => EmailFormat("Invalid email address")
    case Phone => MinLength(10, "Phone number must be at least 10 digits")
    case Company => MinLength(1, "Company name is required")
    case GroupSize => MinLength(1, "Group size is required")
    case ArrivalDate => MinLength(1, "Arrival date is required")
    case DepartureDate => MinLength(1, "Departure date is required")
    case Location => MinLength(1, "Location is required")
    case Requirements => OptionalString
  }

  function GroupBookingSchema(): (s: Schema)
    ensures WellFormed(s)
    ensures forall f: Field :: s[f] == EnglishCheck(f)
  {
    var s := map f | f in FieldOrder :: EnglishCheck(f);
    assert forall f: Field :: f in s by {
      forall f: Field ensures f in s {
        FieldOrderComplete(f);
      }
    }
    s
  }

  lemma RequiredTextPasses(isEmail: string -> bool, d: BookingData, f: Field)
    requires f in RequiredText
    ensures Passes(GroupBookingSchema(), isEmail, d, f) <==> ValueOf(d, f) != Some("")
  {
  }

  lemma PhonePasses(isEmail: string -> bool, d: BookingData)
    ensures Passes(GroupBookingSchema(), isEmail, d, Phone) <==> |d.phone| >= 10
  {
  }

  lemma EmailPasses(isEmail: string -> bool, d: BookingData)
    ensures Passes(GroupBookingSchema(), isEmail, d, Email) <==> isEmail(d.email)
  {
  }

  lemma RequirementsPass(isEmail: string -> bool, d: BookingData)
    ensures Passes(GroupBookingSchema(), isEmail, d, Requirements)
  {
  }

  /** The nine rules of the English schema, spelled out on a booking. */
  predicate NineRulesHold(isEmail: string -> bool, d: BookingData)
  {
    && d.firstName != "" && d.lastName != "" && isEmail(d.email) && |d.phone| >= 10
    && d.company != "" && d.groupSize != "" && d.arrivalDate != ""
    && d.departureDate != "" && d.location != ""
  }

  lemma RulesHoldWhenAllPass(isEmail: string -> bool, d: BookingData)
    requires forall f: Field :: Passes(GroupBookingSchema(), isEmail, d, f)
    ensures NineRulesHold(isEmail, d)
  {
    RequiredTextPasses(isEmail, d, FirstName);
    RequiredTextPasses(isEmail, d, LastName);
    RequiredTextPasses(isEmail, d, Company);
    RequiredTextPasses(isEmail, d, GroupSize);
    RequiredTextPasses(isEmail, d, ArrivalDate);
    RequiredTextPasses(isEmail, d, DepartureDate);
    RequiredTextPasses(isEmail, d, Location);
    PhonePasses(isEmail, d);
    EmailPasses(isEmail, d);
  }

  lemma AllPassWhenRulesHold(isEmail: string -> bool, d: BookingData)
    requires NineRulesHold(isEmail, d)
    ensures forall f: Field :: Passes(GroupBookingSchema(), isEmail, d, f)
  {
  }

  /**
    Each of the seven plain required fields has an issue exactly when its
    string is empty, and the issue carries that field's message.
  */
  lemma RequiredTextRule(isEmail: string -> bool, d: BookingData, f: Field)
    requires f in RequiredText
    ensures (exists i :: i in Issues(GroupBookingSchema(), isEmail, ToJson(d)) && About(i, f)) <==> ValueOf(d, f) == Some("")
    ensures forall i :: i in Issues(GroupBookingSchema(), isEmail, ToJson(d)) && About(i, f) ==>
              i == RuleFailed(f, EnglishCheck(f).message)
  {
    RequiredTextPasses(isEmail, d, f);
    FieldRejectedIff(GroupBookingSchema(), isEmail, d, f);
  }

  /** `phone` is rejected exactly when it has fewer than 10 characters, whatever they are. */
  lemma PhoneRule(isEmail: string -> bool, d: BookingData)
    ensures (exists i :: i in Issues(GroupBookingSchema(), isEmail, ToJson(d)) && About(i, Phone)) <==> |d.phone| < 10
    ensures |d.phone| < 10 ==>
              RuleFailed(Phone, "Phone number must be at least 10 digits") in Issues(GroupBookingSchema(), isEmail, ToJson(d))
  {
    PhonePasses(isEmail, d);
    FieldRejectedIff(GroupBookingSchema(), isEmail, d, Phone);
  }

  /** `email` is rejected, with "Invalid email address", exactly when the email grammar refuses it. */
  lemma EmailRule(isEmail: string -> bool, d: BookingData)
    ensures (exists i :: i in Issues(GroupBookingSchema(), isEmail, ToJson(d)) && About(i, Email)) <==> !isEmail(d.email)
    ensures !isEmail(d.email) ==> RuleFailed(Email, "Invalid email address") in Issues(GroupBookingSchema(), isEmail, ToJson(d))
  {
    EmailPasses(isEmail, d);
    FieldRejectedIff(GroupBookingSchema(), isEmail, d, Email);
  }

  /** `requirements` never has an issue, whether absent or any string. */
  lemma RequirementsNeverRejected(isEmail: string -> bool, d: BookingData)
    ensures forall i :: i in Issues(GroupBookingSchema(), isEmail, ToJson(d)) ==> !About(i, Requirements)
  {
    RequirementsPass(isEmail, d);
    FieldRejectedIff(GroupBookingSchema(), isEmail, d, Requirements);
  }

  /** A booking is accepted, and returned unchanged, exactly when all nine rules hold. */
  lemma AcceptedIff(isEmail: string -> bool, d: BookingData)
    ensures Validate(GroupBookingSchema(), isEmail, ToJson(d)).Ok? <==> NineRulesHold(isEmail, d)
    ensures Validate(GroupBookingSchema(), isEmail, ToJson(d)).Ok? ==> Validate(GroupBookingSchema(), isEmail, ToJson(d)).value == d
  {
    ValidateBooking(GroupBookingSchema(), isEmail, d);
    if NineRulesHold(isEmail, d) {
      AllPassWhenRulesHold(isEmail, d);
    } else if forall f: Field :: Passes(GroupBookingSchema(), isEmail, d, f) {
      RulesHoldWhenAllPass(isEmail, d);
    }
  }

  /** The same, stated on the issue list: a booking's JSON has no issue exactly when the nine rules hold. */
  lemma NoIssuesIffRules(isEmail: string -> bool, d: BookingData)
    ensures Issues(GroupBookingSchema(), isEmail, ToJson(d)) == [] <==> NineRulesHold(isEmail, d)
  {
    AcceptedIff(isEmail, d);
  }

  /**
    No order between the dates is checked: swapping a booking's arrival and
    departure strings never changes whether it is accepted.
  */
  lemma DatesAreNotOrdered(isEmail: string -> bool, d: BookingData)
    ensures var e := d.(arrivalDate := d.departureDate, departureDate := d.arrivalDate);
            Validate(GroupBookingSchema(), isEmail, ToJson(e)).Ok? <==> Validate(GroupBookingSchema(), isEmail, ToJson(d)).Ok?
  {
    var e := d.(arrivalDate := d.departureDate, departureDate := d.arrivalDate);
    AcceptedIff(isEmail, d);
    AcceptedIff(isEmail, e);
  }

  /** Departing before arriving is accepted: the enquiry comes back unchanged. */
  lemma DepartureBeforeArrivalAccepted(isEmail: string -> bool)
    requires isEmail("john@example.com")
    ensures var d := BookingData("John", "Doe", "john@example.com", "1234567890", "Test Company", "1-10",
                                 "2024-12-05", "2024-12-01", "London", None);
            Validate(GroupBookingSchema(), isEmail, ToJson(d)) == Ok(d)
  {
    var d := BookingData("John", "Doe", "john@example.com", "1234567890", "Test Company", "1-10",
                         "2024-12-05", "2024-12-01", "London", None);
    AcceptedIff(isEmail, d);
  }

  lemma EmptyFormVerdicts(isEmail: string -> bool)
    requires !isEmail("")
    ensures forall f: Field :: Verdict(GroupBookingSchema(), isEmail, ToJson(EmptyForm).members, f) ==
              if f == Requirements then None else Some(RuleFailed(f, EnglishCheck(f).message))
  {
    forall f: Field ensures Verdict(GroupBookingSchema(), isEmail, ToJson(EmptyForm).members, f) ==
                              if f == Requirements then None else Some(RuleFailed(f, EnglishCheck(f).message)) {
      RecordVerdict(GroupBookingSchema(), isEmail, EmptyForm, f);
    }
  }

  /** An untouched form reports all nine English messages, in schema order. */
  lemma EmptyFormIssues(isEmail: string -> bool)
    requires !isEmail("")
    ensures Issues(GroupBookingSchema(), isEmail, ToJson(EmptyForm)) == [
              RuleFailed(FirstName, "First name is required"),
              RuleFailed(LastName, "Last name is required"),
              RuleFailed(Email, "Invalid email address"),
              RuleFailed(Phone, "Phone number must be at least 10 digits"),
              RuleFailed(Company, "Company name is required"),
              RuleFailed(GroupSize, "Group size is required"),
              RuleFailed(ArrivalDate, "Arrival date is required"),
              RuleFailed(DepartureDate, "Departure date is required"),
              RuleFailed(Location, "Location is required")]
  {
    EmptyFormVerdicts(isEmail);
    AllRequiredFailing(GroupBookingSchema(), isEmail, ToJson(EmptyForm).members);
  }
}
