/**
  The booking enquiry entity and the meaning of a zod object schema over it.

  Both schema files of the application build the same `z.object({...})` shape:
  nine required strings and an optional `requirements` string.  This module
  fixes what such a schema does with a candidate value: every key is checked
  independently, in declaration order, and the candidate is accepted exactly
  when no key produced an issue, in which case the ten declared fields are
  returned as they were given (no transforms are declared).
*/
module BookingSchema {
  import opened Wrappers

  /** The ten keys of the booking object. */
  datatype Field =
    | FirstName | LastName | Email | Phone | Company
    | GroupSize | ArrivalDate | DepartureDate | Location | Requirements

  /** The keys in the order the schema declares them. */
  const FieldOrder: seq<Field> :=
    [FirstName, LastName, Email, Phone, Company, GroupSize, ArrivalDate, DepartureDate, Location, Requirements]

  lemma FieldOrderComplete(f: Field)
    ensures f in FieldOrder
  {
  }

  /** The property name used for a field in the JSON object and in the form. */
  function Key(f: Field): string
  {
    match f
    case FirstName => "firstName"
    case LastName => "lastName"
    case Email => "email"
    case Phone => "phone"
    case Company => "company"
    case GroupSize => "groupSize"
    case ArrivalDate => "arrivalDate"
    case DepartureDate => "departureDate"
    case Location => "location"
    case Requirements => "requirements"
  }

  /** A booking enquiry as the schema's inferred type describes it. */
  datatype BookingData = BookingData(
    firstName: string,
    lastName: string,
    email: string,
    phone: string,
    company: string,
    groupSize: string,
    arrivalDate: string,
    departureDate: string,
    location: string,
    requirements: Option<string>)

  /** The value a booking holds under a key; only `requirements` may be absent. */
  function ValueOf(d: BookingData, f: Field): (v: Option<string>)
    ensures f != Requirements ==> v.Some?
  {
    match f
    case FirstName => Some(d.firstName)
    case LastName => Some(d.lastName)
    case Email => Some(d.email)
    case Phone => Some(d.phone)
    case Company => Some(d.company)
    case GroupSize => Some(d.groupSize)
    case ArrivalDate => Some(d.arrivalDate)
    case DepartureDate => Some(d.departureDate)
    case Location => Some(d.location)
    case Requirements => d.requirements
  }

  /**
    The part of a JSON value the schema can tell apart: a string, an object,
    or anything else (number, boolean, null, array).
  */
  datatype Json = JString(s: string) | JObject(members: map<string, Json>) | JOther

  /** The member an object holds under a field's key, if any. */
  function Member(ms: map<string, Json>, f: Field): Option<Json>
  {
    if Key(f) in ms then Some(ms[Key(f)]) else None
  }

  function Lift(v: Option<string>): Option<Json>
  {
    match v
    case None => None
    case Some(s) => Some(JString(s))
  }

  /**
    The JSON object a booking serialises to (the form's request body): each
    field's string under its key, and no other member.
  */
  function ToJson(d: BookingData): (j: Json)
    ensures j.JObject?
    ensures forall f: Field :: Member(j.members, f) == Lift(ValueOf(d, f))
    ensures forall k :: k in j.members <==> exists f: Field :: Key(f) == k && ValueOf(d, f).Some?
  {
    var base := map[
      "firstName" := JString(d.firstName),
      "lastName" := JString(d.lastName),
      "email" := JString(d.email),
      "phone" := JString(d.phone),
      "company" := JString(d.company),
      "groupSize" := JString(d.groupSize),
      "arrivalDate" := JString(d.arrivalDate),
      "departureDate" := JString(d.departureDate),
      "location" := JString(d.location)];
    var j := match d.requirements
      case None => JObject(base)
      case Some(r) => JObject(base["requirements" := JString(r)]);
    assert forall f: Field :: Member(j.members, f) == Lift(ValueOf(d, f));
    assert forall k :: k in j.members ==> exists f: Field :: Key(f) == k && ValueOf(d, f).Some? by {
      forall k | k in j.members ensures exists f: Field :: Key(f) == k && ValueOf(d, f).Some? {
        if k == "requirements" {
          assert Key(Requirements) == k && Member(j.members, Requirements).Some?;
        } else {
          KeyOfMember(k);
        }
      }
    }
    j
  }

  /** Each of the nine literal keys is the key of a required field. */
  lemma KeyOfMember(k: string)
    requires k in {"firstName", "lastName", "email", "phone", "company", "groupSize", "arrivalDate", "departureDate", "location"}
    ensures exists f: Field :: Key(f) == k && f != Requirements
  {
    if k == "firstName" { assert Key(FirstName) == k; }
    else if k == "lastName" { assert Key(LastName) == k; }
    else if k == "email" { assert Key(Email) == k; }
    else if k == "phone" { assert Key(Phone) == k; }
    else if k == "company" { assert Key(Company) == k; }
    else if k == "groupSize" { assert Key(GroupSize) == k; }
    else if k == "arrivalDate" { assert Key(ArrivalDate) == k; }
    else if k == "departureDate" { assert Key(DepartureDate) == k; }
    else { assert Key(Location) == k; }
  }

  /**
    The check attached to one key: `z.string().min(n, message)`,
    `z.string().email(message)` or `z.string().optional()`.
  */
  datatype Check =
    | MinLength(min: nat, message: string)
    | EmailFormat(message: string)
    | OptionalString

  /** Whether a string passes a check; the email grammar is a parameter. */
  predicate Accepts(c: Check, isEmail: string -> bool, s: string)
  {
    match c
    case MinLength(n, _) => |s| >= n
    case EmailFormat(_) => isEmail(s)
    case OptionalString => true
  }

  /** A schema gives every key its check. */
  type Schema = map<Field, Check>

  /** The shape both schema files have: every key checked, only `requirements` optional. */
  predicate WellFormed(schema: Schema)
  {
    && (forall f: Field :: f in schema)
    && (forall f :: f in schema ==> (schema[f].OptionalString? <==> f == Requirements))
  }

  /**
    One entry of a failed parse: a key whose string broke its rule (with the
    rule's message), a key that is missing or not a string (zod's own
    `invalid_type` issue, whose wording is zod's), or a candidate that is not
    an object at all.
  */
  datatype Issue =
    | RuleFailed(field: Field, message: string)
    | WrongType(field: Field)
    | NotAnObject

  predicate About(i: Issue, f: Field)
  {
    !i.NotAnObject? && i.field == f
  }

  /** What a key contributes to the parse: no issue, or exactly one about that key. */
  function MemberIssue(c: Check, isEmail: string -> bool, f: Field, m: Option<Json>): (r: Option<Issue>)
    ensures r.Some? ==> About(r.value, f)
    ensures r.None? <==>
              || (m.None? && c.OptionalString?)
              || (m.Some? && m.value.JString? && Accepts(c, isEmail, m.value.s))
    ensures r.Some? && r.value.RuleFailed? ==> !c.OptionalString? && r.value.message == c.message
    ensures m.Some? && m.value.JString? && !Accepts(c, isEmail, m.value.s) ==> r == Some(RuleFailed(f, c.message))
    ensures (m.None? && !c.OptionalString?) || (m.Some? && !m.value.JString?) ==> r == Some(WrongType(f))
  {
    match m
    case None => if c.OptionalString? then None else Some(WrongType(f))
    case Some(JString(s)) => if Accepts(c, isEmail, s) then None else Some(RuleFailed(f, c.message))
    case Some(_) => Some(WrongType(f))
  }

  /** The verdict on one key of an object under a schema. */
  function Verdict(schema: Schema, isEmail: string -> bool, ms: map<string, Json>, f: Field): Option<Issue>
    requires WellFormed(schema)
  {
    MemberIssue(schema[f], isEmail, f, Member(ms, f))
  }

  /** The issues of the keys `fs`, in order; keys are not short-circuited. */
  function IssuesOver(schema: Schema, isEmail: string -> bool, ms: map<string, Json>, fs: seq<Field>): seq<Issue>
    requires WellFormed(schema)
  {
    if fs == [] then []
    else
      var rest := IssuesOver(schema, isEmail, ms, fs[1..]);
      match Verdict(schema, isEmail, ms, fs[0])
      case None => rest
      case Some(i) => [i] + rest
  }

  /**
    The issues of the keys `fs` are exactly their verdicts that are issues:
    a failing key always reports, and nothing else is reported.
  */
  lemma {:induction false} IssuesOverMembers(schema: Schema, isEmail: string -> bool, ms: map<string, Json>, fs: seq<Field>)
    requires WellFormed(schema)
    ensures forall f :: f in fs && Verdict(schema, isEmail, ms, f).Some? ==>
              Verdict(schema, isEmail, ms, f).value in IssuesOver(schema, isEmail, ms, fs)
    ensures forall i :: i in IssuesOver(schema, isEmail, ms, fs) ==>
              exists f :: f in fs && Verdict(schema, isEmail, ms, f) == Some(i)
  {
    if fs != [] {
      IssuesOverMembers(schema, isEmail, ms, fs[1..]);
      forall f | f in fs && Verdict(schema, isEmail, ms, f).Some?
        ensures Verdict(schema, isEmail, ms, f).value in IssuesOver(schema, isEmail, ms, fs)
      {
        if f != fs[0] {
          assert f in fs[1..];
        }
      }
    }
  }

  /** One step of `IssuesOver`: the first key's verdict, then the rest. */
  lemma IssuesOverCons(schema: Schema, isEmail: string -> bool, ms: map<string, Json>, f: Field, fs: seq<Field>)
    requires WellFormed(schema)
    ensures IssuesOver(schema, isEmail, ms, [f] + fs) ==
              (match Verdict(schema, isEmail, ms, f) case None => [] case Some(i) => [i]) + IssuesOver(schema, isEmail, ms, fs)
  {
  }

  /**
    Every issue `schema.parse(body)` reports: for an object, exactly the
    issues of its failing keys; for anything else, the one type issue.
  */
  function Issues(schema: Schema, isEmail: string -> bool, body: Json): (r: seq<Issue>)
    requires WellFormed(schema)
    ensures !body.JObject? ==> r == [NotAnObject]
    ensures body.JObject? ==> forall f: Field :: Verdict(schema, isEmail, body.members, f).Some? ==>
              Verdict(schema, isEmail, body.members, f).value in r
    ensures body.JObject? ==> forall i :: i in r ==> exists f: Field :: Verdict(schema, isEmail, body.members, f) == Some(i)
  {
    match body
    case JObject(ms) =>
      IssuesOverMembers(schema, isEmail, ms, FieldOrder);
      assert forall f: Field :: f in FieldOrder by {
        forall f: Field ensures f in FieldOrder {
          FieldOrderComplete(f);
        }
      }
      IssuesOver(schema, isEmail, ms, FieldOrder)
    case _ => [NotAnObject]
  }

  /** The string held under a key, or "" when there is none. */
  function Text(ms: map<string, Json>, f: Field): string
  {
    match Member(ms, f)
    case Some(JString(s)) => s
    case _ => ""
  }

  /** The booking read off an object; keys outside the schema are dropped. */
  function Decode(ms: map<string, Json>): BookingData
  {
    BookingData(
      Text(ms, FirstName), Text(ms, LastName), Text(ms, Email), Text(ms, Phone), Text(ms, Company),
      Text(ms, GroupSize), Text(ms, ArrivalDate), Text(ms, DepartureDate), Text(ms, Location),
      match Member(ms, Requirements) case Some(JString(s)) => Some(s) case _ => None)
  }

  /** Reading a booking's own JSON gives the booking back. */
  lemma DecodeToJson(d: BookingData)
    ensures Decode(ToJson(d).members) == d
  {
    var ms := ToJson(d).members;
    forall f: Field ensures Lift(ValueOf(Decode(ms), f)) == Lift(ValueOf(d, f)) {
      assert Member(ms, f) == Lift(ValueOf(d, f));
    }
    SameValuesSameBooking(Decode(ms), d);
  }

  /** A parse with no issues leaves every key a string, or absent only where optional. */
  lemma NoIssuesMeansStrings(schema: Schema, isEmail: string -> bool, ms: map<string, Json>, f: Field)
    requires WellFormed(schema)
    requires IssuesOver(schema, isEmail, ms, FieldOrder) == []
    ensures Verdict(schema, isEmail, ms, f).None?
    ensures Lift(ValueOf(Decode(ms), f)) == Member(ms, f)
  {
    FieldOrderComplete(f);
    IssuesOverMembers(schema, isEmail, ms, FieldOrder);
  }

  /**
    `schema.parse(body)`: the booking when no key has an issue, otherwise all
    the issues.  An accepted booking holds exactly the ten declared members of
    the body, unchanged.
  */
  function Validate(schema: Schema, isEmail: string -> bool, body: Json): (r: Result<BookingData, seq<Issue>>)
    requires WellFormed(schema)
    ensures r.Ok? <==> Issues(schema, isEmail, body) == []
    ensures r.Err? ==> r.error == Issues(schema, isEmail, body)
    ensures r.Ok? ==> body.JObject? && forall f: Field :: Member(ToJson(r.value).members, f) == Member(body.members, f)
  {
    if Issues(schema, isEmail, body) != [] then Err(Issues(schema, isEmail, body))
    else
      var d := Decode(body.members);
      assert forall f: Field :: Member(ToJson(d).members, f) == Member(body.members, f) by {
        forall f: Field ensures Member(ToJson(d).members, f) == Member(body.members, f) {
          NoIssuesMeansStrings(schema, isEmail, body.members, f);
        }
      }
      Ok(d)
  }

  /** A field of a booking passes when it is absent or its string is accepted by its check. */
  predicate Passes(schema: Schema, isEmail: string -> bool, d: BookingData, f: Field)
    requires WellFormed(schema)
  {
    ValueOf(d, f).None? || Accepts(schema[f], isEmail, ValueOf(d, f).value)
  }

  /** The verdict on a booking's field: no issue when it passes, else its rule's message. */
  lemma RecordVerdict(schema: Schema, isEmail: string -> bool, d: BookingData, f: Field)
    requires WellFormed(schema)
    ensures Verdict(schema, isEmail, ToJson(d).members, f) ==
              if Passes(schema, isEmail, d, f) then None else Some(RuleFailed(f, schema[f].message))
  {
    assert Member(ToJson(d).members, f) == Lift(ValueOf(d, f));
  }

  /** An object has an issue about a key exactly when that key's own verdict is an issue. */
  lemma {:induction false} IssueAboutIff(schema: Schema, isEmail: string -> bool, ms: map<string, Json>, f: Field)
    requires WellFormed(schema)
    ensures (exists i :: i in Issues(schema, isEmail, JObject(ms)) && About(i, f)) <==> Verdict(schema, isEmail, ms, f).Some?
    ensures forall i :: i in Issues(schema, isEmail, JObject(ms)) && About(i, f) ==> Verdict(schema, isEmail, ms, f) == Some(i)
  {
  }

  /**
    For a booking, the issue about a field is there exactly when that field
    fails its check, and it is the check's own message.
  */
  lemma FieldRejectedIff(schema: Schema, isEmail: string -> bool, d: BookingData, f: Field)
    requires WellFormed(schema)
    ensures (exists i :: i in Issues(schema, isEmail, ToJson(d)) && About(i, f)) <==> !Passes(schema, isEmail, d, f)
    ensures !Passes(schema, isEmail, d, f) ==> f != Requirements && RuleFailed(f, schema[f].message) in Issues(schema, isEmail, ToJson(d))
    ensures forall i :: i in Issues(schema, isEmail, ToJson(d)) && About(i, f) ==> i == RuleFailed(f, schema[f].message)
  {
    var ms := ToJson(d).members;
    IssueAboutIff(schema, isEmail, ms, f);
    assert Member(ms, f) == Lift(ValueOf(d, f));
  }

  /** Each field's verdict depends on that field's value and nothing else. */
  lemma FieldVerdictIsLocal(schema: Schema, isEmail: string -> bool, d: BookingData, e: BookingData, f: Field, i: Issue)
    requires WellFormed(schema)
    requires ValueOf(d, f) == ValueOf(e, f)
    requires About(i, f)
    ensures i in Issues(schema, isEmail, ToJson(d)) <==> i in Issues(schema, isEmail, ToJson(e))
  {
    FieldRejectedIff(schema, isEmail, d, f);
    FieldRejectedIff(schema, isEmail, e, f);
  }

  lemma SameValuesSameBooking(a: BookingData, b: BookingData)
    requires forall f: Field :: Lift(ValueOf(a, f)) == Lift(ValueOf(b, f))
    ensures a == b
  {
    assert Lift(ValueOf(a, FirstName)) == Lift(ValueOf(b, FirstName));
    assert Lift(ValueOf(a, LastName)) == Lift(ValueOf(b, LastName));
    assert Lift(ValueOf(a, Email)) == Lift(ValueOf(b, Email));
    assert Lift(ValueOf(a, Phone)) == Lift(ValueOf(b, Phone));
    assert Lift(ValueOf(a, Company)) == Lift(ValueOf(b, Company));
    assert Lift(ValueOf(a, GroupSize)) == Lift(ValueOf(b, GroupSize));
    assert Lift(ValueOf(a, ArrivalDate)) == Lift(ValueOf(b, ArrivalDate));
    assert Lift(ValueOf(a, DepartureDate)) == Lift(ValueOf(b, DepartureDate));
    assert Lift(ValueOf(a, Location)) == Lift(ValueOf(b, Location));
    assert Lift(ValueOf(a, Requirements)) == Lift(ValueOf(b, Requirements));
  }

  lemma AllPassWhenNoIssues(schema: Schema, isEmail: string -> bool, d: BookingData)
    requires WellFormed(schema)
    requires Issues(schema, isEmail, ToJson(d)) == []
    ensures forall f: Field :: Passes(schema, isEmail, d, f)
  {
    forall f: Field ensures Passes(schema, isEmail, d, f) {
      FieldRejectedIff(schema, isEmail, d, f);
    }
  }

  lemma SomeFieldFailsWhenIssues(schema: Schema, isEmail: string -> bool, d: BookingData)
    requires WellFormed(schema)
    requires Issues(schema, isEmail, ToJson(d)) != []
    ensures exists f: Field :: !Passes(schema, isEmail, d, f)
  {
    var ms := ToJson(d).members;
    var r := Issues(schema, isEmail, JObject(ms));
    IssuesOverMembers(schema, isEmail, ms, FieldOrder);
    assert r[0] in r;
    var g :| g in FieldOrder && Verdict(schema, isEmail, ms, g) == Some(r[0]);
    assert Member(ms, g) == Lift(ValueOf(d, g));
    assert !Passes(schema, isEmail, d, g);
  }

  /** A booking's JSON has no issue exactly when every field passes. */
  lemma NoIssuesIff(schema: Schema, isEmail: string -> bool, d: BookingData)
    requires WellFormed(schema)
    ensures (Issues(schema, isEmail, ToJson(d)) == []) <==> (forall f: Field :: Passes(schema, isEmail, d, f))
  {
    if Issues(schema, isEmail, ToJson(d)) == [] {
      AllPassWhenNoIssues(schema, isEmail, d);
    } else {
      SomeFieldFailsWhenIssues(schema, isEmail, d);
    }
  }

  /**
    Validating a booking's own JSON accepts it exactly when every field
    passes, and then returns that same booking; otherwise it reports the issues.
  */
  lemma ValidateBooking(schema: Schema, isEmail: string -> bool, d: BookingData)
    requires WellFormed(schema)
    ensures Validate(schema, isEmail, ToJson(d)) ==
              if forall f: Field :: Passes(schema, isEmail, d, f) then Ok(d) else Err(Issues(schema, isEmail, ToJson(d)))
  {
    NoIssuesIff(schema, isEmail, d);
    var v := Validate(schema, isEmail, ToJson(d));
    if v.Ok? {
      SameValuesSameBooking(v.value, d);
    }
  }

  /** A check with its message erased: the predicate alone. */
  function Predicate(c: Check): Check
  {
    match c
    case MinLength(n, _) => MinLength(n, "")
    case EmailFormat(_) => EmailFormat("")
    case OptionalString => OptionalString
  }

  /** The values an untouched form submits: every input is an empty string. */
  const EmptyForm: BookingData := BookingData("", "", "", "", "", "", "", "", "", Some(""))

  /**
    Every required key of the untouched form fails, for any schema of the
    common shape whose length rules ask for at least one character and whose
    email grammar refuses the empty string.
  */
  lemma EmptyFormFails(schema: Schema, isEmail: string -> bool, f: Field)
    requires WellFormed(schema)
    requires !isEmail("")
    requires forall g: Field :: schema[g].MinLength? ==> schema[g].min >= 1
    ensures Verdict(schema, isEmail, ToJson(EmptyForm).members, f) ==
              if f == Requirements then None else Some(RuleFailed(f, schema[f].message))
  {
    RecordVerdict(schema, isEmail, EmptyForm, f);
  }

  /** The issues a key list reports when each of its required keys fails: one rule message per required key. */
  function FailureMessages(schema: Schema, fs: seq<Field>): seq<Issue>
    requires WellFormed(schema)
  {
    if fs == [] then []
    else (if fs[0] == Requirements then [] else [RuleFailed(fs[0], schema[fs[0]].message)]) + FailureMessages(schema, fs[1..])
  }

  /** When every required key fails its rule, each key list reports exactly its keys' messages, in order. */
  lemma {:induction false} EveryKeyFailing(schema: Schema, isEmail: string -> bool, ms: map<string, Json>, fs: seq<Field>)
    requires WellFormed(schema)
    requires forall f: Field :: Verdict(schema, isEmail, ms, f) == if f == Requirements then None else Some(RuleFailed(f, schema[f].message))
    ensures IssuesOver(schema, isEmail, ms, fs) == FailureMessages(schema, fs)
    decreases |fs|
  {
    if fs != [] {
      EveryKeyFailing(schema, isEmail, ms, fs[1..]);
      IssuesOverCons(schema, isEmail, ms, fs[0], fs[1..]);
      assert [fs[0]] + fs[1..] == fs;
    }
  }

  /** The failure messages of the declared key order: the nine rule messages, in order. */
  lemma FieldOrderFailures(schema: Schema)
    requires WellFormed(schema)
    ensures FailureMessages(schema, FieldOrder) == [
              RuleFailed(FirstName, schema[FirstName].message),
              RuleFailed(LastName, schema[LastName].message),
              RuleFailed(Email, schema[Email].message),
              RuleFailed(Phone, schema[Phone].message),
              RuleFailed(Company, schema[Company].message),
              RuleFailed(GroupSize, schema[GroupSize].message),
              RuleFailed(ArrivalDate, schema[ArrivalDate].message),
              RuleFailed(DepartureDate, schema[DepartureDate].message),
              RuleFailed(Location, schema[Location].message)]
  {
    var fs := FieldOrder;
    var issues: seq<Issue> := [];
    assert FailureMessages(schema, fs[10..]) == issues;
    assert fs[9..][1..] == fs[10..];
    assert FailureMessages(schema, fs[9..]) == issues;
    assert fs[8..][1..] == fs[9..];
    issues := [RuleFailed(Location, schema[Location].message)] + issues;
    assert FailureMessages(schema, fs[8..]) == issues;
    assert fs[7..][1..] == fs[8..];
    issues := [RuleFailed(DepartureDate, schema[DepartureDate].message)] + issues;
    assert FailureMessages(schema, fs[7..]) == issues;
    assert fs[6..][1..] == fs[7..];
    issues := [RuleFailed(ArrivalDate, schema[ArrivalDate].message)] + issues;
    assert FailureMessages(schema, fs[6..]) == issues;
    assert fs[5..][1..] == fs[6..];
    issues := [RuleFailed(GroupSize, schema[GroupSize].message)] + issues;
    assert FailureMessages(schema, fs[5..]) == issues;
    assert fs[4..][1..] == fs[5..];
    issues := [RuleFailed(Company, schema[Company].message)] + issues;
    assert FailureMessages(schema, fs[4..]) == issues;
    assert fs[3..][1..] == fs[4..];
    issues := [RuleFailed(Phone, schema[Phone].message)] + issues;
    assert FailureMessages(schema, fs[3..]) == issues;
    assert fs[2..][1..] == fs[3..];
    issues := [RuleFailed(Email, schema[Email].message)] + issues;
    assert FailureMessages(schema, fs[2..]) == issues;
    assert fs[1..][1..] == fs[2..];
    issues := [RuleFailed(LastName, schema[LastName].message)] + issues;
    assert FailureMessages(schema, fs[1..]) == issues;
    assert fs[0..][1..] == fs[1..];
    issues := [RuleFailed(FirstName, schema[FirstName].message)] + issues;
    assert FailureMessages(schema, fs[0..]) == issues;
    assert fs[0..] == fs;
  }

  /** When every required key fails its rule, the issues are the nine messages in key order. */
  lemma AllRequiredFailing(schema: Schema, isEmail: string -> bool, ms: map<string, Json>)
    requires WellFormed(schema)
    requires forall f: Field :: Verdict(schema, isEmail, ms, f) == if f == Requirements then None else Some(RuleFailed(f, schema[f].message))
    ensures IssuesOver(schema, isEmail, ms, FieldOrder) == [
              RuleFailed(FirstName, schema[FirstName].message),
              RuleFailed(LastName, schema[LastName].message),
              RuleFailed(Email, schema[Email].message),
              RuleFailed(Phone, schema[Phone].message),
              RuleFailed(Company, schema[Company].message),
              RuleFailed(GroupSize, schema[GroupSize].message),
              RuleFailed(ArrivalDate, schema[ArrivalDate].message),
              RuleFailed(DepartureDate, schema[DepartureDate].message),
              RuleFailed(Location, schema[Location].message)]
  {
    EveryKeyFailing(schema, isEmail, ms, FieldOrder);
    FieldOrderFailures(schema);
  }
}
