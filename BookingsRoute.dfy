/**
  The submission endpoint `POST /api/bookings` (src/app/api/bookings/route.ts).

  The handler is stateless: it parses the request body as JSON, parses the
  result with the booking schema, and answers `{ success: true }` (status 200)
  or, for any thrown error, `{ error: "Invalid form data" }` with status 400.
  The validated data is only logged, so no state outlives a request.

  The handler imports `groupBookingSchema` from `@/lib/validations`, which
  exports only `createGroupBookingSchema`.  The binding the handler sees is
  therefore a parameter: `Some(schema)` for a schema actually bound, `None`
  for the unresolved import of the code as written, whose `.parse` call
  throws inside the `try`.
*/
module BookingsRoute {
  import opened Wrappers
  import opened BookingSchema
  import EnglishValidation

  /** The JSON body of a response. */
  datatype ResponseBody =
    | Acknowledged            // { success: true }
    | Rejected(error: string) // { error: ... }

  datatype Response = Response(status: nat, body: ResponseBody)

  const InvalidFormData: string := "Invalid form data"

  /** `NextResponse.json({ success: true })`, with the default status. */
  const Accepted: Response := Response(200, Acknowledged)

  /** `NextResponse.json({ error: "Invalid form data" }, { status: 400 })`. */
  const BadRequest: Response := Response(400, Rejected(InvalidFormData))

  /**
    The handler, given the schema binding it runs with and the outcome of
    `request.json()` (`None` when the body is not valid JSON).
  */
  function Post(binding: Option<Schema>, isEmail: string -> bool, body: Option<Json>): (r: Response)
    requires binding.Some? ==> WellFormed(binding.value)
    ensures r == Accepted || r == BadRequest
    ensures r == Accepted <==> binding.Some? && body.Some? && Issues(binding.value, isEmail, body.value) == []
  {
    match body
    case None => BadRequest  // `request.json()` threw
    case Some(json) =>
      match binding
      case None => BadRequest  // calling `.parse` on the unbound import threw
      case Some(schema) => if Validate(schema, isEmail, json).Ok? then Accepted else BadRequest
  }

  /** The binding of `groupBookingSchema` in the code as written: the module does not export it. */
  const ImportedSchemaAsWritten: Option<Schema> := None

  /** The handler as written: every request is answered 400, whatever its body. */
  function PostAsWritten(isEmail: string -> bool, body: Option<Json>): (r: Response)
    ensures r == BadRequest
  {
    Post(ImportedSchemaAsWritten, isEmail, body)
  }

  /** The handler with `groupBookingSchema` bound to the English schema of src/utils/validation/validations.ts. */
  function PostCorrected(isEmail: string -> bool, body: Option<Json>): (r: Response)
    ensures r == Accepted || r == BadRequest
    ensures r == Accepted <==> body.Some? && Validate(EnglishValidation.GroupBookingSchema(), isEmail, body.value).Ok?
  {
    Post(Some(EnglishValidation.GroupBookingSchema()), isEmail, body)
  }

  /**
    Client and server agree: a booking the form's schema accepts is
    acknowledged when its JSON reaches the corrected handler, and one it
    rejects is refused.
  */
  lemma CorrectedAgreesWithSchema(isEmail: string -> bool, d: BookingData)
    ensures PostCorrected(isEmail, Some(ToJson(d))) == Accepted <==> EnglishValidation.NineRulesHold(isEmail, d)
  {
    EnglishValidation.AcceptedIff(isEmail, d);
  }

  /** A body that is not JSON, or not an object, is refused with the one error response. */
  lemma MalformedBodiesRejected(binding: Option<Schema>, isEmail: string -> bool, j: Json)
    requires binding.Some? ==> WellFormed(binding.value)
    requires !j.JObject?
    ensures Post(binding, isEmail, None) == BadRequest
    ensures Post(binding, isEmail, Some(j)) == BadRequest
  {
  }

  /** The acknowledgement never echoes the data: any two accepted bodies get the same response. */
  lemma ResponseIndependentOfData(binding: Option<Schema>, isEmail: string -> bool, a: Json, b: Json)
    requires binding.Some? ==> WellFormed(binding.value)
    requires Post(binding, isEmail, Some(a)).status == 200
    requires Post(binding, isEmail, Some(b)).status == 200
    ensures Post(binding, isEmail, Some(a)) == Post(binding, isEmail, Some(b)) == Accepted
  {
  }

  /** The valid enquiry of the form's tests: refused as written, acknowledged once the schema is bound. */
  lemma FindingValidEnquiryRefused(isEmail: string -> bool)
    requires isEmail("john@example.com")
    ensures var d := BookingData("John", "Doe", "john@example.com", "1234567890", "Test Company", "1-10",
                                 "2024-12-01", "2024-12-05", "London", Some(""));
            && PostAsWritten(isEmail, Some(ToJson(d))) == BadRequest
            && PostCorrected(isEmail, Some(ToJson(d))) == Accepted
  {
    var d := BookingData("John", "Doe", "john@example.com", "1234567890", "Test Company", "1-10",
                         "2024-12-01", "2024-12-05", "London", Some(""));
    CorrectedAgreesWithSchema(isEmail, d);
  }
}
