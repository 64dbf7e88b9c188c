# Group booking enquiry: a Dafny model

This project models the logic of a localized "Group Booking" enquiry front-end:

- the booking validation schema, in its English form and its translated form;
- the `POST /api/bookings` handler that validates a JSON body;
- the session's single-slot booking store and its `useBooking` guard;
- the form's submit path (validate, send, store, navigate) and its disabled button;
- the locale switcher's path rewrite;
- the per-request locale fallback.

Each source file is one Dafny module. `BookingSchema` is shared by both schema modules. It fixes how a zod object schema treats a candidate value: keys are checked independently, in declaration order, and every failing key reports. Undeclared keys are stripped: `Decode` reads only the ten declared keys, so an accepted value holds those and nothing else. The email grammar belongs to zod and is not visible, so it is a parameter `isEmail: string -> bool` throughout. Lemmas that need "the empty string is not an email" take that as a precondition.

The JavaScript `fetch`, `request.json()` and `router.push` calls are inputs or logged effects:

- the outcome of `request.json()` is an `Option<Json>`;
- the settled `fetch` is a `FetchOutcome`;
- the form's outward effects (request sent, store written, navigation) go into an ordered `effects` log.

The awaited network call splits the form's submit into two steps. `Submit` validates and sends; `Settle` resumes with the outcome. That is what lets the model state that the button is disabled while a request is in flight.

Where the code and the design description differ, the model follows the code:

- the success response never echoes the data;
- a failed submission is only logged (no form-level error is set);
- after a successful submission the form is enabled again rather than staying in a terminal state.

The handler and the form import `groupBookingSchema` from `src/lib/validations.ts`, but that module exports only `createGroupBookingSchema` (see Findings). The handler is therefore modelled over the schema binding it actually receives, and the form takes its schema as a constructor argument.

## Model

| member | source | states |
|---|---|---|
| BookingSchema.ToJson | src/components/GroupBookingForm.tsx:33 | the serialised body holds every field's string under its key, `requirements` only when present, and no other member |
| BookingSchema.DecodeToJson | src/components/GroupBookingForm.tsx:33 | reading a booking's own JSON body gives back exactly that booking |
| BookingSchema.MemberIssue | src/utils/validation/validations.ts:3-14 | a key passes exactly when it is absent and optional, or is a string its check accepts; a present string its rule refuses is reported as a rule failure with the rule's own message; a missing required key or a non-string is reported as a type issue; every issue is about that key |
| BookingSchema.IssuesOverMembers | src/utils/validation/validations.ts:3-14 | the reported issues are exactly the failing keys' verdicts: every failing key reports, nothing else is reported, nothing is short-circuited |
| BookingSchema.Issues | src/utils/validation/validations.ts:3-14 | the issues of `parse`: for an object, every failing key's issue and nothing but failing keys' issues; for any other value, the single not-an-object issue |
| BookingSchema.Validate | src/utils/validation/validations.ts:3-16 | parse accepts exactly when there is no issue; a rejection carries all issues; an accepted value holds exactly the body's ten declared members, unchanged |
| BookingSchema.NoIssuesMeansStrings | src/utils/validation/validations.ts:3-14 | with no issue, every required key is a string and the decoded booking holds it; `requirements` is absent or a string |
| BookingSchema.RecordVerdict | src/utils/validation/validations.ts:3-14 | a booking's field has no issue when it passes its check, else exactly a rule failure with that check's message |
| BookingSchema.IssueAboutIff | src/utils/validation/validations.ts:3-14 | an object has an issue about a key exactly when that key's own verdict is an issue, and that issue is the verdict |
| BookingSchema.FieldRejectedIff | src/utils/validation/validations.ts:3-14 | for a booking, an issue about a field exists exactly when the field fails; it is `RuleFailed(field, message)` and `requirements` never fails |
| BookingSchema.FieldVerdictIsLocal | src/utils/validation/validations.ts:3-14 | two bookings that agree on a field have the same issues about that field, whatever their other fields hold |
| BookingSchema.AllPassWhenNoIssues | src/utils/validation/validations.ts:3-14 | a booking with no issue passes every field |
| BookingSchema.SomeFieldFailsWhenIssues | src/utils/validation/validations.ts:3-14 | a booking with an issue fails some field |
| BookingSchema.NoIssuesIff | src/utils/validation/validations.ts:3-14 | a booking has no issue exactly when every field passes |
| BookingSchema.ValidateBooking | src/utils/validation/validations.ts:3-16 | validating a booking's own JSON returns that same booking when every field passes, else all its issues |
| BookingSchema.IssuesOverCons | src/utils/validation/validations.ts:3-14 | the unfolding step of the key-order walk (the first key's verdict, then the rest), used by the induction in `EveryKeyFailing` |
| BookingSchema.EmptyFormFails | src/utils/validation/validations.ts:3-14 | with length rules of at least one character and an email grammar refusing "", every required key of the untouched form fails with its rule's message, and `requirements` ("") passes |
| BookingSchema.EveryKeyFailing | src/utils/validation/validations.ts:3-14 | when every required key fails, any key list reports exactly one rule message per required key it holds, in the list's order |
| BookingSchema.FieldOrderFailures | src/utils/validation/validations.ts:3-14 | over the declared key order those messages are the nine rule messages, from firstName to location |
| BookingSchema.AllRequiredFailing | src/utils/validation/validations.ts:3-14 | when every required key fails, the issues are the nine messages in declaration order |
| EnglishValidation.GroupBookingSchema | src/utils/validation/validations.ts:3-14 | every key has its check, only `requirements` is optional, and each key's check is the declared rule and English message |
| EnglishValidation.RequiredTextRule | src/utils/validation/validations.ts:4-12 | firstName, lastName, company, groupSize, arrivalDate, departureDate and location each have an issue exactly when empty, with that field's own message |
| EnglishValidation.PhoneRule | src/utils/validation/validations.ts:7 | `phone` is rejected exactly when shorter than 10 characters, whatever the characters, with "Phone number must be at least 10 digits" |
| EnglishValidation.EmailRule | src/utils/validation/validations.ts:6 | `email` is rejected exactly when the email grammar refuses it, with "Invalid email address" |
| EnglishValidation.RequirementsNeverRejected | src/utils/validation/validations.ts:13 | `requirements` never has an issue, absent or any string |
| EnglishValidation.AcceptedIff | src/utils/validation/validations.ts:3-16 | a booking is accepted exactly when the nine rules hold, and is then returned unchanged |
| EnglishValidation.NoIssuesIffRules | src/utils/validation/validations.ts:3-14 | a booking's issue list is empty exactly when the nine rules hold |
| EnglishValidation.DatesAreNotOrdered | src/utils/validation/validations.ts:10-11 | no order between the dates is checked: swapping any booking's arrival and departure strings never changes whether it is accepted |
| EnglishValidation.DepartureBeforeArrivalAccepted | src/utils/validation/validations.ts:10-11 | an enquiry departing on 2024-12-01 and arriving on 2024-12-05 is accepted and returned unchanged |
| EnglishValidation.EmptyFormIssues | src/utils/validation/validations.ts:3-14 | an untouched form reports exactly the nine English messages, in field order |
| LocalizedValidation.CreateGroupBookingSchema | src/lib/validations.ts:4-16 | the built schema checks every key, only `requirements` is optional, and each key's check is its declared rule with `t` of its message key |
| LocalizedValidation.RuleFailedMessage | src/lib/validations.ts:6-14 | a rule failure of the translated schema is about a required key and carries `t` of that key's message key |
| LocalizedValidation.ReportedMessagesAreTranslated | src/lib/validations.ts:6-15 | every rule failure reported for any body carries `t("form.fields.<field>.error")`; `requirements` has no message |
| LocalizedValidation.SamePredicatesAsEnglish | src/lib/validations.ts:6-15 | same keys and the same predicates as the English schema: thresholds 1 and 10, the email check, optional requirements |
| LocalizedValidation.SameVerdicts | src/lib/validations.ts:6-15 | schemas with equal predicates give every key of every object the same pass/fail verdict |
| LocalizedValidation.AcceptsLikeEnglish | src/lib/validations.ts:4-16 | for every `t`, the translated schema accepts exactly the bodies the English one accepts, returning the same booking |
| LocalizedValidation.MessagesFixedAtConstruction | src/lib/validations.ts:4-14 | the schema depends on `t` only through its nine answers at construction |
| LocalizedValidation.EmptyFormVerdicts | src/lib/validations.ts:6-15 | for any `t`, each required key of an untouched form fails with `t` of its message key, and `requirements` passes |
| LocalizedValidation.EmptyFormShowsKeys | src/lib/validations.ts:4-15 | for any `t`, an untouched form reports exactly the nine translated message keys, in field order |
| LocalizedValidation.EmptyFormShowsTestKeys | src/lib/validations.ts:6-14 | with any translator that returns the nine message keys unchanged, whatever it does with other keys, an untouched form reports the nine literal key strings "form.fields.firstName.error" … "form.fields.location.error", in field order |
| LocalizedValidation.MessageKeyUntranslated | src/components/__tests__/GroupBookingForm.test.tsx:118-147 | no message key of the schema is an entry of the tests' translation dictionary |
| LocalizedValidation.TestTranslatorKeepsMessageKeys | src/components/__tests__/GroupBookingForm.test.tsx:118-147 | the tests' translator (the dictionary entry, or else the key itself) is not the identity ("firstName.error" becomes "First name is required"), yet it returns each of the nine message keys unchanged |
| LocalizedValidation.EmptyFormWithTestTranslator | src/components/__tests__/GroupBookingForm.test.tsx:252-311 | with the tests' own translator, an untouched form reports exactly the nine key strings the test waits for, in field order |
| BookingsRoute.Post | src/app/api/bookings/route.ts:4-18 | exactly two outcomes: `{success:true}` with status 200 exactly when the body parsed and the bound schema found no issue, otherwise 400 `{error:"Invalid form data"}` |
| BookingsRoute.PostAsWritten | src/app/api/bookings/route.ts:2-7 | with the unresolved import, every request is answered 400 `{error:"Invalid form data"}`, whatever its body |
| BookingsRoute.PostCorrected | src/app/api/bookings/route.ts:4-18 | with the English schema bound: exactly two outcomes, and 200 exactly when the body is JSON that the English schema accepts |
| BookingsRoute.CorrectedAgreesWithSchema | src/app/api/bookings/route.ts:6-13 | with the English schema bound, a booking's JSON is acknowledged exactly when the nine rules hold |
| BookingsRoute.MalformedBodiesRejected | src/app/api/bookings/route.ts:6-16 | a body that is not JSON gets the 400 error response, and so does every parsed body that is not an object (any string, number, boolean, null or array) |
| BookingsRoute.ResponseIndependentOfData | src/app/api/bookings/route.ts:13 | every acknowledged body gets the same response, so no data is echoed |
| BookingsRoute.FindingValidEnquiryRefused | src/app/api/bookings/route.ts:2-16 | the tests' valid enquiry gets 400 as written and 200 once the schema is bound |
| BookingContext.BookingStore.constructor | src/context/BookingContext.tsx:18-24 | the slot starts out holding `initialData` |
| BookingContext.BookingStore.Empty | src/context/BookingContext.tsx:20-24 | without `initialData` the slot starts out null |
| BookingContext.BookingStore.SetBookingData | src/context/BookingContext.tsx:22-27 | after `setBookingData(d)` the slot holds `d` and nothing of the prior value |
| BookingContext.UseBooking | src/context/BookingContext.tsx:33-39 | inside a provider: its store (slot and setter); outside: the error "useBooking must be used within a BookingProvider" |
| GroupBookingForm.SendKeepsOrder | src/components/GroupBookingForm.tsx:30-34 | sending a request keeps the effect order invariant |
| GroupBookingForm.SettleKeepsOrder | src/components/GroupBookingForm.tsx:36-46 | after the last request settles, the order invariant holds; a non-ok or failed fetch adds no effect; a navigation happens exactly on an ok response |
| GroupBookingForm.SubmissionRequest | src/components/GroupBookingForm.tsx:30-34 | the request `onSubmit` makes is a POST to "/api/bookings" with the JSON Content-Type |
| GroupBookingForm.RequestCarriesData | src/components/GroupBookingForm.tsx:30-34 | the request body reads back as exactly the submitted data and holds no other member |
| GroupBookingForm.AfterResponse | src/components/GroupBookingForm.tsx:36-46 | effects happen after settling only on an ok response; the store write comes first and holds the submitted data; on an ok response there are exactly two effects, the store write followed by one navigation to "/<locale>/success"; no request is re-sent |
| GroupBookingForm.BookingForm.SubmitDisabled | src/components/GroupBookingForm.tsx:278 | the submit button is disabled exactly while a request is in flight |
| GroupBookingForm.BookingForm.constructor | src/components/GroupBookingForm.tsx:14-26 | a new form is enabled, has no errors and has had no effects |
| GroupBookingForm.BookingForm.Submit | src/components/GroupBookingForm.tsx:24-34 | while disabled nothing changes; invalid values set the errors and send nothing; valid values clear the errors, send exactly one POST of the unchanged values and disable the button |
| GroupBookingForm.BookingForm.Settle | src/components/GroupBookingForm.tsx:36-46 | an ok response writes exactly the submitted data to the store and then navigates to "/<locale>/success"; a non-ok response or transport failure does neither and is not rethrown; the button is re-enabled |
| GroupBookingForm.SubmitAccepted | src/components/GroupBookingForm.tsx:28-42 | valid values answered ok: one POST to "/api/bookings" with the JSON Content-Type and the values as body, then the store holds them, then the success page |
| GroupBookingForm.SubmitFailed | src/components/GroupBookingForm.tsx:36-46 | valid values answered non-ok or by a network error: the request only, no store write, no navigation, button enabled |
| GroupBookingForm.DoubleSubmitSendsOnce | src/components/GroupBookingForm.tsx:278 | a second submit while the first is in flight sends nothing |
| GroupBookingForm.SubmitEmptyForm | src/components/__tests__/GroupBookingForm.test.tsx:252-312 | submitting an untouched form sends nothing and sets the errors to the nine translated message keys, in field order |
| GroupBookingForm.TestEnquiryAccepted | src/components/__tests__/GroupBookingForm.test.tsx:389-418 | the tests' enquiry meets the nine rules, and its success path is "/en-GB/success" |
| LanguageSwitcher.IndexOfFrom | src/components/LanguageSwitcher.tsx:14 | the result is the first occurrence at or after the start, or none exists |
| LanguageSwitcher.ReplaceFirst | src/components/LanguageSwitcher.tsx:14 | `replace` with a string pattern: only the first occurrence is replaced, everything around it is kept, a string without one is unchanged, and replacing a pattern by itself changes nothing |
| LanguageSwitcher.SwitchPath | src/components/LanguageSwitcher.tsx:14 | a path that mentions "/"+locale mentions "/"+newLocale afterwards, and choosing the current locale yields the original pathname |
| LanguageSwitcher.SwitchReplacesFirstOccurrence | src/components/LanguageSwitcher.tsx:14 | the new path is the old one with its first "/"+locale replaced by "/"+newLocale; everything after it, later occurrences included, is untouched |
| LanguageSwitcher.SwitchWithoutOccurrence | src/components/LanguageSwitcher.tsx:14-15 | a pathname without "/"+locale is pushed unchanged |
| LanguageSwitcher.SwitchLocalePrefix | src/components/LanguageSwitcher.tsx:14 | "/"+locale followed by any rest becomes "/"+newLocale followed by the same rest |
| LanguageSwitcher.SwitchHomeToGerman | src/components/__tests__/LanguageSwitcher.test.tsx:36-44 | "/en-GB" becomes "/de-DE" |
| LanguageSwitcher.SubstringNotSegment | src/components/LanguageSwitcher.tsx:14 | matching is by substring, not by segment: a first segment that only starts with the locale (such as "/en-GBx/…") has that part rewritten too |
| LanguageSwitcher.OptionsAreSupportedLocales | src/components/LanguageSwitcher.tsx:27-28 | the two offered options are exactly the supported locales, default included |
| LanguageSwitcher.LocaleSelector.constructor | src/components/LanguageSwitcher.tsx:9-11 | a mounted selector keeps the current locale and pathname and has pushed nothing |
| LanguageSwitcher.LocaleSelector.Change | src/components/LanguageSwitcher.tsx:13-23 | each selection of an offered locale other than the one shown pushes exactly one path, the switched one |
| I18nRequest.ResolveLocale | src/i18n/request.ts:8 | a non-empty locale is kept as given; undefined or "" resolves to "en-GB" |
| I18nRequest.GetRequestConfig | src/i18n/request.ts:7-11 | the config's locale is the resolved one, and its messages file is named after that same locale |
| I18nRequest.MessagesFile | src/i18n/request.ts:9 | the imported module is "../messages/<locale>.json", and the locale can be read back from the path |
| I18nRequest.DefaultIsSupported | src/i18n/request.ts:4-5 | the supported list is exactly ["en-GB","de-DE"] and the default is in it |
| I18nRequest.ResolvesIntoLocales | src/i18n/request.ts:4-8 | a supported or falsy locale resolves to a supported one |
| I18nRequest.UnsupportedPassesThrough | src/i18n/request.ts:8-9 | any non-empty locale outside the supported list passes through unchanged and names its own messages file, because no membership check is made |
| I18nRequest.MessagesFollowLocale | src/i18n/request.ts:8-10 | two requests load the same messages file exactly when they resolve to the same locale |

## Left out

- The email grammar of zod's `.email()`: it is not visible, so it is the uninterpreted parameter `isEmail`.
- zod's own wording of a missing or non-string key (`invalid_type`): it is modelled as `WrongType(field)` without a message.
- zod's issue paths and issue codes: an issue is modelled as field plus message only.
- String length: it is measured in Dafny characters, whereas JavaScript's `length` counts UTF-16 code units. They differ only for characters outside the Basic Multilingual Plane.
- JSON text and `JSON.stringify`: a body is modelled by its parsed value. Number, boolean, null and array values are collapsed into `JOther`.
- `console.log` / `console.error`: diagnostic logging only.
- The `async`/`await` suspension: the network result is an input to `Settle`, and no interleaving is modelled.
- react-hook-form's internals (`register`, `handleSubmit`, `zodResolver`): the model keeps their observable part, which is validate-then-call-onSubmit, `errors` and `isSubmitting`.
- The form's field-by-field re-validation as the user edits: this is react-hook-form behaviour, not code of this repository.
- All JSX rendering, labels, placeholders and styling. This covers the success page and `LocaleSelector.Value`, the select's displayed value, which has no contract.
- The `router.push` navigation itself: a pushed path is recorded, and the page it loads is not modelled.
- The replacement patterns (`$&`, `$$`, …) that JavaScript's `String.prototype.replace` interprets in its replacement string. The offered replacements "/en-GB" and "/de-DE" contain no `$`.
- The dynamic `import()` of the messages file: only the path it loads is modelled.
- The form's own `useBooking()` call: a form outside a `BookingProvider` throws and cannot mount, so the model starts from a form that already has its store (`UseBooking` models the guard on its own).
- The unknown-locale not-found routing: that is in the layout, which is not part of this model.

## Findings

| source | as written | input that shows it | evidently intended | confidence | as-written member | corrected member |
|---|---|---|---|---|---|---|
| src/app/api/bookings/route.ts:2 | imports `groupBookingSchema` from `@/lib/validations`, which exports only `createGroupBookingSchema` (src/lib/validations.ts:4); the call `groupBookingSchema.parse(body)` at line 7 throws inside the `try`, so every request gets 400 | the tests' valid enquiry (John Doe, phone "1234567890", all fields filled) | bind the English `groupBookingSchema` of src/utils/validation/validations.ts, so valid enquiries get `{success:true}` | medium, not executed (a type-checked build refuses the import outright) | BookingsRoute.PostAsWritten | BookingsRoute.CorrectedAgreesWithSchema |

The same unresolved import appears in src/components/GroupBookingForm.tsx:7-10. There the model takes the form's schema as a constructor argument.
