# H-Focus Medical booking backend — a Dafny model

This project models the booking backend of the H-Focus Medical Laboratory
website. That backend serves:

- patients booking appointments and looking up their results;
- companies booking health checks for their staff ("corporate bookings");
- administrators who log in, register with a one-time token, list and
  delete records, and upload results.

The code exists in several copies: the serverless router `api/index.js`,
the Express server `server.js`, and single-route serverless handlers under
`api/`. There is also a one-off maintenance script and the browser script.

The model covers the logic those files hold once I/O is set aside:

- record construction through strict schemas;
- identifier generation and the collision-retry loop;
- the four-step appointment lookup and the three-step corporate lookup;
- the corporate staff normalisation, the de-duplicated investigation
  summary, and the two different cost totals;
- the status, delete and result-upload mutations;
- the token store: active tokens, one-time register tokens, logout;
- the middlewares and the legacy-admin reconciliation;
- the 14-day calendar and the slot filter;
- the contact-form alias chains;
- the price-to-test-name backfill;
- the client-side phone rule, form serialisation and user-agent sniffing.

Modelling choices:

- JavaScript values are a datatype (`Js.Value`). Truthiness, `||`,
  `Number(x) || 0`, `String(x)`, `split`, `trim` and `parseInt` are
  written out once in `js.dfy`.
- Numbers are integers.
- A MongoDB collection is a sequence of records in natural order, so
  `findOne` returns the first match.
- Collections that handlers update in place are classes with `seq` fields:
  `AppointmentStore`, `CorporateStore`, `AuthStore`, `BookingCollection`.
  Each has `modifies`-framed methods whose `ensures` give the whole new state.
- Loops in the source are methods with loop invariants, proved equal to a
  specification function. The properties are proved about that function.
- `Math.random()`, the clock, JWT verification, bcrypt and mail delivery
  are parameters:
  - a draw in [0, 1), or the string `Math.random().toString(36)` renders;
  - a day number, or calendar fields;
  - the set of tokens that verify and what they decode to;
  - whether the mail transport succeeded.

## Model

| member | source | states |
|---|---|---|
| Js.NatToStringRoundTrip | api/index.js:110 | `String(n)` of a natural number is all digits, has no leading zero, and reads back as `n` |
| Js.ParseIntRoundTrip | api/index.js:779 | `parseInt(String(n), 10)` gives back `n` |
| Js.ParseIntOfDigits | api/index.js:779 | a non-empty run of digits parses to the number it denotes |
| Js.SplitJoin | api/public/appointments/available-dates.js:12 | `s.split(c).join(c)` is `s` again, and no piece contains the separator |
| Js.TrimEnds | api/index.js:454 | `trim()` leaves no white space at either end, never lengthens, and leaves a trimmed string alone |
| Js.TrimOccurs | api/index.js:454 | the trimmed string is a contiguous slice of the original |
| Js.NumberOr0 | api/index.js:650 | `Number(v) \|\| 0` of a number is the number, of an optionally signed decimal integer string is its value, and of a falsy value or an object is 0; other strings give 0 (see Left out) |
| Documents.Spread | api/corporate-bookings.js:62 | `{...v}`: every property read on the copy agrees with the read on `v`, and `null` or `undefined` spread nothing |
| Documents.Construct | api/index.js:88-101 | a strict schema stores only its paths; given non-undefined values are kept; absent paths get their defaults |
| Documents.NewestFirst | api/corporate-bookings.js:55-57 | `find().sort({created_at: -1})` returns a permutation of the collection ordered newest first |
| Documents.InsertByAgeSorted | api/index.js:397 | inserting into a newest-first list keeps it newest first |
| Documents.InsertByAgePermutes | api/index.js:397 | insertion adds exactly the one record |
| Identifiers.SixDigitNumber | api/index.js:108-111 | `Math.floor(100000 + Math.random() * 900000)` lies in [100000, 999999] |
| Identifiers.SixDigitRendering | api/index.js:110 | that number renders as exactly six digits without a leading zero |
| Identifiers.HfmlId | api/index.js:108-111 | `HFML` followed by the six digits of the drawn number |
| Identifiers.OrgNumericId | api/index.js:617 | `ORG` followed by the six digits of the drawn number |
| Identifiers.HfMillisId | server.js:343-345 | `HF` followed by the decimal digits of the millisecond clock, which read back as the clock |
| Identifiers.RandomChars | api/appointments.js:38 | `substring(2, 2+k).toUpperCase()` of a base-36 rendering: at most k characters from [0-9A-Z], the upper-cased start of the fraction digits |
| Identifiers.HfDashId | api/appointments.js:37-39 | `HF-` and at most six [0-9A-Z] characters taken from the draw |
| Identifiers.OrgDashId | api/corporate-bookings.js:46-48 | `ORG-` and at most six [0-9A-Z] characters taken from the draw |
| Identifiers.TwoDigitRendering | api/appointments.js:44-45 | `padStart(2, '0')` of a month or day is two digits that read back as the number |
| Identifiers.FourDigitRendering | api/appointments.js:43 | a four-digit year renders as four digits that read back as the year |
| Identifiers.BookingId | api/appointments.js:41-48 | `BK-YYYYMMDD-XXXX`: year, 1-based month and day read back from their slices; the tail is at most four [0-9A-Z] characters from the draw |
| Identifiers.BookingIdParts | api/index.js:112-119 | the same shape facts for the `api/index.js` copy of the generator |
| Identifiers.FirstFree | server.js:584-589 | the retry loop's exit: the first candidate not taken, every earlier one taken, or none when all are taken |
| Auth.BearerToken | api/index.js:106 | a non-empty token means the header was exactly `Bearer ` plus the token |
| Auth.BearerReadingsAgree | server.js:352 | for `Bearer <token>` without spaces, `split(" ")[1]` and `slice(7)` agree |
| Auth.OtherSchemeReadingsDiffer | server.js:352 | for another scheme, server.js still takes the second word while api/index.js reads nothing |
| Auth.DoubleSpaceReadingsDiffer | server.js:352 | a doubled space gives server.js the empty token and api/index.js a token with a leading space |
| Auth.ActiveTokenGate | api/index.js:393-396 | the request passes exactly when the bearer token is non-empty, verifies and is active; otherwise 401 |
| Auth.AuthMiddleware | server.js:348-365 | access is granted only to an active token that decodes, read as the header's second word; every refusal is a bare 401 with its own message: `Access denied` without a header, `Invalid token` without a second word, `Token expired or logged out` for a token that is not active, `Unauthorized` for one that does not decode |
| Auth.InactiveTokenRejected | server.js:356-357 | a token not in the active set never gets through |
| Auth.SuperAdminGate | server.js:367-371 | 403 exactly when the role claim is not `superadmin` |
| Auth.SuperAdminAccess | server.js:408 | both middlewares in a row: the handler runs exactly when the token is active, decodes, and carries the role `superadmin`; otherwise the first middleware's 401 or the second one's 403 |
| Auth.LogoutAsWritten | server.js:489-492 | `deleteOne` removes one stored copy of the token and leaves every other token's count alone |
| Auth.LogoutLeavesDuplicate | server.js:464-491 | two logins that yield the same token, then one logout: the token still passes the middleware |
| Auth.Revoke | server.js:491 | the corrected logout: afterwards the token is absent; other tokens are untouched |
| Auth.RevokedTokenRejected | server.js:356-357 | after `Revoke`, every request carrying the token is refused |
| Auth.SingleLogoutRejects | server.js:489-492 | with a single stored copy, the logout as written already refuses the token afterwards |
| Auth.FirstToken | server.js:427 | `RegisterToken.findOne({token})`: the first stored token equal to it, or none |
| Auth.CheckRegisterToken | server.js:427-429 | the token must be stored (else `Invalid or expired token`) and unused (else `Token already used`) |
| Auth.UsedTokenRejected | server.js:440-441 | once marked used, the same token is refused with `Token already used` |
| Auth.MissingAdmins | api/index.js:104 | the legacy administrators the reconciliation creates users for; never more than there are |
| Auth.MissingAdminsFree | api/index.js:104 | only legacy administrators whose username is not already taken are created |
| Auth.MissingAdminsDistinct | api/index.js:104 | no username is created twice |
| Auth.MissingAdminsCover | api/index.js:104 | afterwards every legacy username is taken |
| Auth.MissingAdminsAfterwards | api/index.js:104 | reconciling again, once the legacy names are taken, creates nobody |
| Auth.NothingMissing | api/index.js:104 | nobody is missing when every legacy username is already taken |
| Auth.FirstAdminWithId | server.js:410 | `findOneAndDelete({_id, role: 'admin'})` picks the first account with that id and the role `admin`, or none |
| Auth.AuthStore.RecordLogin | server.js:464 | a login adds its token to the active set and changes nothing else |
| Auth.AuthStore.Logout | server.js:489-492 | behind the middleware, one copy of the token is deleted; a refused request changes nothing |
| Auth.AuthStore.Register | server.js:421-448 | the one-time token checks in order; the user is appended and only then the token is marked used; every failure leaves the store unchanged; usernames stay distinct |
| Auth.AuthStore.DeleteAdmin | server.js:408-418 | behind both middlewares, only the first account with that id and role `admin` is removed; none found is 404 and no change |
| Auth.AuthStore.Admit | api/index.js:104 | one loop step: append a user unless the username is taken |
| Auth.AuthStore.ReconcileAdmins | api/index.js:104 | the existing users are kept as a prefix; one new admin is appended per missing legacy administrator, in order, with its password and creation time (or now); every legacy username ends up taken; distinct usernames stay distinct |
| Auth.ReconcileStep | api/index.js:104 | one more legacy administrator is created exactly when its username is still free |
| Appointments.IndexSchema | api/index.js:38-56 | the api/index.js appointment schema stores both generated IDs |
| Appointments.ServerSchema | server.js:294-312 | the server.js schema does too, with result fields defaulting to `false`/`null` |
| Appointments.ApiSchema | api/appointments.js:18-33 | the api/appointments.js schema does too |
| Appointments.NewAppointment | api/appointments.js:66-70 | the generated `booking_id` and `unique_id` override the body's; other body fields are kept where the schema has them; absent paths get defaults |
| Appointments.FirstMatch | server.js:644 | `findOne` with one lookup: the first matching record, none before it matches |
| Appointments.FindAppointment | api/index.js:455-458 | the first of the four lookups (exact `unique_id`, case-insensitive `unique_id`, exact `booking_id`, case-insensitive `booking_id`) that finds anything decides; none finds anything exactly when the answer is none |
| Appointments.FindFromSpec | api/index.js:455-458 | the same for the lookups from a given step on |
| Appointments.LookupReply | api/index.js:450-461 | the trimmed id is looked up; no record is 200 with `No record found`, a record is 200 with status 1 |
| Appointments.AppendFreshKeepsDistinct | api/index.js:39-40 | appending a record whose key no stored record holds keeps that unique index satisfied |
| Appointments.UploadUnreachableAsWritten | api/index.js:450-464 | as written, no request reaches the upload branch; every upload POST is answered 405 |
| Appointments.UploadRejectedExample | api/index.js:450-464 | `POST /appointments/upload/HFML123456` is answered 405 |
| Appointments.Route | api/index.js:347-495 | the corrected router: every `OPTIONS` request is the empty 200 before any routing; an upload POST reaches the upload branch, any other verb but `OPTIONS` on an upload path is 405, and every path that is not an upload path routes as written |
| Appointments.AppointmentStore.MintUniqueId | api/index.js:404-405 | the retry loop stops at the first free candidate, which no stored appointment holds |
| Appointments.AppointmentStore.Create | api/appointments.js:58-103 | the first free candidate becomes the unique ID; a booking ID already stored makes the save fail with the handler's 500 and stores nothing; otherwise the record built from the body is appended and the reply is 200 `Appointment saved successfully` whatever mail delivery does; both unique indexes keep holding |
| Appointments.AppointmentStore.UploadResult | api/index.js:463-492 | a missing, unverifiable or inactive token is 401 with no change; otherwise the first record with the unique ID gets `result_ready` and `result_file` and the reply is 200 `Result uploaded`; none is 404 and no change |
| Appointments.AppointmentStore.Delete | api/index.js:440-448 | a missing, unverifiable or inactive token is 401 with no change; otherwise the first record with the unique ID is removed; none is 404 and no change |
| Appointments.CreateViaIndex | api/index.js:400-438 | creation as `Create` states it, with the drawn `HFML` IDs as candidates, the date-stamped booking ID, and `Server error` as the 500; a saved record's `unique_id` is one of the draws and was free |
| Appointments.CreateViaServer | server.js:581-639 | the same with `HF` plus the clock as booking ID and `Error saving appointment` as the 500 |
| Appointments.HandleApiAppointments | api/appointments.js:50-106 | `OPTIONS` 200 and non-POST 405 without touching the store; a POST body that `JSON.parse` rejects is 500 `Error saving appointment` with nothing stored; otherwise POST is creation as `Create` states it, from the spread body, with the drawn `HF-` IDs as candidates |
| Appointments.SavedFromCandidate | api/index.js:404-408 | a saved record carries the booking ID, which no stored record held, and one of the candidates as unique ID, which was free |
| Contact.FirstTruthySpec | api/contact.js:16-21 | an alias chain yields the first truthy alias, or the fallback when none is truthy |
| Contact.HandleContact | api/contact.js:11-51 | `OPTIONS` 200; non-POST 405; an unparsable body is 500; a missing first name, email or message is 400 with no mail; with all three the mail is handed over, and the reply is 200 exactly when it was sent, else 500 |
| Contact.DefaultSubject | api/contact.js:20 | without a subject alias the subject is `Contact Form Inquiry` |
| Contact.CapitalisedAliasWins | api/contact.js:18 | a truthy `Email` wins over `email` |
| Contact.OptionalFields | api/contact.js:16-25 | last name and phone are optional |
| CorporateIntake.StaffSchema | api/index.js:78-87 | the staff sub-document schema is well formed |
| CorporateIntake.CorporateSchema | api/index.js:88-101 | the corporate schema is well formed: every default belongs to a stored path |
| CorporateIntake.StoredStaffList | api/index.js:95 | every staff entry is cast through the staff schema, entry by entry |
| CorporateIntake.MapEval | api/index.js:620 | `xs.map(f)` throws exactly when `f` throws on some element; otherwise it maps element-wise |
| CorporateIntake.NormaliseInvestigation | api/index.js:621 | normalising an investigation throws exactly on `null`/`undefined` |
| CorporateIntake.NormaliseStaff | api/index.js:620-623 | normalising a staff entry throws exactly when it, or one of its investigations, is nullish |
| CorporateIntake.NormaliseStaffShape | api/index.js:620-623 | a normalised entry keeps every other field of the entry; it has one normalised `{test_name, price, category}` investigation per original one (none for a non-array), and a truthy `test_name` is kept |
| CorporateIntake.NormaliseInvestigationTwice | api/index.js:621 | normalising again changes nothing exactly when the first pass gave a truthy name |
| CorporateIntake.NormalisedStaff | api/index.js:618-624 | the staff list (from `staff_members`, else `staff_data`, else `[]`) normalised: same length, every entry normalised |
| CorporateIntake.FirstWithKey | api/index.js:629-630 | the position of the first investigation with a given key |
| CorporateIntake.SummarizeIsSummary | api/index.js:625-635 | the summary has one row per distinct `test_name_category` key, every key seen has a row, each row carries its first-seen name, category and price, and rows are in first-seen order |
| CorporateIntake.SummaryKeyCollision | api/index.js:629 | two different name/category pairs can share a key, and the second one then gets no row |
| CorporateIntake.EmitSummary | api/index.js:634-635 | one output entry per summary row, in order |
| CorporateIntake.IndexOfKey | api/index.js:630 | `investigationMap.has(key)`: a row with the key exists exactly when the index is found |
| CorporateIntake.TallyAll | api/index.js:628-631 | the inner summary loop computes the summary of everything seen so far |
| CorporateIntake.BuildSummary | api/index.js:625-635 | the summary loops produce the emitted summary of all investigations |
| CorporateIntake.CreationTotalIgnoresInvestigations | api/index.js:649-651 | the creation total depends only on the individual costs |
| CorporateIntake.StoredStaffCostSum | api/index.js:650 | casting through the staff schema keeps the total of individual costs |
| CorporateIntake.SumIndividualCosts | api/index.js:649-650 | the creation loop sums `Number(individual_cost) \|\| 0` |
| CorporateIntake.OrganizationId | api/index.js:617 | the body's `organization_id` when truthy, else `ORG` plus six digits; always truthy |
| CorporateIntake.BookingFields | api/index.js:636-647 | the fields passed to the model carry no status, total or creation time |
| CorporateIntake.NormalisedStaffCostSum | api/index.js:620-623 | normalisation keeps the sum of individual costs |
| CorporateIntake.CreateBookingTotal | api/index.js:649-652 | the stored total is the sum of `Number(individual_cost) \|\| 0` over the request's staff, prices ignored; `staff_count` is the list length |
| CorporateIntake.CreateBookingDoc | api/index.js:616-652 | the stored document, spelled out |
| CorporateIntake.CreateBookingIdentity | api/index.js:617 | the stored `organization_id` is the one `OrganizationId` picks |
| CorporateIntake.CreateBookingStatus | api/index.js:98 | a new booking's status is `pending` |
| CorporateIntake.CreateBookingSummary | api/index.js:625-646 | the stored investigations are the summary of every normalised investigation |
| CostRecalculation.InvestigationAmount | api/corporate-bookings/recalculate-costs.js:34 | reading an investigation throws exactly on `null` |
| CostRecalculation.SumAmounts | api/corporate-bookings/recalculate-costs.js:31-38 | a summing loop throws exactly when some element throws |
| CostRecalculation.StaffAmount | api/corporate-bookings/recalculate-costs.js:31-37 | a staff entry throws exactly when it is nullish or has a `null` investigation |
| CostRecalculation.OrgTotal | api/corporate-bookings/recalculate-costs.js:29-30 | a non-array staff list gives total 0 |
| CostRecalculation.Recalculated | api/corporate-bookings/recalculate-costs.js:40 | only `total_investigation_cost` changes |
| CostRecalculation.StaffAmountLoop | api/corporate-bookings/recalculate-costs.js:32-37 | the inner loops compute the staff entry's amount |
| CostRecalculation.OrgTotalLoop | api/corporate-bookings/recalculate-costs.js:29-39 | the per-organisation loop computes its total |
| CostRecalculation.CostGuardRedundant | api/corporate-bookings/recalculate-costs.js:37 | the `if (individual_cost)` guard adds nothing over `Number(x) \|\| 0` |
| CostRecalculation.RecalcIsPricesPlusCosts | api/corporate-bookings/recalculate-costs.js:29-39 | without null entries, the total is the sum of all investigation prices plus all individual costs |
| CostRecalculation.DoubleCountExample | api/corporate-bookings/recalculate-costs.js:34-37 | individual cost 100 with prices 30 and 20 totals 150 |
| CostRecalculation.NonNumericContributesZero | api/corporate-bookings/recalculate-costs.js:34-37 | non-numeric prices and costs contribute 0 |
| CorporateBookings.FirstOrgMatch | api/index.js:744-753 | the first booking one lookup step finds |
| CorporateBookings.FindOrganization | api/index.js:744-755 | exact organisation ID, then case-insensitive, then any staff identifier: the first step that finds anything decides; none exactly when no step matches |
| CorporateBookings.FirstWithOrgId | api/index.js:770 | the first booking whose organisation ID is exactly the id |
| CorporateBookings.StandaloneFieldsOf | api/corporate-bookings.js:61-62 | the spread: a body `organization_id` key wins over the generated one; total and status come from the body |
| CorporateBookings.StandaloneOrganization | api/corporate-bookings.js:61-62 | a present `organization_id` is stored as given, even when falsy; an absent one becomes `ORG-` and at most six [0-9A-Z] characters |
| CorporateBookings.StandaloneTotal | api/corporate-bookings.js:37 | no cost is computed: the total is the body's or 0 |
| CorporateBookings.StandaloneStatus | api/corporate-bookings.js:38 | the status is the body's or `pending` |
| CorporateBookings.SchemaDefault | api/corporate-bookings.js:37-38 | a path with a default is always stored: the given value, or the default |
| CorporateBookings.StaffTarget | api/index.js:779-797 | the staff index is `parseInt` of the segment, inside an array staff list, at a truthy entry |
| CorporateBookings.AdmitKeepsDistinct | api/index.js:89 | appending a booking whose organisation ID no stored booking holds keeps the unique index satisfied |
| CorporateBookings.CorporateStore.List | api/index.js:611-613 | the listing is a newest-first permutation of the collection |
| CorporateBookings.CorporateStore.CreateRouted | api/index.js:615-653 | a JSON body of `null` throws on `body.organization_id` and is the router's 500 `Server error` with no change; a throw while normalising is 500 and stores nothing; so is an organisation ID some stored booking holds; otherwise the created booking is appended; organisation IDs stay distinct |
| CorporateBookings.CorporateStore.HandleStandalone | api/corporate-bookings.js:50-69 | `OPTIONS` 200, other verbs than GET and POST 405, GET is 200 with the bookings newest first; a POST body that `JSON.parse` rejects, or that parses to `null`, is 500 `Error` with no change; otherwise POST appends the spread record unless its organisation ID is already stored, which is 500 with no change; organisation IDs stay distinct |
| CorporateBookings.CorporateStore.RecalculateRouted | api/index.js:807-834 | the api/index.js recalculation branch: non-POST 405 without change; with no throw, 200 with the number of bookings and every booking recalculated; a throw is the router's 500 `Server error`, the bookings before it recalculated and the rest untouched |
| CorporateBookings.CorporateStore.Find | api/index.js:742-756 | the trimmed id goes through the lookup chain; 404 exactly when nothing is found |
| CorporateBookings.CorporateStore.UpdateStatus | api/index.js:767-773 | a JSON body of `null` throws on `body.status` before the lookup and is the router's 500 `Server error` with no change; otherwise the first booking with the ID gets `body.status \|\| 'pending'`; none is 404 and no change |
| CorporateBookings.CorporateStore.Delete | api/index.js:759-762 | the first booking with the trimmed ID is removed; the reply is 200 either way |
| CorporateBookings.CorporateStore.SetStaffResult | api/index.js:796-802 | only the addressed staff entry gets `result_ready` and `result_file`; a missing booking or staff entry is 404 and no change |
| CorporateBookings.CorporateStore.RecalculateCosts | api/index.js:810-826 | every booking gets its recalculated total and the count equals the number of bookings; a throw stops the run with earlier bookings saved and later ones untouched |
| CorporateBookings.CorporateStore.HandleRecalculate | api/corporate-bookings/recalculate-costs.js:20-47 | with the full booking schema: `OPTIONS` 200, non-POST 405, both without change; with no throw, 200 with `updated_count` equal to the number of bookings and every booking recalculated; a throw is 500, the bookings before it recalculated and the rest untouched |
| CorporateBookings.RecalcView | api/corporate-bookings/recalculate-costs.js:17 | a document of a model that declares only `organization_id` shows that property and nothing else |
| CorporateBookings.RecalcViewTotalsZero | api/corporate-bookings/recalculate-costs.js:17-39 | read that way every booking totals 0 |
| CorporateBookings.RecalculationLostExample | api/corporate-bookings/recalculate-costs.js:17-44 | one staff member costing 100: the corrected run stores 100, the run as written totals 0 |
| CorporateBookings.CorporateStore.HandleRecalculateAsWritten | api/corporate-bookings/recalculate-costs.js:17-47 | as written: `OPTIONS` 200, non-POST 405, POST 200 counting every booking while no booking changes |
| CorporateBookings.RouteCorporateAsWritten | api/index.js:347-808 | the corporate branches in order: every `OPTIONS` is the empty 200 before routing; the list/create branch is 405 exactly for verbs other than GET and POST, the by-ID branch for verbs other than GET and DELETE, the status and staff-result branches for verbs other than PUT; no branch is taken exactly when no guard matches |
| CorporateBookings.RecalculateShadowedAsWritten | api/index.js:740-808 | as written, `POST /corporate-bookings/recalculate-costs` is the by-ID branch's 405, and a GET looks up the organisation whose ID is `recalculate-costs` |
| CorporateBookings.RouteCorporate | api/index.js:347-808 | the corrected router: `OPTIONS` is the preflight 200; any other verb on the recalculation path reaches the recalculation branch; every other path routes as written |
| InvestigationBackfill.NameForPrice | update_investigations.js:20-32 | the five recognised numbers map to their names and anything else, including numeric strings, to `Medical Test` |
| InvestigationBackfill.StrictPriceMatch | update_investigations.js:20 | the string `"3000"` is not the number 3000 |
| InvestigationBackfill.ForOf | update_investigations.js:16-17 | `for…of` throws on anything but an array or a string |
| InvestigationBackfill.FillInvestigation | update_investigations.js:18-35 | only an entry with falsy `test_name` and truthy `price` changes; it gets its name and category `General`, after which it no longer needs a name |
| InvestigationBackfill.FillStaffList | update_investigations.js:16-17 | the staff loop throws exactly when some entry throws; otherwise it maps entry by entry |
| InvestigationBackfill.UnflaggedBookingUnchanged | update_investigations.js:40-46 | a booking whose flag stays false is unchanged, so not writing it back loses nothing |
| InvestigationBackfill.FillBookingTwice | update_investigations.js:18-35 | the backfill is idempotent on a booking |
| InvestigationBackfill.FillInvestigationsLoop | update_investigations.js:17-36 | the inner loop fills the entries and raises the flag exactly when some entry needed a name |
| InvestigationBackfill.FillStaffListLoop | update_investigations.js:16-38 | the middle loop fills every entry and raises the flag exactly when some entry changed |
| InvestigationBackfill.BookingCollection.Run | update_investigations.js:13-47 | each booking before the first throw is replaced by its filled version; the rest are untouched |
| Scheduling.Weekday | server.js:740 | `getDay()` lies in 0..6 |
| Scheduling.OpenDaysSpec | api/public/appointments/available-dates.js:15-20 | the open days are exactly the non-Sundays of the window, strictly increasing |
| Scheduling.OneSundayAWeek | api/public/appointments/available-dates.js:18 | any seven consecutive days hold six open days |
| Scheduling.TwoWeeksTwelveDays | api/public/appointments/available-dates.js:15-20 | fourteen consecutive days hold twelve open days |
| Scheduling.AvailableDates | server.js:735-745 | the loop produces the open days of the 14-day window, twelve of them |
| Scheduling.DateDepartment | api/public/appointments/available-dates.js:12 | the query department when truthy, else the last `/`-free piece of the URL |
| Scheduling.HandleAvailableDates | api/public/appointments/available-dates.js:9-21 | `OPTIONS` 200, non-GET 405, GET answers the department and the open days |
| Scheduling.UnbookedSpec | server.js:776 | the filter keeps the slot order, drops every booked slot and keeps every unbooked one |
| Scheduling.BookedTimes | server.js:768-773 | the booked times are exactly the times of the records of that department and date: each returned time belongs to such a record, and every such record's time is returned |
| Scheduling.ServerSlots | server.js:754-782 | a missing date or department is 400; both present is 200 with the fixed slots in order less the booked ones, every unbooked one kept, and the parameters echoed |
| Scheduling.MissingParameterIgnoresStore | server.js:756-758 | the 400 answer does not depend on the store |
| Scheduling.NothingBookedAllFree | server.js:761-776 | with nothing booked, every fixed slot is offered |
| Scheduling.PublicSlots | api/public/appointments/slots.js:9-23 | `OPTIONS` 200, non-GET 405, a missing parameter 400, a GET with both parameters 200 with the eight fixed slots and the parameters echoed |
| Client.PhoneShape | scripts/common.js:12 | an accepted number is ten or eleven digits and never starts `00` |
| Client.TrunkPrefix | scripts/common.js:12 | a ten-digit number is accepted, with or without a leading `0`, exactly when it does not start with `0` |
| Client.RequiredEmptyFails | scripts/common.js:1-3 | an empty required field fails the validator; an empty optional one passes |
| Client.SerializedLastWins | scripts/common.js:24-26 | every name gets a key, and each key holds the value of the last pair with that name |
| Client.SerializeForm | scripts/common.js:24-26 | the loop builds that dictionary |
| Client.ProposedTreatment | scripts/common.js:211-215 | the checked values, pushed in order and joined with commas |
| Client.SplitJoined | scripts/common.js:215 | when no value holds a comma, splitting the joined string gives back the values |
| Client.MobileOs | scripts/common.js:406-424 | `windows phone` (any case) wins; then `android` (any case); then `iOS` exactly for a case-sensitive Apple device without `MSStream`; `unknown` exactly when none of these holds |
| Client.WindowsPhoneFirst | scripts/common.js:410-415 | a Windows Phone agent that also names Android is Windows Phone |
| Client.AppleTestCaseSensitive | scripts/common.js:419 | `ipad` is not recognised, `iPad` is, and `MSStream` switches it off |

## Left out

- Documents.Spread: a string or an array spreads its index keys (`"0"`, `"1"`, …), which the model does not copy. No schema here declares such a path, so the strict schemas drop them and the stored document is the same.
- HTML mail templates, the mail transports and PDF rendering are left out. Mail success is a parameter where the reply depends on it.
- Cloudinary, Busboy and multer streaming are left out. Only the record update after the upload is modelled, with the uploaded URL as a parameter (`null` for a failed upload).
- bcrypt and JWT signing, verification and decoding are opaque. They are modelled as the set of verifying tokens and a map from token to claims. For that reason the login handlers are left out, apart from the active-token write (`AuthStore.RecordLogin`).
- The copies of login, register, generate-token, tokens, admins and contact inside api/index.js (356-389, 523-606) are left out. Their token handling is bearer parsing (`Auth.BearerToken`) plus comparison with an environment secret. Their contact logic repeats api/contact.js.
- The duplicate `/api/admins` routes at server.js:496-508 are left out. The earlier registrations shadow them.
- The single-step appointment lookup of server.js (642-651) has no handler of its own. It is `Appointments.FirstMatch` at step 0.
- Connection caching, CORS headers and the 500 replies for database outages are left out. The only failed saves modelled are those the unique indexes cause.
- Concurrency is left out, including the race between the collision check and the insert.
- The one-hour expiry of register and active tokens is left out. The clock is not modelled there.
- Case-insensitive lookups are modelled as ASCII case-insensitive equality. The source interpolates the id into a regular expression without escaping, so ids holding regex metacharacters behave differently there.
- `decodeURIComponent` is treated as the identity. Path segments are taken already decoded.
- Dates are day numbers with a weekday. `toISOString()` and the local-time versus UTC difference are left out.
- Numbers are integers only. Fractional prices and costs, and `NaN` from numeric strings with decimals, are left out.
- Mongoose casting is reduced to strict-schema path selection plus defaults. Type casts, `_id` and `__v` are left out.
- `staff_count` is computed but not stored: it is not a path of the strict schema (api/index.js:652).
- Unique indexes compare stored values as given: Mongoose's cast of a number to a string, and MongoDB's treating a missing key like `null`, are left out.
- Retry loops consume a finite sequence of draws. When every draw collides the model reports `DrawsExhausted`, where the source would keep drawing.
- The in-memory mutation that update_investigations.js performs before a throw is not kept for the booking that throws. That booking is not written back by the source either.
- jQuery AJAX, DOM handling, sliders and date pickers in scripts/common.js are left out.
- Identifiers.BookingId: the format is stated only for four-digit years.
- CorporateBookings.StandaloneOrganization: a body whose `organization_id` key holds `undefined` is not covered. After JSON parsing such a key cannot occur.
- Js.NumberOr0: `Number()` is modelled for numbers, booleans, `null`, the empty string and optionally signed decimal integer strings. Strings with surrounding white space, hexadecimal or exponent forms, and one-element arrays read as 0 in the model, where JavaScript converts them (`" 12 "` is 12, `"0x10"` is 16, `"1e3"` is 1000, `[5]` is 5). Totals over such prices and costs differ from the source's.
- Js.ToNumber: the same restriction; it is the `Number()` that `NumberOr0` uses.
- Js.Trim: only space, tab, line feed and carriage return count as white space. JavaScript's `trim()` also strips vertical tab, form feed, no-break space, the byte-order mark and the other Unicode space characters.
- Auth.AuthStore.Register: a header with no second word (`Bearer` alone) is answered 401 `Invalid or expired token` without a lookup. The source queries `RegisterToken.findOne({ token: undefined })`, whose outcome depends on how Mongoose treats an `undefined` filter value; the store is unchanged either way.
- Appointments.Route: the corrected router also answers 405 to `GET` and `DELETE` on `/appointments/upload/<id>`. As written those requests look up, or delete, the appointment whose unique ID is `upload`.
- Appointments.FindAppointment: a match is described by its lookup step and position, not by the stored document's identity beyond that.

## Findings

| source | as written | input that shows it | evidently intended | confidence | as-written member | corrected member |
|---|---|---|---|---|---|---|
| api/index.js:450-464 | the by-ID branch (`segments[1]` set, any verb) is tried before the upload branch, and answers 405 to anything but GET | `POST /api/appointments/upload/HFML123456` gets 405 | the upload branch handles that request | high, not executed | Appointments.UploadUnreachableAsWritten | Appointments.Route |
| api/index.js:740-808 | the by-ID branch (`segments[1]` set, no `segments[2]`) is tried before the recalculation branch, and answers 405 to POST | `POST /api/corporate-bookings/recalculate-costs` gets 405 | the recalculation branch handles that request | high, not executed | CorporateBookings.RecalculateShadowedAsWritten | CorporateBookings.RouteCorporate |
| api/corporate-bookings/recalculate-costs.js:17-44 | the handler's model declares only `organization_id` (with `strict: false`), so Mongoose gives its documents no accessor for `staff_members` or `total_investigation_cost`: every total reads as 0 and the assignment at line 40 is not saved | one stored booking whose staff is `[{individual_cost: 100}]` and whose total is 0; POST answers 200 `{updated_count: 1}` and the stored total stays 0 | each booking's total becomes its recalculated sum, as the api/index.js copy (807-830) does with the full schema | medium, not executed | CorporateBookings.CorporateStore.HandleRecalculateAsWritten | CorporateBookings.CorporateStore.HandleRecalculate |
| server.js:489-492 | logout removes one stored copy of the token with `deleteOne` | the same account logs in twice within one second, receives the same token twice, and logs out once: the token still passes `authMiddleware` | logout revokes the token | low, not executed | Auth.LogoutLeavesDuplicate | Auth.Revoke |
