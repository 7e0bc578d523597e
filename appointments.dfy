/**
 * Appointments: building the stored record through a strict schema, the
 * check-then-retry loop that mints a unique ID, the public four-step lookup,
 * and the admin result upload and delete.  The collection is a sequence of
 * documents in natural order, so `findOne` answers the first match.
 */
module Appointments {
  import opened Js
  import opened Http
  import Identifiers
  import opened Documents
  import Auth

  // ---------------------------------------------------------------------
  // Strict schemas

  /** A well-formed appointment schema stores both generated IDs. */
  predicate IsAppointmentSchema(schema: Schema) {
    Documents.WellFormed(schema) && "booking_id" in schema.paths && "unique_id" in schema.paths
  }

  const CommonPaths: set<string> :=
    {"booking_id", "unique_id", "department", "appointment_date", "appointment_time", "title",
     "first_name", "last_name", "gender", "dob", "mobile_no", "email", "center_name", "created_at"}

  /** The appointment schema of api/index.js; `now` is `Date.now`. */
  function IndexSchema(now: int): (s: Schema)
    ensures IsAppointmentSchema(s)
  {
    Schema(CommonPaths + {"weight", "result_ready", "result_file"}, map["created_at" := Num(now)])
  }

  /** The appointment schema of server.js: result fields default to `false`/`null`. */
  function ServerSchema(now: int): (s: Schema)
    ensures IsAppointmentSchema(s)
  {
    Schema(CommonPaths + {"weight", "result_ready", "result_file"},
           map["result_ready" := Bool(false), "result_file" := Null, "created_at" := Num(now)])
  }

  /** The appointment schema of api/appointments.js: no weight, no result fields. */
  function ApiSchema(now: int): (s: Schema)
    ensures IsAppointmentSchema(s)
  {
    Schema(CommonPaths, map["created_at" := Num(now)])
  }

  /** `new Appointment({...body, booking_id, unique_id})`: the generated IDs
      win over same-named body fields, every other schema path the body
      carries is copied, defaults fill the rest, and nothing outside the
      schema is stored. */
  function NewAppointment(body: Record, schema: Schema, bookingId: string, uniqueId: string): (doc: Record)
    requires IsAppointmentSchema(schema)
    ensures "booking_id" in doc && doc["booking_id"] == Str(bookingId)
    ensures "unique_id" in doc && doc["unique_id"] == Str(uniqueId)
    ensures forall k :: k in doc ==> k in schema.paths
    ensures forall k :: k in body && body[k] != Undefined && k in schema.paths && k != "booking_id" && k != "unique_id" ==>
              k in doc && doc[k] == body[k]
    ensures forall k :: k in schema.defaults && k !in body && k != "booking_id" && k != "unique_id" ==>
              k in doc && doc[k] == schema.defaults[k]
  {
    Construct(body + map["booking_id" := Str(bookingId), "unique_id" := Str(uniqueId)], schema)
  }

  // ---------------------------------------------------------------------
  // Queries over the collection

  /** The string values stored records hold under `key`. */
  function KeyValues(records: seq<Record>, key: string): set<string> {
    set i | 0 <= i < |records| && Field(records[i], key).Str? :: Field(records[i], key).s
  }

  /** The unique IDs held by stored appointments. */
  function UniqueIds(records: seq<Record>): set<string> {
    KeyValues(records, "unique_id")
  }

  /** The four lookups of the public record retrieval, numbered in the order
      they are tried: exact `unique_id`, case-insensitive `unique_id`, exact
      `booking_id`, case-insensitive `booking_id`. */
  predicate MatchesStep(r: Record, id: string, step: nat) {
    var key := if step < 2 then "unique_id" else "booking_id";
    var v := Field(r, key);
    if step % 2 == 0 then v == Str(id) else v.Str? && EqualsIgnoreCase(v.s, id)
  }

  /** The position of the first record that one lookup finds. */
  function FirstMatch(records: seq<Record>, id: string, step: nat): (r: Option<nat>)
    ensures r.Some? ==> r.value < |records| && MatchesStep(records[r.value], id, step)
    ensures r.Some? ==> forall j :: 0 <= j < r.value ==> !MatchesStep(records[j], id, step)
    ensures r.None? ==> forall j :: 0 <= j < |records| ==> !MatchesStep(records[j], id, step)
    decreases |records|
  {
    if |records| == 0 then None
    else if MatchesStep(records[0], id, step) then Some(0)
    else match FirstMatch(records[1..], id, step)
      case None => None
      case Some(k) => Some(k + 1)
  }

  /** The lookup chain of `GET /appointments/:id`: the first lookup that finds
      anything decides, and it answers its first match in store order
      (`FirstMatch`). */
  function FindAppointment(records: seq<Record>, id: string): (r: Option<Record>)
    ensures r.None? <==> NoMatchIn(records, id, 0, 4)
    ensures r.Some? ==>
              exists step :: && 0 <= step < 4 && NoMatchIn(records, id, 0, step)
                             && FirstMatch(records, id, step).Some?
                             && r.value == records[FirstMatch(records, id, step).value]
  {
    FindFromSpec(records, id, 0);
    FindFrom(records, id, 0)
  }

  /** None of the lookups `lo` to `hi - 1` finds anything. */
  predicate NoMatchIn(records: seq<Record>, id: string, lo: nat, hi: nat) {
    forall s, j :: lo <= s < hi && 0 <= j < |records| ==> !MatchesStep(records[j], id, s)
  }

  /** The lookups from `step` on, tried in order. */
  function FindFrom(records: seq<Record>, id: string, step: nat): Option<Record>
    requires step <= 4
    decreases 4 - step
  {
    if step == 4 then None
    else match FirstMatch(records, id, step)
      case Some(k) => Some(records[k])
      case None => FindFrom(records, id, step + 1)
  }

  lemma {:induction false} FindFromSpec(records: seq<Record>, id: string, step: nat)
    requires step <= 4
    ensures FindFrom(records, id, step).None? <==> NoMatchIn(records, id, step, 4)
    ensures FindFrom(records, id, step).Some? ==>
              exists s :: && step <= s < 4 && NoMatchIn(records, id, step, s)
                          && FirstMatch(records, id, s).Some?
                          && FindFrom(records, id, step).value == records[FirstMatch(records, id, s).value]
    decreases 4 - step
  {
    if step < 4 {
      if FirstMatch(records, id, step).Some? {
        assert NoMatchIn(records, id, step, step);
      } else {
        FindFromSpec(records, id, step + 1);
        if FindFrom(records, id, step + 1).Some? {
          var s :| && step + 1 <= s < 4 && NoMatchIn(records, id, step + 1, s)
                   && FirstMatch(records, id, s).Some?
                   && FindFrom(records, id, step + 1).value == records[FirstMatch(records, id, s).value];
          assert NoMatchIn(records, id, step, s);
        }
      }
    }
  }

  /** The reply of the public retrieval for the (already URI-decoded) path
      segment: the ID is trimmed first, and a miss is HTTP 200 with
      `status: 0`. */
  function LookupReply(records: seq<Record>, rawId: string): (r: (Reply, Option<Record>))
    ensures r.1 == FindAppointment(records, Trim(rawId))
    ensures r.1.None? <==> r.0 == Json(200, 0, "No record found")
    ensures r.1.Some? <==> r.0 == Json(200, 1, "")
  {
    match FindAppointment(records, Trim(rawId))
    case None => (Json(200, 0, "No record found"), None)
    case Some(doc) => (Json(200, 1, ""), Some(doc))
  }

  /** What a unique index on `key` guarantees: no two stored records hold
      the same string under it. */
  predicate DistinctKey(records: seq<Record>, key: string) {
    forall i, j :: 0 <= i < j < |records| && Field(records[i], key).Str? ==>
      Field(records[i], key) != Field(records[j], key)
  }

  /** Appending a record whose key no stored record holds keeps the key
      distinct: the unique index admits it. */
  lemma AppendFreshKeepsDistinct(records: seq<Record>, doc: Record, key: string, id: string)
    requires DistinctKey(records, key)
    requires Field(doc, key) == Str(id) && id !in KeyValues(records, key)
    ensures DistinctKey(records + [doc], key)
  {
    var rs := records + [doc];
    forall i, j | 0 <= i < j < |rs| && Field(rs[i], key).Str?
      ensures Field(rs[i], key) != Field(rs[j], key)
    {
      if j == |records| {
        assert rs[i] == records[i];
        assert Field(records[i], key).s in KeyValues(records, key);
      } else {
        assert rs[i] == records[i] && rs[j] == records[j];
      }
    }
  }

  /** A record with its result fields set by an upload. */
  function WithResult(r: Record, url: Value): Record {
    r["result_ready" := Bool(true)]["result_file" := url]
  }

  // ---------------------------------------------------------------------
  // Routing of `/api/appointments…` in api/index.js

  /** The handler a request reaches; `Preflight` is the empty 200 every
      `OPTIONS` request gets before any routing, `NotAllowed` the 405 reply. */
  datatype AppointmentRoute = Preflight | ListAll | CreateOne | DeleteOne | LookupOne | UploadResultFor | NotAllowed

  /** `segments[i]`: the path split on `/` with empty pieces dropped. */
  function SegmentAt(segments: seq<string>, i: nat): Value {
    if i < |segments| then Str(segments[i]) else Undefined
  }

  predicate ListGuard(segments: seq<string>, verb: string) {
    SegmentAt(segments, 0) == Str("appointments") && |segments| == 1 && verb == "GET"
  }

  predicate CreateGuard(segments: seq<string>) {
    SegmentAt(segments, 0) == Str("appointments") && |segments| == 1
  }

  predicate DeleteGuard(segments: seq<string>, verb: string) {
    SegmentAt(segments, 0) == Str("appointments") && Truthy(SegmentAt(segments, 1)) && verb == "DELETE"
  }

  predicate LookupGuard(segments: seq<string>) {
    SegmentAt(segments, 0) == Str("appointments") && Truthy(SegmentAt(segments, 1))
  }

  predicate UploadGuard(segments: seq<string>) {
    SegmentAt(segments, 0) == Str("appointments") && SegmentAt(segments, 1) == Str("upload")
    && Truthy(SegmentAt(segments, 2))
  }

  /** The appointment branches in the order the router tries them; `None`
      lets the request fall through to the later routes. */
  function RouteAsWritten(segments: seq<string>, verb: string): Option<AppointmentRoute> {
    if verb == "OPTIONS" then Some(Preflight)
    else if ListGuard(segments, verb) then Some(ListAll)
    else if CreateGuard(segments) then Some(if verb != "POST" then NotAllowed else CreateOne)
    else if DeleteGuard(segments, verb) then Some(DeleteOne)
    else if LookupGuard(segments) then Some(if verb != "GET" then NotAllowed else LookupOne)
    else if UploadGuard(segments) then Some(if verb != "POST" then NotAllowed else UploadResultFor)
    else None
  }

  /** As written, the upload branch is never reached: every upload path has
      a second segment, so the lookup branch answers first, with 405 for the
      `POST` the upload needs. */
  lemma UploadUnreachableAsWritten(segments: seq<string>, verb: string)
    ensures RouteAsWritten(segments, verb) != Some(UploadResultFor)
    ensures UploadGuard(segments) && verb == "POST" ==> RouteAsWritten(segments, verb) == Some(NotAllowed)
  {
  }

  lemma UploadRejectedExample()
    ensures RouteAsWritten(["appointments", "upload", "HFML123456"], "POST") == Some(NotAllowed)
  {
    UploadUnreachableAsWritten(["appointments", "upload", "HFML123456"], "POST");
  }

  /** The router with the upload branch tried before the by-ID branches.
      Every other verb on an upload path is now 405 too, where as written a
      `DELETE` removes the appointment whose unique ID is `upload` and a
      `GET` looks that ID up. */
  function Route(segments: seq<string>, verb: string): (r: Option<AppointmentRoute>)
    ensures UploadGuard(segments) && verb == "POST" ==> r == Some(UploadResultFor)
    ensures verb == "OPTIONS" ==> r == Some(Preflight)
    ensures UploadGuard(segments) && verb != "POST" && verb != "OPTIONS" ==> r == Some(NotAllowed)
    ensures !UploadGuard(segments) ==> r == RouteAsWritten(segments, verb)
  {
    if verb == "OPTIONS" then Some(Preflight)
    else if ListGuard(segments, verb) then Some(ListAll)
    else if CreateGuard(segments) then Some(if verb != "POST" then NotAllowed else CreateOne)
    else if UploadGuard(segments) then Some(if verb != "POST" then NotAllowed else UploadResultFor)
    else if DeleteGuard(segments, verb) then Some(DeleteOne)
    else if LookupGuard(segments) then Some(if verb != "GET" then NotAllowed else LookupOne)
    else None
  }

  // ---------------------------------------------------------------------
  // The collection and its writes

  datatype CreateOutcome =
    | Saved(doc: Record)
    /** The unique index on `booking_id` refused the save. */
    | DuplicateBookingId
    /** Every supplied draw collided: the source loop would keep drawing. */
    | DrawsExhausted

  /** Appointment creation from `before` to `after`: the first free
      candidate becomes the unique ID; a booking ID some stored record
      already holds makes the save throw (answered `failure`, nothing
      stored); otherwise the record built from the body is appended and the
      handler answers 200.  Mail delivery comes after the save and its
      failures are swallowed, so it does not enter. */
  predicate CreatedAs(before: seq<Record>, after: seq<Record>, body: Record, schema: Schema, candidates: seq<string>,
                      bookingId: string, failure: Reply, outcome: CreateOutcome, reply: Option<Reply>)
    requires IsAppointmentSchema(schema)
  {
    match Identifiers.FirstFree(candidates, UniqueIds(before))
    case None => outcome == DrawsExhausted && reply == None && after == before
    case Some(k) =>
      if bookingId in KeyValues(before, "booking_id") then
        outcome == DuplicateBookingId && reply == Some(failure) && after == before
      else
        && k < |candidates| && candidates[k] !in UniqueIds(before)
        && outcome == Saved(NewAppointment(body, schema, bookingId, candidates[k]))
        && after == before + [outcome.doc]
        && reply == Some(Json(200, 1, "Appointment saved successfully"))
  }

  class AppointmentStore {
    var records: seq<Record>

    constructor (initial: seq<Record>)
      ensures records == initial
    {
      records := initial;
    }

    /** The collision-retry loop: draw a candidate, look it up, draw again
        while it is taken.  It stops at the first free candidate. */
    method MintUniqueId(candidates: seq<string>) returns (r: Option<nat>)
      ensures r == Identifiers.FirstFree(candidates, UniqueIds(records))
      ensures r.Some? ==> candidates[r.value] !in UniqueIds(records)
    {
      var taken := UniqueIds(records);
      var i := 0;
      var collides := true;
      r := None;
      while collides && i < |candidates|
        invariant 0 <= i <= |candidates|
        invariant collides ==> r == None && forall j :: 0 <= j < i ==> candidates[j] in taken
        invariant !collides ==>
                    && 0 < i && r == Some(i - 1) && candidates[i - 1] !in taken
                    && forall j :: 0 <= j < i - 1 ==> candidates[j] in taken
      {
        collides := candidates[i] in taken;
        if !collides {
          r := Some(i);
        }
        i := i + 1;
      }
    }

    /** Appointment creation: mint the unique ID, then store the record built
        from the body with the generated IDs on top, unless the unique index
        on `booking_id` refuses it.  Both unique indexes keep holding. */
    method Create(body: Record, schema: Schema, candidates: seq<string>, bookingId: string, failure: Reply)
      returns (outcome: CreateOutcome, reply: Option<Reply>)
      requires IsAppointmentSchema(schema)
      modifies this
      ensures CreatedAs(old(records), records, body, schema, candidates, bookingId, failure, outcome, reply)
      ensures DistinctKey(old(records), "unique_id") ==> DistinctKey(records, "unique_id")
      ensures DistinctKey(old(records), "booking_id") ==> DistinctKey(records, "booking_id")
    {
      var k := MintUniqueId(candidates);
      if k == None {
        return DrawsExhausted, None;
      }
      if bookingId in KeyValues(records, "booking_id") {
        return DuplicateBookingId, Some(failure);
      }
      var doc := NewAppointment(body, schema, bookingId, candidates[k.value]);
      if DistinctKey(records, "unique_id") {
        AppendFreshKeepsDistinct(records, doc, "unique_id", candidates[k.value]);
      }
      if DistinctKey(records, "booking_id") {
        AppendFreshKeepsDistinct(records, doc, "booking_id", bookingId);
      }
      records := records + [doc];
      outcome, reply := Saved(doc), Some(Json(200, 1, "Appointment saved successfully"));
    }

    /** `POST /appointments/upload/:uniqueId`: behind the active-token gate,
        and after the upload has finished, the first record with that unique
        ID gets `result_ready = true` and `result_file = url` (`null` when
        the upload failed); no match is 404.  `active` is the active-token
        collection. */
    method UploadResult(header: Option<string>, verifies: set<string>, active: multiset<string>, uniqueId: string, url: Value)
      returns (reply: Reply)
      modifies this
      ensures Auth.ActiveTokenGate(header, verifies, active).Some? ==>
                reply == Json(401, 0, "Unauthorized") && records == old(records)
      ensures Auth.ActiveTokenGate(header, verifies, active).None? ==>
                match FirstMatch(old(records), uniqueId, 0)
                case None => reply == Json(404, 0, "Appointment not found") && records == old(records)
                case Some(k) => reply == Json(200, 1, "Result uploaded") && records == old(records)[k := WithResult(old(records)[k], url)]
    {
      var gate := Auth.ActiveTokenGate(header, verifies, active);
      if gate.Some? {
        return gate.value;
      }
      var k := FirstMatch(records, uniqueId, 0);
      if k == None {
        return Json(404, 0, "Appointment not found");
      }
      records := records[k.value := WithResult(records[k.value], url)];
      reply := Json(200, 1, "Result uploaded");
    }

    /** `DELETE /appointments/:id`: behind the active-token gate,
        `findOneAndDelete` on the unique ID. */
    method Delete(header: Option<string>, verifies: set<string>, active: multiset<string>, uniqueId: string)
      returns (reply: Reply)
      modifies this
      ensures Auth.ActiveTokenGate(header, verifies, active).Some? ==>
                reply == Json(401, 0, "Unauthorized") && records == old(records)
      ensures Auth.ActiveTokenGate(header, verifies, active).None? ==>
                match FirstMatch(old(records), uniqueId, 0)
                case None => reply == Json(404, 0, "Appointment not found") && records == old(records)
                case Some(k) => reply == Json(200, 1, "Appointment deleted successfully")
                                && records == old(records)[..k] + old(records)[k + 1..]
    {
      var gate := Auth.ActiveTokenGate(header, verifies, active);
      if gate.Some? {
        return gate.value;
      }
      var k := FirstMatch(records, uniqueId, 0);
      if k == None {
        return Json(404, 0, "Appointment not found");
      }
      records := records[..k.value] + records[k.value + 1..];
      reply := Json(200, 1, "Appointment deleted successfully");
    }
  }

  // ---------------------------------------------------------------------
  // The three creation handlers

  /** The unique IDs the draws of `Math.random()` give, in order. */
  function HfmlCandidates(draws: seq<real>): (c: seq<string>)
    requires forall i :: 0 <= i < |draws| ==> 0.0 <= draws[i] < 1.0
    ensures |c| == |draws| && forall i :: 0 <= i < |draws| ==> c[i] == Identifiers.HfmlId(draws[i])
  {
    seq(|draws|, i requires 0 <= i < |draws| => Identifiers.HfmlId(draws[i]))
  }

  /** The same for the `HF-` generator of api/appointments.js. */
  function HfDashCandidates(draws: seq<string>): (c: seq<string>)
    requires forall i :: 0 <= i < |draws| ==> Identifiers.IsRandomBase36(draws[i])
    ensures |c| == |draws| && forall i :: 0 <= i < |draws| ==> c[i] == Identifiers.HfDashId(draws[i])
  {
    seq(|draws|, i requires 0 <= i < |draws| => Identifiers.HfDashId(draws[i]))
  }

  /** A saved record carries the booking ID, which no stored record held,
      and one of the candidates as unique ID, which was free. */
  lemma SavedFromCandidate(before: seq<Record>, after: seq<Record>, body: Record, schema: Schema, candidates: seq<string>,
                           bookingId: string, failure: Reply, outcome: CreateOutcome, reply: Option<Reply>)
    requires IsAppointmentSchema(schema)
    requires CreatedAs(before, after, body, schema, candidates, bookingId, failure, outcome, reply)
    requires outcome.Saved?
    ensures exists i :: 0 <= i < |candidates| && outcome.doc["unique_id"] == Str(candidates[i])
    ensures Field(outcome.doc, "unique_id").Str? && Field(outcome.doc, "unique_id").s !in UniqueIds(before)
    ensures Field(outcome.doc, "booking_id") == Str(bookingId) && bookingId !in KeyValues(before, "booking_id")
  {
    var k := Identifiers.FirstFree(candidates, UniqueIds(before)).value;
    assert outcome.doc["unique_id"] == Str(candidates[k]);
  }

  /** `POST /api/appointments` in api/index.js: `HFML` unique IDs and a
      date-stamped booking ID; a refused save is the router's 500. */
  method CreateViaIndex(store: AppointmentStore, body: Record, now: int, draws: seq<real>,
                        year: nat, month0: nat, day: nat, rendered: string)
    returns (outcome: CreateOutcome, reply: Option<Reply>)
    requires forall i :: 0 <= i < |draws| ==> 0.0 <= draws[i] < 1.0
    requires month0 < 12 && 1 <= day <= 31 && Identifiers.IsRandomBase36(rendered)
    modifies store
    ensures CreatedAs(old(store.records), store.records, body, IndexSchema(now), HfmlCandidates(draws),
                      Identifiers.BookingId(year, month0, day, rendered), Json(500, 0, "Server error"), outcome, reply)
    ensures outcome.Saved? ==> Field(outcome.doc, "unique_id").Str? && Field(outcome.doc, "unique_id").s !in UniqueIds(old(store.records))
    ensures outcome.Saved? ==> exists i :: 0 <= i < |draws| && outcome.doc["unique_id"] == Str(Identifiers.HfmlId(draws[i]))
    ensures outcome.Saved? ==> Field(outcome.doc, "booking_id") == Str(Identifiers.BookingId(year, month0, day, rendered))
  {
    var candidates := HfmlCandidates(draws);
    var bookingId := Identifiers.BookingId(year, month0, day, rendered);
    ghost var before := store.records;
    outcome, reply := store.Create(body, IndexSchema(now), candidates, bookingId, Json(500, 0, "Server error"));
    if outcome.Saved? {
      SavedFromCandidate(before, store.records, body, IndexSchema(now), candidates, bookingId, Json(500, 0, "Server error"), outcome, reply);
    }
  }

  /** `POST /api/appointments` in server.js: `HFML` unique IDs and `HF` plus
      the millisecond clock as booking ID. */
  method CreateViaServer(store: AppointmentStore, body: Record, nowMillis: nat, draws: seq<real>)
    returns (outcome: CreateOutcome, reply: Option<Reply>)
    requires forall i :: 0 <= i < |draws| ==> 0.0 <= draws[i] < 1.0
    modifies store
    ensures CreatedAs(old(store.records), store.records, body, ServerSchema(nowMillis), HfmlCandidates(draws),
                      Identifiers.HfMillisId(nowMillis), Json(500, 0, "Error saving appointment"), outcome, reply)
    ensures outcome.Saved? ==> Field(outcome.doc, "unique_id").Str? && Field(outcome.doc, "unique_id").s !in UniqueIds(old(store.records))
    ensures outcome.Saved? ==> exists i :: 0 <= i < |draws| && outcome.doc["unique_id"] == Str(Identifiers.HfmlId(draws[i]))
    ensures outcome.Saved? ==> Field(outcome.doc, "booking_id") == Str(Identifiers.HfMillisId(nowMillis))
  {
    var candidates := HfmlCandidates(draws);
    var bookingId := Identifiers.HfMillisId(nowMillis);
    ghost var before := store.records;
    outcome, reply := store.Create(body, ServerSchema(nowMillis), candidates, bookingId, Json(500, 0, "Error saving appointment"));
    if outcome.Saved? {
      SavedFromCandidate(before, store.records, body, ServerSchema(nowMillis), candidates, bookingId,
                         Json(500, 0, "Error saving appointment"), outcome, reply);
    }
  }

  /** api/appointments.js: `OPTIONS` is 200 and any verb but `POST` is 405,
      both without touching the store; `POST` mints an `HF-` unique ID.
      `body` is the request body after `JSON.parse`, or `TypeError` when
      the parse throws, which the handler answers 500 without storing; the
      parsed value is spread into the new document. */
  method HandleApiAppointments(store: AppointmentStore, verb: string, body: Eval<Value>, now: int, draws: seq<string>,
                               year: nat, month0: nat, day: nat, rendered: string)
    returns (outcome: Option<CreateOutcome>, reply: Option<Reply>)
    requires forall i :: 0 <= i < |draws| ==> Identifiers.IsRandomBase36(draws[i])
    requires month0 < 12 && 1 <= day <= 31 && Identifiers.IsRandomBase36(rendered)
    modifies store
    ensures verb == "OPTIONS" ==> outcome == None && reply == Some(Empty(200)) && store.records == old(store.records)
    ensures verb != "OPTIONS" && verb != "POST" ==>
              outcome == None && reply == Some(MethodNotAllowed()) && store.records == old(store.records)
    ensures verb == "POST" && body.TypeError? ==>
              outcome == None && reply == Some(Json(500, 0, "Error saving appointment")) && store.records == old(store.records)
    ensures verb == "POST" && body.Ok? ==>
              && outcome.Some?
              && CreatedAs(old(store.records), store.records, Spread(body.value), ApiSchema(now), HfDashCandidates(draws),
                           Identifiers.BookingId(year, month0, day, rendered), Json(500, 0, "Error saving appointment"),
                           outcome.value, reply)
    ensures outcome.Some? && outcome.value.Saved? ==>
              && Field(outcome.value.doc, "unique_id").Str?
              && Field(outcome.value.doc, "unique_id").s !in UniqueIds(old(store.records))
              && (exists i :: 0 <= i < |draws| && outcome.value.doc["unique_id"] == Str(Identifiers.HfDashId(draws[i])))
  {
    var gate := Gate(verb, {"POST"});
    if gate.Some? {
      return None, Some(gate.value);
    }
    if body.TypeError? {
      return None, Some(Json(500, 0, "Error saving appointment"));
    }
    var fields := Spread(body.value);
    var candidates := HfDashCandidates(draws);
    var bookingId := Identifiers.BookingId(year, month0, day, rendered);
    ghost var before := store.records;
    var o;
    o, reply := store.Create(fields, ApiSchema(now), candidates, bookingId, Json(500, 0, "Error saving appointment"));
    if o.Saved? {
      SavedFromCandidate(before, store.records, fields, ApiSchema(now), candidates, bookingId,
                         Json(500, 0, "Error saving appointment"), o, reply);
    }
    outcome := Some(o);
  }
}
