/**
 * The corporate booking collection and the handlers that read and write it:
 * creation (both the routed API and the standalone handler), the newest-first
 * listing, the three-step lookup, the status update, deletion, the per-staff
 * result upload, and the bulk cost recalculation.
 */
module CorporateBookings {
  import opened Js
  import opened Http
  import opened Documents
  import Identifiers
  import opened CorporateIntake
  import opened CostRecalculation

  // ---------------------------------------------------------------------
  // Lookup by organisation or staff identifier

  /** A staff entry whose `search_number`, `searchNumber` or `unique_id`
      equals the identifier, ignoring case. */
  predicate StaffCarries(staff: Value, id: string) {
    exists key :: key in {"search_number", "searchNumber", "unique_id"} && Prop(staff, key).Str? && EqualsIgnoreCase(Prop(staff, key).s, id)
  }

  /** The three lookups of `GET /corporate-bookings/:id`, in the order they
      are tried: exact organisation ID, organisation ID ignoring case, and a
      staff member carrying the identifier (exactly or ignoring case). */
  predicate OrgMatchesStep(org: Record, id: string, step: nat) {
    var orgId := Field(org, "organization_id");
    if step == 0 then orgId == Str(id)
    else if step == 1 then orgId.Str? && EqualsIgnoreCase(orgId.s, id)
    else
      var staff := Field(org, "staff_members");
      staff.Arr? && exists i :: 0 <= i < |staff.items| && StaffCarries(staff.items[i], id)
  }

  function FirstOrgMatch(orgs: seq<Record>, id: string, step: nat): (r: Option<nat>)
    ensures r.Some? ==> r.value < |orgs| && OrgMatchesStep(orgs[r.value], id, step)
    ensures r.Some? ==> forall j :: 0 <= j < r.value ==> !OrgMatchesStep(orgs[j], id, step)
    ensures r.None? ==> forall j :: 0 <= j < |orgs| ==> !OrgMatchesStep(orgs[j], id, step)
    decreases |orgs|
  {
    if |orgs| == 0 then None
    else if OrgMatchesStep(orgs[0], id, step) then Some(0)
    else match FirstOrgMatch(orgs[1..], id, step)
      case None => None
      case Some(k) => Some(k + 1)
  }

  /** The lookup chain: the first lookup that finds anything decides, and
      it answers its first match in store order. */
  function FindOrganization(orgs: seq<Record>, id: string): (r: Option<Record>)
    ensures r.None? <==> forall step, j :: 0 <= step < 3 && 0 <= j < |orgs| ==> !OrgMatchesStep(orgs[j], id, step)
    ensures r.Some? ==>
              exists step, k ::
                && 0 <= step < 3 && 0 <= k < |orgs| && orgs[k] == r.value
                && OrgMatchesStep(orgs[k], id, step)
                && (forall j :: 0 <= j < k ==> !OrgMatchesStep(orgs[j], id, step))
                && (forall s, j :: 0 <= s < step && 0 <= j < |orgs| ==> !OrgMatchesStep(orgs[j], id, s))
  {
    match FirstOrgMatch(orgs, id, 0)
    case Some(k) => Some(orgs[k])
    case None =>
      match FirstOrgMatch(orgs, id, 1)
      case Some(k) => Some(orgs[k])
      case None =>
        match FirstOrgMatch(orgs, id, 2)
        case Some(k) => Some(orgs[k])
        case None => None
  }

  /** The first organisation whose ID is exactly `id`. */
  function FirstWithOrgId(orgs: seq<Record>, id: string): (r: Option<nat>)
    ensures r == FirstOrgMatch(orgs, id, 0)
  {
    FirstOrgMatch(orgs, id, 0)
  }

  // ---------------------------------------------------------------------
  // Creation by the standalone handler

  /** `{ organization_id, ...body }` with the staff entries cast: the body's
      own `organization_id` key wins over the generated `ORG-` ID even when
      it is falsy. */
  function StandaloneFields(body: Record, rendered: string): Record
    requires Identifiers.IsRandomBase36(rendered)
  {
    var generated := Or(Field(body, "organization_id"), Str(Identifiers.OrgDashId(rendered)));
    var fields := map["organization_id" := generated] + body;
    var members := Field(body, "staff_members");
    if members.Arr? then fields["staff_members" := Arr(StoredStaffList(members.items))] else fields
  }

  /** `new CorporateBooking({ organization_id, ...body })`. */
  function StandaloneBooking(body: Record, rendered: string, now: int): Record
    requires Identifiers.IsRandomBase36(rendered)
  {
    Construct(StandaloneFields(body, rendered), CorporateSchema(now))
  }

  lemma StandaloneFieldsOf(body: Record, rendered: string)
    requires Identifiers.IsRandomBase36(rendered)
    ensures var f := StandaloneFields(body, rendered);
            && Field(f, "organization_id") == (if "organization_id" in body then body["organization_id"]
                                               else Str(Identifiers.OrgDashId(rendered)))
            && Field(f, "total_investigation_cost") == Field(body, "total_investigation_cost")
            && Field(f, "status") == Field(body, "status")
  {
    assert Identifiers.OrgDashId(rendered) != "";
  }

  /** A present `organization_id` is kept as given (even `""`, `0` or
      `null`); an absent one is replaced by `ORG-` and at most six base-36
      characters. */
  lemma StandaloneOrganization(body: Record, rendered: string, now: int)
    requires Identifiers.IsRandomBase36(rendered)
    ensures var doc := StandaloneBooking(body, rendered, now);
            && (Field(body, "organization_id") != Undefined ==>
                  "organization_id" in doc && doc["organization_id"] == body["organization_id"])
            && ("organization_id" !in body ==>
                  "organization_id" in doc
                  && doc["organization_id"].Str?
                  && doc["organization_id"].s == Identifiers.OrgDashId(rendered)
                  && doc["organization_id"].s[..4] == "ORG-"
                  && Identifiers.IsBase36Tail(doc["organization_id"].s[4..], 6))
  {
    StandaloneFieldsOf(body, rendered);
  }

  /** No cost is computed by the standalone creation: the total is the
      body's or 0. */
  lemma StandaloneTotal(body: Record, rendered: string, now: int)
    requires Identifiers.IsRandomBase36(rendered)
    ensures var doc := StandaloneBooking(body, rendered, now);
            && "total_investigation_cost" in doc
            && doc["total_investigation_cost"] == (if Field(body, "total_investigation_cost") != Undefined then body["total_investigation_cost"] else Num(0))
  {
    StandaloneFieldsOf(body, rendered);
    SchemaDefault(StandaloneFields(body, rendered), now, "total_investigation_cost", Num(0));
  }

  /** The status is the body's or `pending`. */
  lemma StandaloneStatus(body: Record, rendered: string, now: int)
    requires Identifiers.IsRandomBase36(rendered)
    ensures var doc := StandaloneBooking(body, rendered, now);
            && "status" in doc
            && doc["status"] == (if Field(body, "status") != Undefined then body["status"] else Str("pending"))
  {
    StandaloneFieldsOf(body, rendered);
    SchemaDefault(StandaloneFields(body, rendered), now, "status", Str("pending"));
  }

  /** A path with a default is always stored: the given value, or else the
      default. */
  lemma SchemaDefault(fields: Record, now: int, k: string, default: Value)
    requires k in CorporateSchema(now).defaults && CorporateSchema(now).defaults[k] == default
    ensures var doc := Construct(fields, CorporateSchema(now));
            k in doc && doc[k] == (if Field(fields, k) != Undefined then fields[k] else default)
  {
  }

  // ---------------------------------------------------------------------
  // The per-staff result upload

  /** A staff entry with its result fields set; a non-object entry cannot
      take properties and stays as it is. */
  function WithStaffResult(staff: Value, url: Value): Value {
    if staff.Obj? then Obj(staff.props["result_ready" := Bool(true)]["result_file" := url]) else staff
  }

  /** The staff entry the upload addresses: `parseInt(segment, 10)` must be
      an index of the organisation's staff array holding a truthy entry. */
  function StaffTarget(org: Record, indexSegment: string): (r: Option<nat>)
    ensures r.Some? ==> Field(org, "staff_members").Arr? && r.value < |Field(org, "staff_members").items|
    ensures r.Some? ==> Truthy(Field(org, "staff_members").items[r.value])
    ensures r.None? ==> !Field(org, "staff_members").Arr? || ParseInt(indexSegment).None?
                        || !(0 <= ParseInt(indexSegment).value < |Field(org, "staff_members").items|)
                        || !Truthy(Field(org, "staff_members").items[ParseInt(indexSegment).value])
    ensures r.Some? ==> ParseInt(indexSegment) == Some(r.value as int)
  {
    var staff := Field(org, "staff_members");
    match ParseInt(indexSegment)
    case None => None
    case Some(n) =>
      if staff.Arr? && 0 <= n < |staff.items| && Truthy(staff.items[n]) then Some(n as nat) else None
  }

  // ---------------------------------------------------------------------
  // The unique index on `organization_id`

  /** Some stored booking holds `id` as its organisation ID. */
  predicate OrgIdHeld(bookings: seq<Record>, id: Value) {
    exists i :: 0 <= i < |bookings| && Field(bookings[i], "organization_id") == id
  }

  /** What the unique index guarantees: no two bookings share an
      organisation ID. */
  predicate DistinctOrgIds(bookings: seq<Record>) {
    forall i, j :: 0 <= i < j < |bookings| ==> Field(bookings[i], "organization_id") != Field(bookings[j], "organization_id")
  }

  /** The index admits a booking whose organisation ID no stored booking
      holds, and then still holds. */
  lemma AdmitKeepsDistinct(bookings: seq<Record>, doc: Record)
    requires DistinctOrgIds(bookings) && !OrgIdHeld(bookings, Field(doc, "organization_id"))
    ensures DistinctOrgIds(bookings + [doc])
  {
    var rs := bookings + [doc];
    forall i, j | 0 <= i < j < |rs|
      ensures Field(rs[i], "organization_id") != Field(rs[j], "organization_id")
    {
      assert rs[i] == bookings[i];
      if j < |bookings| {
        assert rs[j] == bookings[j];
      }
    }
  }

  // ---------------------------------------------------------------------
  // The recalculation handler as written

  /** What a booking shows through the model of recalculate-costs.js, which
      declares `organization_id` alone: Mongoose gives a document accessors
      for declared paths only, so every other property reads `undefined`. */
  function RecalcView(org: Record): (v: Record)
    ensures v.Keys <= {"organization_id"}
    ensures "organization_id" in org ==> v == map["organization_id" := org["organization_id"]]
  {
    map k | k in org && k == "organization_id" :: org[k]
  }

  /** As written every booking totals 0 there, whatever its staff. */
  lemma RecalcViewTotalsZero(org: Record)
    ensures OrgTotal(RecalcView(org)) == Ok(0)
  {
    assert Field(RecalcView(org), "staff_members") == Undefined;
  }

  /** One booking whose single staff member costs 100: the corrected
      recalculation stores 100, the handler as written leaves the stored 0
      and still counts the booking as updated. */
  lemma RecalculationLostExample()
    ensures var staff := Obj(map["individual_cost" := Num(100)]);
            var org := map["organization_id" := Str("ORG-1"), "staff_members" := Arr([staff]),
                           "total_investigation_cost" := Num(0)];
            && OrgTotal(RecalcView(org)) == Ok(0)
            && OrgTotal(org) == Ok(100)
            && Recalculated(org, OrgTotal(org).value) != org
  {
    var staff := Obj(map["individual_cost" := Num(100)]);
    var org := map["organization_id" := Str("ORG-1"), "staff_members" := Arr([staff]),
                   "total_investigation_cost" := Num(0)];
    RecalcViewTotalsZero(org);
    assert CorporateIntake.InvestigationsOf(staff) == [];
    assert SumAmounts([], InvestigationAmount) == Ok(0);
    assert [staff][..0] == [];
    assert StaffAmount(staff) == Ok(100);
    assert Recalculated(org, 100)["total_investigation_cost"] == Num(100);
  }

  // ---------------------------------------------------------------------
  // The collection

  class CorporateStore {
    var bookings: seq<Record>

    constructor (initial: seq<Record>)
      ensures bookings == initial
    {
      bookings := initial;
    }

    /** `GET /corporate-bookings`: every booking, newest first. */
    method List() returns (reply: Reply, list: seq<Record>)
      ensures reply == Json(200, 1, "")
      ensures multiset(list) == multiset(bookings) && NewestFirstOrder(list)
    {
      list := NewestFirst(bookings);
      reply := Json(200, 1, "");
    }

    /** `POST /corporate-bookings` in the routed API: normalise, summarise,
        total up and store.  A throw while normalising is a 500 and stores
        nothing, and so is an organisation ID the unique index already
        holds.  `staff_count` is computed but is not a schema path, so it is
        not stored.  `body` is what `jsonBody` returns: a body of `null`
        makes `body.organization_id` throw, which the router answers 500;
        any other value is read through its own properties. */
    method CreateRouted(body: Value, draw: real, now: int) returns (reply: Reply, staffCount: nat)
      requires 0.0 <= draw < 1.0
      modifies this
      ensures Nullish(body) ==> reply == Json(500, 0, "Server error") && bookings == old(bookings)
      ensures !Nullish(body) ==>
              match CreateBooking(Spread(body), draw, now)
              case TypeError => reply == Json(500, 0, "Server error") && bookings == old(bookings)
              case Ok(b) =>
                if OrgIdHeld(old(bookings), Field(b.doc, "organization_id")) then
                  reply == Json(500, 0, "Server error") && bookings == old(bookings)
                else
                  reply == Json(200, 1, "") && bookings == old(bookings) + [b.doc] && staffCount == b.staffCount
      ensures DistinctOrgIds(old(bookings)) ==> DistinctOrgIds(bookings)
    {
      if Get(body, "organization_id").TypeError? {
        return Json(500, 0, "Server error"), 0;
      }
      var fields := Spread(body);
      var normalised := NormalisedStaff(fields);
      if normalised.TypeError? {
        return Json(500, 0, "Server error"), 0;
      }
      var staff := normalised.value;
      var investigations := BuildSummary(staff);
      var doc := Construct(BookingFields(fields, staff, OrganizationId(fields, draw), investigations), CorporateSchema(now));
      var total := SumIndividualCosts(StoredStaffList(staff));
      doc := doc["total_investigation_cost" := Num(total)];
      staffCount := |staff|;
      if OrgIdHeld(bookings, Field(doc, "organization_id")) {
        return Json(500, 0, "Server error"), staffCount;
      }
      if DistinctOrgIds(bookings) {
        AdmitKeepsDistinct(bookings, doc);
      }
      bookings := bookings + [doc];
      reply := Json(200, 1, "");
    }

    /** api/corporate-bookings.js: `OPTIONS` is 200, `GET` lists newest
        first, `POST` stores the body with its organisation ID, and any
        other verb is 405.  `body` is the request body after `JSON.parse`,
        or `TypeError` when the parse throws; a throwing parse, and a body
        of `null` whose `organization_id` cannot be read, are answered 500
        without storing. */
    method HandleStandalone(verb: string, body: Eval<Value>, rendered: string, now: int) returns (reply: Reply, list: seq<Record>)
      requires Identifiers.IsRandomBase36(rendered)
      modifies this
      ensures verb == "OPTIONS" ==> reply == Empty(200) && bookings == old(bookings)
      ensures verb !in {"OPTIONS", "GET", "POST"} ==> reply == MethodNotAllowed() && bookings == old(bookings)
      ensures verb == "GET" ==> reply == Json(200, 1, "") && bookings == old(bookings) && multiset(list) == multiset(bookings) && NewestFirstOrder(list)
      ensures verb == "POST" && (body.TypeError? || Nullish(body.value)) ==> reply == Json(500, 0, "Error") && bookings == old(bookings)
      ensures verb == "POST" && body.Ok? && !Nullish(body.value) ==>
                var doc := StandaloneBooking(Spread(body.value), rendered, now);
                if OrgIdHeld(old(bookings), Field(doc, "organization_id")) then
                  reply == Json(500, 0, "Error") && bookings == old(bookings)
                else
                  bookings == old(bookings) + [doc] && reply == Json(200, 1, "")
      ensures DistinctOrgIds(old(bookings)) ==> DistinctOrgIds(bookings)
    {
      list := [];
      var gate := Gate(verb, {"GET", "POST"});
      if gate.Some? {
        return gate.value, list;
      }
      if verb == "GET" {
        reply, list := List();
        return;
      }
      if body.TypeError? || Get(body.value, "organization_id").TypeError? {
        return Json(500, 0, "Error"), list;
      }
      var doc := StandaloneBooking(Spread(body.value), rendered, now);
      if OrgIdHeld(bookings, Field(doc, "organization_id")) {
        return Json(500, 0, "Error"), list;
      }
      if DistinctOrgIds(bookings) {
        AdmitKeepsDistinct(bookings, doc);
      }
      bookings := bookings + [doc];
      reply := Json(200, 1, "");
    }

    /** `GET /corporate-bookings/:id`, after the segment is decoded. */
    method Find(rawId: string) returns (reply: Reply, org: Option<Record>)
      ensures org == FindOrganization(bookings, Trim(rawId))
      ensures org.None? <==> reply == Json(404, 0, "Not found")
      ensures org.Some? <==> reply == Json(200, 1, "")
    {
      org := FindOrganization(bookings, Trim(rawId));
      reply := if org.None? then Json(404, 0, "Not found") else Json(200, 1, "");
    }

    /** `PUT /corporate-bookings/:id/status`: the first booking with that
        organisation ID gets `body.status || 'pending'`; none is 404.  A
        body of `null` throws on `body.status` before the lookup, which the
        router answers 500. */
    method UpdateStatus(id: string, body: Value) returns (reply: Reply)
      modifies this
      ensures Nullish(body) ==> reply == Json(500, 0, "Server error") && bookings == old(bookings)
      ensures !Nullish(body) ==>
              match FirstWithOrgId(old(bookings), id)
              case None => reply == Json(404, 0, "Not found") && bookings == old(bookings)
              case Some(k) =>
                && reply == Json(200, 1, "")
                && bookings == old(bookings)[k := old(bookings)[k]["status" := Or(Prop(body, "status"), Str("pending"))]]
    {
      var status := Get(body, "status");
      if status.TypeError? {
        return Json(500, 0, "Server error");
      }
      var k := FirstWithOrgId(bookings, id);
      if k.None? {
        return Json(404, 0, "Not found");
      }
      bookings := bookings[k.value := bookings[k.value]["status" := Or(status.value, Str("pending"))]];
      reply := Json(200, 1, "");
    }

    /** `DELETE /corporate-bookings/:id`: removes the first booking with that
        organisation ID, if any, and answers 200 either way. */
    method Delete(rawId: string) returns (reply: Reply)
      modifies this
      ensures reply == Json(200, 1, "Corporate booking deleted successfully")
      ensures match FirstWithOrgId(old(bookings), Trim(rawId))
              case None => bookings == old(bookings)
              case Some(k) => bookings == old(bookings)[..k] + old(bookings)[k + 1..]
    {
      var k := FirstWithOrgId(bookings, Trim(rawId));
      if k.Some? {
        bookings := bookings[..k.value] + bookings[k.value + 1..];
      }
      reply := Json(200, 1, "Corporate booking deleted successfully");
    }

    /** The record update after a staff result upload: only the addressed
        staff entry of the first booking with the organisation ID changes;
        a missing booking, a non-array staff list, an index that is not a
        number or out of range, or a falsy entry is 404 with no change. */
    method SetStaffResult(orgId: string, indexSegment: string, url: Value) returns (reply: Reply)
      modifies this
      ensures match FirstWithOrgId(old(bookings), orgId)
              case None => reply == Json(404, 0, "Organization or staff not found") && bookings == old(bookings)
              case Some(k) =>
                match StaffTarget(old(bookings)[k], indexSegment)
                case None => reply == Json(404, 0, "Organization or staff not found") && bookings == old(bookings)
                case Some(n) =>
                  var staff := Field(old(bookings)[k], "staff_members").items;
                  && reply == Json(200, 1, "Result uploaded")
                  && bookings == old(bookings)[k := old(bookings)[k]["staff_members" := Arr(staff[n := WithStaffResult(staff[n], url)])]]
    {
      var k := FirstWithOrgId(bookings, orgId);
      if k.None? {
        return Json(404, 0, "Organization or staff not found");
      }
      var org := bookings[k.value];
      var n := StaffTarget(org, indexSegment);
      if n.None? {
        return Json(404, 0, "Organization or staff not found");
      }
      var staff := Field(org, "staff_members").items;
      bookings := bookings[k.value := org["staff_members" := Arr(staff[n.value := WithStaffResult(staff[n.value], url)])]];
      reply := Json(200, 1, "Result uploaded");
    }

    /** The recalculation loop: each booking in turn gets its recalculated
        total and is saved, and the count of saved bookings is returned.  A
        throw at booking `k` stops the run there: the bookings before it are
        already saved, the rest are untouched. */
    method RecalculateCosts() returns (updated: Eval<nat>)
      modifies this
      ensures RecalculatedAs(old(bookings), bookings, updated)
    {
      var count := 0;
      while count < |bookings|
        invariant 0 <= count <= |bookings| == |old(bookings)|
        invariant forall j :: 0 <= j < count ==>
                    OrgTotal(old(bookings)[j]).Ok? && bookings[j] == Recalculated(old(bookings)[j], OrgTotal(old(bookings)[j]).value)
        invariant forall j :: count <= j < |bookings| ==> bookings[j] == old(bookings)[j]
      {
        var total := OrgTotalLoop(bookings[count]);
        if total.TypeError? {
          return TypeError;
        }
        bookings := bookings[count := Recalculated(bookings[count], total.value)];
        count := count + 1;
      }
      updated := Ok(count);
    }

    /** api/corporate-bookings/recalculate-costs.js with the full booking
        schema: `OPTIONS` is 200, any verb but `POST` is 405; `POST` runs the
        recalculation, answering 200 with the count when no booking throws
        and 500 when one does, the bookings before it already saved. */
    method HandleRecalculate(verb: string) returns (reply: Reply, updated: Option<nat>)
      modifies this
      ensures verb == "OPTIONS" ==> reply == Empty(200) && updated == None && bookings == old(bookings)
      ensures verb != "OPTIONS" && verb != "POST" ==> reply == MethodNotAllowed() && updated == None && bookings == old(bookings)
      ensures verb == "POST" && (forall j :: 0 <= j < |old(bookings)| ==> OrgTotal(old(bookings)[j]).Ok?) ==>
                && reply == Json(200, 1, "") && updated == Some(|old(bookings)|)
                && RecalculatedAs(old(bookings), bookings, Ok(|old(bookings)|))
      ensures verb == "POST" && (exists k :: 0 <= k < |old(bookings)| && OrgTotal(old(bookings)[k]).TypeError?) ==>
                && reply == Json(500, 0, "Error recalculating costs") && updated == None
                && RecalculatedAs(old(bookings), bookings, TypeError)
    {
      var gate := Gate(verb, {"POST"});
      if gate.Some? {
        return gate.value, None;
      }
      var result := RecalculateCosts();
      if result.TypeError? {
        return Json(500, 0, "Error recalculating costs"), None;
      }
      reply, updated := Json(200, 1, ""), Some(result.value);
    }

    /** The recalculation branch of api/index.js, reached through
        `RouteCorporate` (an `OPTIONS` request was answered before routing):
        any verb but `POST` is 405, and `POST` runs the same recalculation
        with the full booking schema, answering a throw with the router's
        own 500. */
    method RecalculateRouted(verb: string) returns (reply: Reply, updated: Option<nat>)
      modifies this
      ensures verb != "POST" ==> reply == MethodNotAllowed() && updated == None && bookings == old(bookings)
      ensures verb == "POST" && (forall j :: 0 <= j < |old(bookings)| ==> OrgTotal(old(bookings)[j]).Ok?) ==>
                && reply == Json(200, 1, "") && updated == Some(|old(bookings)|)
                && RecalculatedAs(old(bookings), bookings, Ok(|old(bookings)|))
      ensures verb == "POST" && (exists k :: 0 <= k < |old(bookings)| && OrgTotal(old(bookings)[k]).TypeError?) ==>
                && reply == Json(500, 0, "Server error") && updated == None
                && RecalculatedAs(old(bookings), bookings, TypeError)
    {
      if verb != "POST" {
        return MethodNotAllowed(), None;
      }
      var result := RecalculateCosts();
      if result.TypeError? {
        return Json(500, 0, "Server error"), None;
      }
      reply, updated := Json(200, 1, ""), Some(result.value);
    }

    /** The same handler as written: its own model declares only
        `organization_id`, so each booking is read through `RecalcView`,
        totals 0, and the assignment to the undeclared
        `total_investigation_cost` is not saved.  It answers 200 counting
        every booking, and no booking changes. */
    method HandleRecalculateAsWritten(verb: string) returns (reply: Reply, updated: Option<nat>)
      ensures verb == "OPTIONS" ==> reply == Empty(200) && updated == None
      ensures verb != "OPTIONS" && verb != "POST" ==> reply == MethodNotAllowed() && updated == None
      ensures verb == "POST" ==> reply == Json(200, 1, "") && updated == Some(|bookings|)
    {
      var gate := Gate(verb, {"POST"});
      if gate.Some? {
        return gate.value, None;
      }
      var count := 0;
      while count < |bookings|
        invariant 0 <= count <= |bookings|
      {
        var total := OrgTotalLoop(RecalcView(bookings[count]));
        RecalcViewTotalsZero(bookings[count]);
        assert total == Ok(0);
        count := count + 1;
      }
      reply, updated := Json(200, 1, ""), Some(count);
    }
  }

  /** The recalculation run from `before` to `after`: with no throw every
      booking carries its recalculated total and all are counted; a throw
      at booking `k` leaves the bookings before it recalculated and the
      rest untouched. */
  predicate RecalculatedAs(before: seq<Record>, after: seq<Record>, updated: Eval<nat>) {
    && |after| == |before|
    && (updated.Ok? <==> forall j :: 0 <= j < |before| ==> OrgTotal(before[j]).Ok?)
    && (updated.Ok? ==> updated.value == |before|)
    && (forall j :: 0 <= j < |after| && updated.Ok? ==> after[j] == Recalculated(before[j], OrgTotal(before[j]).value))
    && (updated.TypeError? ==>
          exists k :: && 0 <= k < |before| && OrgTotal(before[k]).TypeError?
                      && (forall j :: 0 <= j < k ==> OrgTotal(before[j]).Ok? && after[j] == Recalculated(before[j], OrgTotal(before[j]).value))
                      && (forall j :: k <= j < |after| ==> after[j] == before[j]))
  }

  // ---------------------------------------------------------------------
  // Routing of `/api/corporate-bookings…` in api/index.js

  /** The handler a request reaches; `Preflight` is the empty 200 every
      `OPTIONS` request gets before any routing, `NotAllowed` a branch's 405
      for a verb it does not serve. */
  datatype CorporateRoute = Preflight | ListOrCreate | ById | StatusUpdate | StaffResult | Recalculate | NotAllowed

  predicate IsCorporate(segments: seq<string>) {
    SegmentAt(segments, 0) == Str("corporate-bookings")
  }

  function SegmentAt(segments: seq<string>, i: nat): Value {
    if i < |segments| then Str(segments[i]) else Undefined
  }

  predicate ListGuard(segments: seq<string>) {
    IsCorporate(segments) && |segments| == 1
  }

  predicate ByIdGuard(segments: seq<string>) {
    IsCorporate(segments) && Truthy(SegmentAt(segments, 1)) && !Truthy(SegmentAt(segments, 2))
  }

  predicate StatusGuard(segments: seq<string>) {
    IsCorporate(segments) && SegmentAt(segments, 2) == Str("status")
  }

  predicate StaffResultGuard(segments: seq<string>) {
    IsCorporate(segments) && SegmentAt(segments, 2) == Str("staff") && SegmentAt(segments, 4) == Str("result")
  }

  predicate RecalculateGuard(segments: seq<string>) {
    IsCorporate(segments) && SegmentAt(segments, 1) == Str("recalculate-costs")
  }

  /** The corporate branches in the order the router tries them, each with
      the verbs it serves; `None` falls through to the 404.  The
      recalculation branch checks its verb itself (`RecalculateRouted`). */
  function RouteCorporateAsWritten(segments: seq<string>, verb: string): (r: Option<CorporateRoute>)
    ensures verb == "OPTIONS" ==> r == Some(Preflight)
    ensures verb != "OPTIONS" && ListGuard(segments) ==> (r == Some(NotAllowed) <==> verb != "GET" && verb != "POST")
    ensures verb != "OPTIONS" && !ListGuard(segments) && ByIdGuard(segments) ==>
              (r == Some(NotAllowed) <==> verb != "GET" && verb != "DELETE")
    ensures verb != "OPTIONS" && !ListGuard(segments) && !ByIdGuard(segments) && StatusGuard(segments) ==>
              (r == Some(NotAllowed) <==> verb != "PUT")
    ensures verb != "OPTIONS" && !ListGuard(segments) && !ByIdGuard(segments) && !StatusGuard(segments) && StaffResultGuard(segments) ==>
              (r == Some(NotAllowed) <==> verb != "PUT")
    ensures r.None? <==> && verb != "OPTIONS" && !ListGuard(segments) && !ByIdGuard(segments) && !StatusGuard(segments)
                         && !StaffResultGuard(segments) && !RecalculateGuard(segments)
  {
    if verb == "OPTIONS" then Some(Preflight)
    else if ListGuard(segments) then Some(if verb == "GET" || verb == "POST" then ListOrCreate else NotAllowed)
    else if ByIdGuard(segments) then Some(if verb == "GET" || verb == "DELETE" then ById else NotAllowed)
    else if StatusGuard(segments) then Some(if verb == "PUT" then StatusUpdate else NotAllowed)
    else if StaffResultGuard(segments) then Some(if verb == "PUT" then StaffResult else NotAllowed)
    else if RecalculateGuard(segments) then Some(Recalculate)
    else None
  }

  /** As written, `/corporate-bookings/recalculate-costs` reaches the by-ID
      branch: a `POST`, the verb the recalculation needs, is 405, and a
      `GET` looks up the organisation whose ID is `recalculate-costs`. */
  lemma RecalculateShadowedAsWritten()
    ensures RouteCorporateAsWritten(["corporate-bookings", "recalculate-costs"], "POST") == Some(NotAllowed)
    ensures RouteCorporateAsWritten(["corporate-bookings", "recalculate-costs"], "GET") == Some(ById)
  {
    assert ByIdGuard(["corporate-bookings", "recalculate-costs"]);
  }

  /** The router with the recalculation branch tried before the by-ID one. */
  function RouteCorporate(segments: seq<string>, verb: string): (r: Option<CorporateRoute>)
    ensures verb == "OPTIONS" ==> r == Some(Preflight)
    ensures verb != "OPTIONS" && RecalculateGuard(segments) && |segments| == 2 ==> r == Some(Recalculate)
    ensures SegmentAt(segments, 1) != Str("recalculate-costs") ==> r == RouteCorporateAsWritten(segments, verb)
  {
    if verb == "OPTIONS" then Some(Preflight)
    else if ListGuard(segments) then RouteCorporateAsWritten(segments, verb)
    else if RecalculateGuard(segments) && !Truthy(SegmentAt(segments, 2)) then Some(Recalculate)
    else RouteCorporateAsWritten(segments, verb)
  }
}
