/**
 * The one-off maintenance script update_investigations.js: every corporate
 * booking's investigations that carry a price but no test name get a name
 * looked up from the price and the category `General`, and a booking is
 * written back when at least one of its investigations changed.
 */
module InvestigationBackfill {
  import opened Js

  /** The prices the script recognises, compared with `===`. */
  const PriceNames: map<int, string> :=
    map[3000 := "Blood Test", 2000 := "X-Ray", 5000 := "Ultrasound", 10000 := "CT Scan", 10500 := "MRI Scan"]

  /** The test name for a price: a recognised number gives its name, and
      anything else, a numeric string included, gives `Medical Test`. */
  function NameForPrice(price: Value): (name: string)
    ensures name != ""
    ensures !price.Num? ==> name == "Medical Test"
    ensures price.Num? && price.n in PriceNames ==> name == PriceNames[price.n]
    ensures name == "Medical Test" || name in PriceNames.Values
  {
    if price.Num? && price.n in PriceNames then PriceNames[price.n] else "Medical Test"
  }

  /** Strict equality: the string `"3000"` is not the number 3000. */
  lemma StrictPriceMatch()
    ensures NameForPrice(Num(3000)) == "Blood Test"
    ensures NameForPrice(Str("3000")) == "Medical Test"
    ensures NameForPrice(Num(10500)) == "MRI Scan"
    ensures NameForPrice(Num(4000)) == "Medical Test"
  {
  }

  /** `for (… of v)`: arrays yield their elements and strings their
      characters; anything else is not iterable and throws. */
  function ForOf(v: Value): (r: Eval<seq<Value>>)
    ensures r.TypeError? <==> !v.Arr? && !v.Str?
    ensures v.Arr? ==> r == Ok(v.items)
    ensures r.Ok? ==> forall i :: 0 <= i < |r.value| ==> !Nullish(r.value[i]) || v.Arr?
  {
    match v
    case Arr(items) => Ok(items)
    case Str(s) => Ok(seq(|s|, i requires 0 <= i < |s| => Str([s[i]])))
    case _ => TypeError
  }

  // ---------------------------------------------------------------------
  // The specification, level by level

  /** `!inv.test_name && inv.price` on an object (other non-nullish values
      have neither property). */
  predicate NeedsName(inv: Value) {
    inv.Obj? && !Truthy(Prop(inv, "test_name")) && Truthy(Prop(inv, "price"))
  }

  /** One investigation after the script has looked at it. */
  function FillInvestigation(inv: Value): (r: Value)
    ensures !NeedsName(inv) ==> r == inv
    ensures NeedsName(inv) ==>
              && r.Obj?
              && Prop(r, "test_name") == Str(NameForPrice(Prop(inv, "price")))
              && Prop(r, "category") == Str("General")
              && (forall k :: k != "test_name" && k != "category" ==> Prop(r, k) == Prop(inv, k))
    ensures !NeedsName(r)
  {
    if NeedsName(inv) then Obj(inv.props["test_name" := Str(NameForPrice(Prop(inv, "price")))]["category" := Str("General")])
    else inv
  }

  /** The investigations of one staff entry, or the throw a `null` or
      `undefined` entry causes. */
  function FillInvestigations(invs: seq<Value>): Eval<seq<Value>> {
    if exists i :: 0 <= i < |invs| && Nullish(invs[i]) then TypeError
    else Ok(seq(|invs|, i requires 0 <= i < |invs| => FillInvestigation(invs[i])))
  }

  /** One staff entry: `staff.investigations` throws on a nullish entry,
      iterating it throws when it is not iterable. */
  function FillStaff(staff: Value): Eval<Value> {
    if Nullish(staff) then TypeError
    else
      var invs := Prop(staff, "investigations");
      match ForOf(invs)
      case TypeError => TypeError
      case Ok(elements) =>
        match FillInvestigations(elements)
        case TypeError => TypeError
        case Ok(out) => Ok(if invs.Arr? then Obj(staff.props["investigations" := Arr(out)]) else staff)
  }

  function FillStaffList(staff: seq<Value>): (r: Eval<seq<Value>>)
    ensures r.TypeError? <==> exists i :: 0 <= i < |staff| && FillStaff(staff[i]).TypeError?
    ensures r.Ok? ==> |r.value| == |staff| && forall i :: 0 <= i < |staff| ==> Ok(r.value[i]) == FillStaff(staff[i])
  {
    if exists i :: 0 <= i < |staff| && FillStaff(staff[i]).TypeError? then TypeError
    else Ok(seq(|staff|, i requires 0 <= i < |staff| => FillStaff(staff[i]).value))
  }

  /** One booking: its staff list with every entry filled. */
  function FillBooking(booking: Record): Eval<Record> {
    var members := Field(booking, "staff_members");
    match ForOf(members)
    case TypeError => TypeError
    case Ok(staff) =>
      match FillStaffList(staff)
      case TypeError => TypeError
      case Ok(out) => Ok(if members.Arr? then booking["staff_members" := Arr(out)] else booking)
  }

  /** The per-booking `updated` flag: some investigation needed a name. */
  predicate StaffChanged(staff: Value) {
    staff.Obj? && Prop(staff, "investigations").Arr?
    && exists j :: 0 <= j < |Prop(staff, "investigations").items| && NeedsName(Prop(staff, "investigations").items[j])
  }

  predicate BookingChanged(booking: Record) {
    var members := Field(booking, "staff_members");
    members.Arr? && exists i :: 0 <= i < |members.items| && StaffChanged(members.items[i])
  }

  // ---------------------------------------------------------------------
  // What the specification promises

  lemma FillInvestigationsUnchanged(invs: seq<Value>)
    requires FillInvestigations(invs).Ok?
    requires forall j :: 0 <= j < |invs| ==> !NeedsName(invs[j])
    ensures FillInvestigations(invs).value == invs
  {
  }

  lemma FillStaffUnchanged(staff: Value)
    requires FillStaff(staff).Ok? && !StaffChanged(staff)
    ensures FillStaff(staff).value == staff
  {
    var invs := Prop(staff, "investigations");
    if invs.Arr? {
      FillInvestigationsUnchanged(invs.items);
      assert staff.props["investigations" := invs] == staff.props;
    }
  }

  /** A booking whose flag stays false comes out as it went in, so writing
      back only the flagged bookings stores the same collection as writing
      back all of them. */
  lemma UnflaggedBookingUnchanged(booking: Record)
    requires FillBooking(booking).Ok? && !BookingChanged(booking)
    ensures FillBooking(booking).value == booking
  {
    var members := Field(booking, "staff_members");
    if members.Arr? {
      var out := FillStaffList(members.items).value;
      forall i | 0 <= i < |members.items|
        ensures out[i] == members.items[i]
      {
        FillStaffUnchanged(members.items[i]);
      }
      assert out == members.items;
      assert booking["staff_members" := members] == booking;
    }
  }

  lemma FillInvestigationsTwice(invs: seq<Value>)
    requires FillInvestigations(invs).Ok?
    ensures FillInvestigations(FillInvestigations(invs).value) == FillInvestigations(invs)
    ensures forall j :: 0 <= j < |FillInvestigations(invs).value| ==> !NeedsName(FillInvestigations(invs).value[j])
  {
    var out := FillInvestigations(invs).value;
    assert forall j :: 0 <= j < |out| ==> !Nullish(out[j]) by {
      forall j | 0 <= j < |out|
        ensures !Nullish(out[j])
      {
        assert !Nullish(invs[j]);
      }
    }
    FillInvestigationsUnchanged(out);
  }

  lemma FillStaffTwice(staff: Value)
    requires FillStaff(staff).Ok?
    ensures FillStaff(FillStaff(staff).value) == FillStaff(staff)
    ensures !StaffChanged(FillStaff(staff).value)
  {
    var invs := Prop(staff, "investigations");
    var elements := ForOf(invs).value;
    FillInvestigationsTwice(elements);
    var filled := FillStaff(staff).value;
    if invs.Arr? {
      var out := FillInvestigations(elements).value;
      assert filled == Obj(staff.props["investigations" := Arr(out)]);
      assert Prop(filled, "investigations") == Arr(out);
      assert filled.props["investigations" := Arr(out)] == filled.props;
    }
  }

  /** The backfill is idempotent: on a booking it has already processed it
      raises no flag and changes nothing, since every entry it changed now
      has a non-empty test name. */
  lemma FillBookingTwice(booking: Record)
    requires FillBooking(booking).Ok?
    ensures FillBooking(FillBooking(booking).value) == FillBooking(booking)
    ensures !BookingChanged(FillBooking(booking).value)
  {
    var members := Field(booking, "staff_members");
    var filled := FillBooking(booking).value;
    if members.Arr? {
      var out := FillStaffList(members.items).value;
      forall i | 0 <= i < |out|
        ensures FillStaff(out[i]) == Ok(out[i]) && !StaffChanged(out[i])
      {
        FillStaffTwice(members.items[i]);
      }
      assert Field(filled, "staff_members") == Arr(out);
      assert !exists i :: 0 <= i < |out| && FillStaff(out[i]).TypeError?;
      assert seq(|out|, i requires 0 <= i < |out| => FillStaff(out[i]).value) == out;
      assert filled["staff_members" := Arr(out)] == filled;
    } else {
      assert filled == booking;
      assert !BookingChanged(booking);
    }
  }

  // ---------------------------------------------------------------------
  // The script's nested loops

  /** The innermost loop: names are filled in place, entry by entry, and
      the flag records whether any entry changed. */
  method FillInvestigationsLoop(invs: seq<Value>) returns (r: Eval<seq<Value>>, updated: bool)
    ensures r == FillInvestigations(invs)
    ensures r.Ok? ==> (updated <==> exists j :: 0 <= j < |invs| && NeedsName(invs[j]))
  {
    var current := invs;
    updated := false;
    var j := 0;
    while j < |current|
      invariant 0 <= j <= |current| == |invs|
      invariant forall i :: 0 <= i < j ==> !Nullish(invs[i]) && current[i] == FillInvestigation(invs[i])
      invariant forall i :: j <= i < |current| ==> current[i] == invs[i]
      invariant updated <==> exists i :: 0 <= i < j && NeedsName(invs[i])
    {
      var inv := current[j];
      if Nullish(inv) {
        assert Nullish(invs[j]);
        return TypeError, updated;
      }
      if inv.Obj? && !Truthy(Prop(inv, "test_name")) && Truthy(Prop(inv, "price")) {
        current := current[j := Obj(inv.props["test_name" := Str(NameForPrice(Prop(inv, "price")))]["category" := Str("General")])];
        updated := true;
      }
      j := j + 1;
    }
    assert current == seq(|invs|, i requires 0 <= i < |invs| => FillInvestigation(invs[i]));
    r := Ok(current);
  }

  /** One staff entry of the middle loop. */
  method FillStaffStep(staff: Value) returns (r: Eval<Value>, updated: bool)
    ensures r == FillStaff(staff)
    ensures r.Ok? ==> (updated <==> StaffChanged(staff))
  {
    if Nullish(staff) {
      return TypeError, false;
    }
    var invs := Prop(staff, "investigations");
    var elements := ForOf(invs);
    if elements.TypeError? {
      return TypeError, false;
    }
    var out;
    out, updated := FillInvestigationsLoop(elements.value);
    if out.TypeError? {
      return TypeError, updated;
    }
    if invs.Arr? {
      r := Ok(Obj(staff.props["investigations" := Arr(out.value)]));
    } else {
      r := Ok(staff);
      updated := false;
    }
  }

  /** The middle loop over a booking's staff list. */
  method FillStaffListLoop(staff: seq<Value>) returns (r: Eval<seq<Value>>, updated: bool)
    ensures r == FillStaffList(staff)
    ensures r.Ok? ==> (updated <==> exists i :: 0 <= i < |staff| && StaffChanged(staff[i]))
  {
    var current := staff;
    updated := false;
    var i := 0;
    while i < |current|
      invariant 0 <= i <= |current| == |staff|
      invariant forall k :: 0 <= k < i ==> FillStaff(staff[k]) == Ok(current[k])
      invariant forall k :: i <= k < |current| ==> current[k] == staff[k]
      invariant updated <==> exists k :: 0 <= k < i && StaffChanged(staff[k])
    {
      var one, changed := FillStaffStep(current[i]);
      if one.TypeError? {
        assert FillStaff(staff[i]).TypeError?;
        return TypeError, updated;
      }
      current := current[i := one.value];
      updated := updated || changed;
      i := i + 1;
    }
    assert current == seq(|staff|, k requires 0 <= k < |staff| => FillStaff(staff[k]).value);
    r := Ok(current);
  }

  /** The bookings collection the script walks. */
  class BookingCollection {
    var bookings: seq<Record>

    constructor (initial: seq<Record>)
      ensures bookings == initial
    {
      bookings := initial;
    }

    /** The outer loop.  A flagged booking has its filled staff list written
        back; an unflagged one is left alone (which, by
        `UnflaggedBookingUnchanged`, is what filling it would give anyway).
        A throw ends the run at that booking: the ones before it are done,
        it and the ones after it are untouched. */
    method Run() returns (processed: nat)
      modifies this
      ensures processed <= |old(bookings)| == |bookings|
      ensures processed < |old(bookings)| ==> FillBooking(old(bookings)[processed]).TypeError?
      ensures forall j :: 0 <= j < processed ==> FillBooking(old(bookings)[j]) == Ok(bookings[j])
      ensures forall j :: processed <= j < |bookings| ==> bookings[j] == old(bookings)[j]
    {
      processed := 0;
      while processed < |bookings|
        invariant processed <= |bookings| == |old(bookings)|
        invariant forall j :: 0 <= j < processed ==> FillBooking(old(bookings)[j]) == Ok(bookings[j])
        invariant forall j :: processed <= j < |bookings| ==> bookings[j] == old(bookings)[j]
      {
        var booking := bookings[processed];
        var members := Field(booking, "staff_members");
        var staff := ForOf(members);
        if staff.TypeError? {
          return;
        }
        var out, updated := FillStaffListLoop(staff.value);
        if out.TypeError? {
          return;
        }
        if updated {
          bookings := bookings[processed := booking["staff_members" := Arr(out.value)]];
        } else {
          UnflaggedBookingUnchanged(booking);
        }
        processed := processed + 1;
      }
    }
  }
}
