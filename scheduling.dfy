/**
 * The public booking calendar: the open days of the next two weeks, the
 * fixed daily slots, and the slots still free for a department on a day.
 * Days are numbered consecutively from 1 January 1970, a Thursday; which
 * day is today is an input.
 */
module Scheduling {
  import opened Js
  import opened Http

  // ---------------------------------------------------------------------
  // Days

  /** `getDay()`: 0 is Sunday. */
  function Weekday(day: int): (w: int)
    ensures 0 <= w < 7
  {
    (day + 4) % 7
  }

  predicate IsSunday(day: int) {
    Weekday(day) == 0
  }

  /** The days among `today … today + n - 1` that are not Sundays, in
      ascending order. */
  function OpenDays(today: int, n: nat): seq<int>
    decreases n
  {
    if n == 0 then []
    else OpenDays(today, n - 1) + (if IsSunday(today + n - 1) then [] else [today + n - 1])
  }

  /** What the open days are: exactly the non-Sundays of the window,
      strictly increasing. */
  lemma {:induction false} OpenDaysSpec(today: int, n: nat)
    ensures forall i :: 0 <= i < |OpenDays(today, n)| ==>
              today <= OpenDays(today, n)[i] < today + n && !IsSunday(OpenDays(today, n)[i])
    ensures forall i, j :: 0 <= i < j < |OpenDays(today, n)| ==> OpenDays(today, n)[i] < OpenDays(today, n)[j]
    ensures forall d :: today <= d < today + n && !IsSunday(d) ==> d in OpenDays(today, n)
    decreases n
  {
    if n > 0 {
      OpenDaysSpec(today, n - 1);
    }
  }

  /** A window splits into consecutive windows. */
  lemma {:induction false} OpenDaysSplit(today: int, n: nat, m: nat)
    ensures OpenDays(today, n + m) == OpenDays(today, n) + OpenDays(today + n, m)
    decreases m
  {
    if m > 0 {
      OpenDaysSplit(today, n, m - 1);
      assert today + (n + m) - 1 == (today + n) + m - 1;
    }
  }

  /** Any seven consecutive days hold exactly one Sunday. */
  lemma OneSundayAWeek(today: int)
    ensures |OpenDays(today, 7)| == 6
  {
    WeekdayShift(today, 1);
    WeekdayShift(today, 2);
    WeekdayShift(today, 3);
    WeekdayShift(today, 4);
    WeekdayShift(today, 5);
    WeekdayShift(today, 6);
    assert |OpenDays(today, 1)| == (if IsSunday(today) then 0 else 1);
    assert |OpenDays(today, 2)| == |OpenDays(today, 1)| + (if IsSunday(today + 1) then 0 else 1);
    assert |OpenDays(today, 3)| == |OpenDays(today, 2)| + (if IsSunday(today + 2) then 0 else 1);
    assert |OpenDays(today, 4)| == |OpenDays(today, 3)| + (if IsSunday(today + 3) then 0 else 1);
    assert |OpenDays(today, 5)| == |OpenDays(today, 4)| + (if IsSunday(today + 4) then 0 else 1);
    assert |OpenDays(today, 6)| == |OpenDays(today, 5)| + (if IsSunday(today + 5) then 0 else 1);
    assert |OpenDays(today, 7)| == |OpenDays(today, 6)| + (if IsSunday(today + 6) then 0 else 1);
  }

  lemma WeekdayShift(day: int, i: nat)
    ensures Weekday(day + i) == (Weekday(day) + i) % 7
  {
    var q := (day + 4) / 7;
    assert day + 4 == 7 * q + Weekday(day);
    assert day + i + 4 == 7 * q + (Weekday(day) + i);
  }

  /** Fourteen consecutive days hold two Sundays, so twelve days are open. */
  lemma TwoWeeksTwelveDays(today: int)
    ensures |OpenDays(today, 14)| == 12
  {
    OpenDaysSplit(today, 7, 7);
    OneSundayAWeek(today);
    OneSundayAWeek(today + 7);
  }

  /** The booking window of available-dates.js and server.js: the loop over
      the day offsets 0 to 13 that skips Sundays. */
  method AvailableDates(today: int) returns (dates: seq<int>)
    ensures dates == OpenDays(today, 14)
    ensures |dates| == 12
  {
    dates := [];
    var i := 0;
    while i < 14
      invariant 0 <= i <= 14
      invariant dates == OpenDays(today, i)
    {
      var d := today + i;
      if !IsSunday(d) {
        dates := dates + [d];
      }
      i := i + 1;
    }
    TwoWeeksTwelveDays(today);
  }

  /** api/public/appointments/available-dates.js: the department is the
      query parameter when truthy, else the last `/`-separated piece of the
      request URL (query string included). */
  function DateDepartment(query: Option<string>, url: string): (department: string)
    ensures query.Some? && query.value != "" ==> department == query.value
    ensures (query.None? || query.value == "") ==> '/' !in department && IsSuffix(department, url)
  {
    if query.Some? && query.value != "" then query.value
    else LastPiece(url)
  }

  predicate IsSuffix(a: string, b: string) {
    |a| <= |b| && b[|b| - |a|..] == a
  }

  /** `url.split('/').pop()`: what follows the last `/`, or all of it. */
  function LastPiece(url: string): (piece: string)
    ensures '/' !in piece && IsSuffix(piece, url)
  {
    var parts := Split(url, '/');
    SplitJoin(url, '/');
    JoinEndsWithLast(parts, '/');
    parts[|parts| - 1]
  }

  lemma {:induction false} JoinEndsWithLast(parts: seq<string>, sep: char)
    requires |parts| >= 1
    ensures IsSuffix(parts[|parts| - 1], Join(parts, sep))
    decreases |parts|
  {
    if |parts| > 1 {
      JoinEndsWithLast(parts[1..], sep);
      assert parts[1..][|parts[1..]| - 1] == parts[|parts| - 1];
    }
  }

  datatype DatesAnswer = DatesAnswer(reply: Reply, department: string, dates: seq<int>)

  /** The whole available-dates handler. */
  method HandleAvailableDates(verb: string, query: Option<string>, url: string, today: int) returns (answer: DatesAnswer)
    ensures verb == "OPTIONS" ==> answer.reply == Empty(200)
    ensures verb != "OPTIONS" && verb != "GET" ==> answer.reply == MethodNotAllowed()
    ensures verb == "GET" ==>
              answer == DatesAnswer(Json(200, 1, ""), DateDepartment(query, url), OpenDays(today, 14))
  {
    var gate := Gate(verb, {"GET"});
    if gate.Some? {
      return DatesAnswer(gate.value, "", []);
    }
    var dates := AvailableDates(today);
    answer := DatesAnswer(Json(200, 1, ""), DateDepartment(query, url), dates);
  }

  // ---------------------------------------------------------------------
  // Slots

  const FixedSlots: seq<string> :=
    ["09:00 AM", "10:00 AM", "11:00 AM", "12:00 PM", "01:00 PM", "02:00 PM", "03:00 PM", "04:00 PM"]

  /** `xs` is `ys` with some elements left out, order kept. */
  predicate IsSubsequence(xs: seq<string>, ys: seq<string>)
    decreases |ys|
  {
    if xs == [] then true
    else if ys == [] then false
    else if xs[0] == ys[0] then IsSubsequence(xs[1..], ys[1..])
    else IsSubsequence(xs, ys[1..])
  }

  /** `all.filter(s => !booked.includes(s))` */
  function Unbooked(all: seq<string>, booked: seq<Value>): seq<string>
    decreases |all|
  {
    if all == [] then []
    else (if Str(all[0]) in booked then [] else [all[0]]) + Unbooked(all[1..], booked)
  }

  /** The free slots are the listed slots in their order, none of them
      booked, and every listed slot that is not booked is among them. */
  lemma {:induction false} UnbookedSpec(all: seq<string>, booked: seq<Value>)
    ensures IsSubsequence(Unbooked(all, booked), all)
    ensures forall s :: s in Unbooked(all, booked) ==> s in all && Str(s) !in booked
    ensures forall s :: s in all && Str(s) !in booked ==> s in Unbooked(all, booked)
    decreases |all|
  {
    if all != [] {
      UnbookedSpec(all[1..], booked);
      var rest := Unbooked(all[1..], booked);
      if Str(all[0]) !in booked {
        assert Unbooked(all, booked) == [all[0]] + rest;
        assert ([all[0]] + rest)[1..] == rest;
      } else {
        assert Unbooked(all, booked) == rest;
        SubsequenceOfTail(rest, all);
      }
      assert forall s :: s in all ==> s == all[0] || s in all[1..];
    }
  }

  lemma {:induction false} SubsequenceOfTail(xs: seq<string>, ys: seq<string>)
    requires ys != [] && IsSubsequence(xs, ys[1..])
    ensures IsSubsequence(xs, ys)
    decreases |ys|, 0
  {
    if xs != [] && xs[0] == ys[0] {
      // `ys[1..]` holds `xs`, so it holds `xs[1..]` too.
      SubsequenceDropFirst(xs, ys[1..]);
    }
  }

  lemma {:induction false} SubsequenceDropFirst(xs: seq<string>, ys: seq<string>)
    requires xs != [] && IsSubsequence(xs, ys)
    ensures IsSubsequence(xs[1..], ys)
    decreases |ys|, 1
  {
    if ys != [] {
      if xs[0] == ys[0] {
        SubsequenceOfTail(xs[1..], ys);
      } else {
        SubsequenceDropFirst(xs, ys[1..]);
        SubsequenceOfTail(xs[1..], ys);
      }
    }
  }

  /** `Appointment.find({ department, appointment_date: date })` mapped to
      `appointment_time`: the times taken for that department and day. */
  function BookedTimes(records: seq<Record>, department: string, date: string): (times: seq<Value>)
    ensures |times| <= |records|
    ensures forall t :: t in times ==>
              exists r :: (&& r in records && Field(r, "department") == Str(department)
                           && Field(r, "appointment_date") == Str(date) && Field(r, "appointment_time") == t)
    ensures forall i :: (&& 0 <= i < |records| && Field(records[i], "department") == Str(department)
                         && Field(records[i], "appointment_date") == Str(date)) ==> Field(records[i], "appointment_time") in times
    decreases |records|
  {
    if records == [] then []
    else
      var r := records[0];
      var rest := BookedTimes(records[1..], department, date);
      if Field(r, "department") == Str(department) && Field(r, "appointment_date") == Str(date)
      then [Field(r, "appointment_time")] + rest
      else rest
  }

  datatype SlotsAnswer = SlotsAnswer(reply: Reply, date: string, department: string, slots: seq<string>)

  /** server.js `GET /api/public/appointments/slots`: a missing or empty
      `date` or `department` is 400 before the store is read; otherwise the
      fixed slots less the booked ones, with both parameters echoed. */
  function ServerSlots(date: Option<string>, department: Option<string>, records: seq<Record>): (r: SlotsAnswer)
    ensures date.None? || date.value == "" || department.None? || department.value == "" ==>
              r == SlotsAnswer(Json(400, 0, "Missing date or department"), "", "", [])
    ensures r.reply.code == 200 <==> date.Some? && date.value != "" && department.Some? && department.value != ""
    ensures r.reply.code == 200 ==>
              && r.reply == Json(200, 1, "")
              && r.date == date.value && r.department == department.value
              && IsSubsequence(r.slots, FixedSlots)
              && (forall s :: s in r.slots ==> Str(s) !in BookedTimes(records, department.value, date.value))
              && (forall s :: s in FixedSlots && Str(s) !in BookedTimes(records, department.value, date.value) ==> s in r.slots)
  {
    if date.None? || date.value == "" || department.None? || department.value == "" then
      SlotsAnswer(Json(400, 0, "Missing date or department"), "", "", [])
    else
      var booked := BookedTimes(records, department.value, date.value);
      UnbookedSpec(FixedSlots, booked);
      SlotsAnswer(Json(200, 1, ""), date.value, department.value, Unbooked(FixedSlots, booked))
  }

  /** The 400 answer does not depend on the store at all. */
  lemma MissingParameterIgnoresStore(date: Option<string>, department: Option<string>, a: seq<Record>, b: seq<Record>)
    requires date.None? || date.value == "" || department.None? || department.value == ""
    ensures ServerSlots(date, department, a) == ServerSlots(date, department, b)
  {
  }

  /** With nothing booked every fixed slot is free. */
  lemma NothingBookedAllFree(date: string, department: string)
    requires date != "" && department != ""
    ensures ServerSlots(Some(date), Some(department), []).slots == FixedSlots
  {
    NoneBooked(FixedSlots);
  }

  lemma {:induction false} NoneBooked(all: seq<string>)
    ensures Unbooked(all, []) == all
    decreases |all|
  {
    if all != [] {
      NoneBooked(all[1..]);
    }
  }

  /** api/public/appointments/slots.js: the same gate and the same 400,
      but no store lookup: every fixed slot is offered. */
  function PublicSlots(verb: string, date: Option<string>, department: Option<string>): (r: SlotsAnswer)
    ensures verb == "OPTIONS" ==> r.reply == Empty(200)
    ensures verb != "OPTIONS" && verb != "GET" ==> r.reply == MethodNotAllowed()
    ensures verb == "GET" && (date.None? || date.value == "" || department.None? || department.value == "") ==>
              r.reply == Json(400, 0, "Missing date or department")
    ensures verb == "GET" && date.Some? && date.value != "" && department.Some? && department.value != "" ==>
              r == SlotsAnswer(Json(200, 1, ""), date.value, department.value, FixedSlots)
    ensures r.reply.Json? && r.reply.code == 200 ==>
              && date.Some? && department.Some?
              && r == SlotsAnswer(Json(200, 1, ""), date.value, department.value, FixedSlots) && |r.slots| == 8
  {
    match Gate(verb, {"GET"})
    case Some(reply) => SlotsAnswer(reply, "", "", [])
    case None =>
      if date.None? || date.value == "" || department.None? || department.value == "" then
        SlotsAnswer(Json(400, 0, "Missing date or department"), "", "", [])
      else SlotsAnswer(Json(200, 1, ""), date.value, department.value, FixedSlots)
  }
}
