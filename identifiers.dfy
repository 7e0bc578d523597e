/**
 * The identifier generators of the booking handlers.  `Math.random()` and the
 * clock are inputs: a 6-digit generator takes the drawn real in [0, 1), a
 * base-36 generator takes the string `Math.random().toString(36)` rendered,
 * and a date-stamped generator takes the calendar fields.
 */
module Identifiers {
  import opened Js

  // ---------------------------------------------------------------------
  // Six-digit numbers: `Math.floor(100000 + Math.random() * 900000)`

  function SixDigitNumber(draw: real): (n: nat)
    requires 0.0 <= draw < 1.0
    ensures 100000 <= n <= 999999
  {
    var f := (100000.0 + draw * 900000.0).Floor;
    assert 100000 <= f;
    f
  }

  /** Exactly six decimal digits without a leading zero. */
  predicate IsSixDigits(s: string) {
    |s| == 6 && AllDigits(s) && s[0] != '0'
  }

  lemma SixDigitRendering(n: nat)
    requires 100000 <= n <= 999999
    ensures IsSixDigits(NatToString(n))
    ensures DigitsValue(NatToString(n)) == n
  {
    assert Pow10(5) == 100000 && Pow10(6) == 1000000;
    NatToStringLength(n, 6);
    NatToStringRoundTrip(n);
  }

  /** `'HFML' + randomNum`, the appointment unique ID of api/index.js and
      server.js. */
  function HfmlId(draw: real): (id: string)
    requires 0.0 <= draw < 1.0
    ensures |id| == 10 && id[..4] == "HFML" && IsSixDigits(id[4..])
    ensures DigitsValue(id[4..]) == SixDigitNumber(draw)
  {
    var n := SixDigitNumber(draw);
    SixDigitRendering(n);
    var id := "HFML" + NatToString(n);
    assert id[4..] == NatToString(n);
    id
  }

  /** `'ORG' + randomNum`, the organisation ID api/index.js mints when the
      body brings none. */
  function OrgNumericId(draw: real): (id: string)
    requires 0.0 <= draw < 1.0
    ensures |id| == 9 && id[..3] == "ORG" && IsSixDigits(id[3..])
    ensures DigitsValue(id[3..]) == SixDigitNumber(draw)
  {
    var n := SixDigitNumber(draw);
    SixDigitRendering(n);
    var id := "ORG" + NatToString(n);
    assert id[3..] == NatToString(n);
    id
  }

  /** `'HF' + Date.now()`, the booking ID of server.js. */
  function HfMillisId(nowMillis: nat): (id: string)
    ensures |id| > 2 && id[..2] == "HF" && AllDigits(id[2..])
    ensures DigitsValue(id[2..]) == nowMillis
  {
    NatToStringRoundTrip(nowMillis);
    var id := "HF" + NatToString(nowMillis);
    assert id[2..] == NatToString(nowMillis);
    id
  }

  // ---------------------------------------------------------------------
  // Base-36 random characters: `Math.random().toString(36).substring(2, k).toUpperCase()`

  predicate IsBase36Lower(c: char) {
    IsDigit(c) || 'a' <= c <= 'z'
  }

  predicate IsBase36Upper(c: char) {
    IsDigit(c) || 'A' <= c <= 'Z'
  }

  /** What `Math.random().toString(36)` renders: "0" for a zero draw, else
      "0." followed by base-36 fraction digits. */
  predicate IsRandomBase36(rendered: string) {
    rendered == "0"
    || (|rendered| > 2 && rendered[..2] == "0." && forall i :: 2 <= i < |rendered| ==> IsBase36Lower(rendered[i]))
  }

  /** The base-36 fraction digits of a rendered draw. */
  function FractionDigits(rendered: string): string
    requires IsRandomBase36(rendered)
  {
    if rendered == "0" then "" else rendered[2..]
  }

  /** `rendered.substring(2, 2 + width).toUpperCase()`: at most `width`
      upper-case base-36 characters, which are the leading fraction digits
      of the draw. */
  function RandomChars(rendered: string, width: nat): (s: string)
    requires IsRandomBase36(rendered)
    ensures |s| <= width
    ensures forall i :: 0 <= i < |s| ==> IsBase36Upper(s[i])
    ensures var f := FractionDigits(rendered);
            |s| == (if |f| < width then |f| else width) && ToLower(s) == f[..|s|]
  {
    var raw := Substring(rendered, 2, 2 + width);
    var f := FractionDigits(rendered);
    assert raw == f[..(if |f| < width then |f| else width)];
    var s := ToUpper(raw);
    assert forall i :: 0 <= i < |s| ==> LowerChar(UpperChar(raw[i])) == raw[i];
    s
  }

  predicate IsBase36Tail(s: string, width: nat) {
    |s| <= width && forall i :: 0 <= i < |s| ==> IsBase36Upper(s[i])
  }

  /** `'HF-' + …substring(2, 8).toUpperCase()`, the unique ID of
      api/appointments.js. */
  function HfDashId(rendered: string): (id: string)
    requires IsRandomBase36(rendered)
    ensures |id| >= 3 && id[..3] == "HF-" && IsBase36Tail(id[3..], 6)
    ensures IsPrefix(ToLower(id[3..]), FractionDigits(rendered))
  {
    var s := RandomChars(rendered, 6);
    var id := "HF-" + s;
    assert id[3..] == s;
    id
  }

  /** `'ORG-' + …substring(2, 8).toUpperCase()`, `generateOrgId` of
      api/corporate-bookings.js. */
  function OrgDashId(rendered: string): (id: string)
    requires IsRandomBase36(rendered)
    ensures |id| >= 4 && id[..4] == "ORG-" && IsBase36Tail(id[4..], 6)
    ensures IsPrefix(ToLower(id[4..]), FractionDigits(rendered))
  {
    var s := RandomChars(rendered, 6);
    var id := "ORG-" + s;
    assert id[4..] == s;
    id
  }

  // ---------------------------------------------------------------------
  // Date-stamped booking IDs: `BK-${yyyy}${mm}${dd}-${rand}`

  /** A month or day number rendered with `padStart(2, '0')`. */
  lemma TwoDigitRendering(n: nat)
    requires 1 <= n <= 99
    ensures var s := PadStart2(NatToString(n));
            |s| == 2 && AllDigits(s) && DigitsValue(s) == n
  {
    NatToStringRoundTrip(n);
    var t := NatToString(n);
    var s := PadStart2(t);
    if n < 10 {
      assert Pow10(0) <= n < Pow10(1);
      NatToStringLength(n, 1);
      assert s == "0" + t;
      assert s[..1] == "0";
      assert DigitsValue(s) == DigitsValue("0") * 10 + DigitValue(t[0]);
    } else {
      assert Pow10(1) <= n < Pow10(2);
      NatToStringLength(n, 2);
    }
  }

  /** `a` is a prefix of `b`. */
  predicate IsPrefix(a: string, b: string) {
    |a| <= |b| && b[..|a|] == a
  }

  /** `BK-`, a 4-digit year, 2-digit month and day, `-`, at most four
      upper-case base-36 characters. */
  predicate IsBookingId(id: string) {
    && |id| >= 12 && id[..3] == "BK-"
    && AllDigits(id[3..7]) && AllDigits(id[7..9]) && AllDigits(id[9..11])
    && id[11] == '-' && IsBase36Tail(id[12..], 4)
  }

  /** The booking ID of api/appointments.js and api/index.js.  `month0` is
      `getMonth()` (0-based), `day` is `getDate()`. */
  function BookingId(year: nat, month0: nat, day: nat, rendered: string): (id: string)
    requires month0 < 12 && 1 <= day <= 31
    requires IsRandomBase36(rendered)
    ensures 1000 <= year <= 9999 ==>
              && IsBookingId(id)
              && DigitsValue(id[3..7]) == year
              && DigitsValue(id[7..9]) == month0 + 1
              && DigitsValue(id[9..11]) == day
              && IsPrefix(ToLower(id[12..]), FractionDigits(rendered))
  {
    if 1000 <= year <= 9999 then BookingIdParts(year, month0, day, rendered); BookingIdOf(year, month0, day, rendered)
    else BookingIdOf(year, month0, day, rendered)
  }

  function BookingIdOf(year: nat, month0: nat, day: nat, rendered: string): string
    requires month0 < 12 && 1 <= day <= 31
    requires IsRandomBase36(rendered)
  {
    "BK-" + NatToString(year) + PadStart2(NatToString(month0 + 1)) + PadStart2(NatToString(day))
      + "-" + RandomChars(rendered, 4)
  }

  lemma BookingIdParts(year: nat, month0: nat, day: nat, rendered: string)
    requires month0 < 12 && 1 <= day <= 31
    requires IsRandomBase36(rendered)
    requires 1000 <= year <= 9999
    ensures var id := BookingIdOf(year, month0, day, rendered);
              && IsBookingId(id)
              && DigitsValue(id[3..7]) == year
              && DigitsValue(id[7..9]) == month0 + 1
              && DigitsValue(id[9..11]) == day
              && IsPrefix(ToLower(id[12..]), FractionDigits(rendered))
  {
    var yyyy := NatToString(year);
    var mm := PadStart2(NatToString(month0 + 1));
    var dd := PadStart2(NatToString(day));
    var rand := RandomChars(rendered, 4);
    assert |yyyy| == 4 && AllDigits(yyyy) && DigitsValue(yyyy) == year by {
      FourDigitRendering(year);
    }
    assert |mm| == 2 && AllDigits(mm) && DigitsValue(mm) == month0 + 1 by {
      TwoDigitRendering(month0 + 1);
    }
    assert |dd| == 2 && AllDigits(dd) && DigitsValue(dd) == day by {
      TwoDigitRendering(day);
    }
    assert IsBase36Tail(rand, 4) && IsPrefix(ToLower(rand), FractionDigits(rendered));
    assert BookingIdOf(year, month0, day, rendered) == "BK-" + yyyy + mm + dd + "-" + rand;
    BookingIdFromParts(yyyy, mm, dd, rand, year, month0 + 1, day, FractionDigits(rendered));
  }

  lemma FourDigitRendering(n: nat)
    requires 1000 <= n <= 9999
    ensures |NatToString(n)| == 4 && AllDigits(NatToString(n)) && DigitsValue(NatToString(n)) == n
  {
    assert Pow10(3) == 1000 && Pow10(4) == 10000;
    NatToStringLength(n, 4);
    NatToStringRoundTrip(n);
  }

  lemma BookingIdFromParts(yyyy: string, mm: string, dd: string, rand: string, y: nat, m: nat, d: nat, f: string)
    requires |yyyy| == 4 && |mm| == 2 && |dd| == 2
    requires AllDigits(yyyy) && AllDigits(mm) && AllDigits(dd)
    requires DigitsValue(yyyy) == y && DigitsValue(mm) == m && DigitsValue(dd) == d
    requires IsBase36Tail(rand, 4) && IsPrefix(ToLower(rand), f)
    ensures var id := "BK-" + yyyy + mm + dd + "-" + rand;
            && IsBookingId(id)
            && DigitsValue(id[3..7]) == y && DigitsValue(id[7..9]) == m && DigitsValue(id[9..11]) == d
            && IsPrefix(ToLower(id[12..]), f)
  {
    BookingIdSlices(yyyy, mm, dd, rand);
  }

  lemma BookingIdSlices(yyyy: string, mm: string, dd: string, rand: string)
    requires |yyyy| == 4 && |mm| == 2 && |dd| == 2
    ensures var id := "BK-" + yyyy + mm + dd + "-" + rand;
            && |id| == 12 + |rand| && id[..3] == "BK-" && id[3..7] == yyyy && id[7..9] == mm
            && id[9..11] == dd && id[11] == '-' && id[12..] == rand
  {
  }

  // ---------------------------------------------------------------------
  // Collision retry

  /** The position of the first candidate that is not already taken: the
      ID a check-then-retry loop settles on when the generator produces
      `candidates` in turn.  `None` when every candidate collides. */
  function FirstFree(candidates: seq<string>, taken: set<string>): (r: Option<nat>)
    ensures r.Some? ==> r.value < |candidates| && candidates[r.value] !in taken
    ensures r.Some? ==> forall j :: 0 <= j < r.value ==> candidates[j] in taken
    ensures r.None? ==> forall j :: 0 <= j < |candidates| ==> candidates[j] in taken
    decreases |candidates|
  {
    if |candidates| == 0 then None
    else if candidates[0] !in taken then Some(0)
    else match FirstFree(candidates[1..], taken)
      case None => None
      case Some(k) => Some(k + 1)
  }
}
