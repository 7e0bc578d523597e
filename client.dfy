/**
 * The browser script scripts/common.js: the phone-number rule of the
 * enquiry forms, the form-to-dictionary serialisation, the proposed
 * treatment list, and the mobile platform sniffing.
 */
module Client {
  import opened Js

  // ---------------------------------------------------------------------
  // Phone numbers: `^[0][1-9][0-9]{9}$|^[1-9][0-9]{9}$`

  predicate IsNonZeroDigit(c: char) {
    '1' <= c <= '9'
  }

  /** The phone rule: a leading `0`, a non-zero digit and nine digits, or
      a non-zero digit and nine digits. */
  predicate PhoneOk(s: string) {
    || (|s| == 11 && s[0] == '0' && IsNonZeroDigit(s[1]) && AllDigits(s[2..]))
    || (|s| == 10 && IsNonZeroDigit(s[0]) && AllDigits(s[1..]))
  }

  /** An accepted number is ten or eleven digits, never starting `00`. */
  lemma PhoneShape(s: string)
    requires PhoneOk(s)
    ensures AllDigits(s) && (|s| == 10 || |s| == 11)
    ensures !StartsWith(s, "00")
  {
    assert s == [s[0]] + s[1..];
    if |s| == 11 {
      assert s[1..] == [s[1]] + s[2..];
    }
  }

  /** A ten-digit number without a leading zero is accepted with or without
      a `0` in front, and nothing else of that form is. */
  lemma TrunkPrefix(s: string)
    requires |s| == 10 && AllDigits(s)
    ensures PhoneOk(s) <==> s[0] != '0'
    ensures PhoneOk("0" + s) <==> s[0] != '0'
  {
    assert s[1..] == s[1..];
    assert ("0" + s)[2..] == s[1..];
    assert ("0" + s)[1] == s[0];
  }

  /** The `regex` validator: an optional empty field passes, anything else
      must match. */
  predicate RegexRule(required: bool, value: string) {
    (!required && value == "") || PhoneOk(value)
  }

  /** The phone fields are required, so an empty one fails. */
  lemma RequiredEmptyFails()
    ensures !RegexRule(true, "")
    ensures RegexRule(false, "")
  {
  }

  // ---------------------------------------------------------------------
  // Form serialisation: `$.each(formData, (i, v) => data[v.name] = v.value)`

  datatype Pair = Pair(name: string, value: string)

  /** The dictionary after the loop has run over `pairs`. */
  function Serialized(pairs: seq<Pair>): map<string, string>
    decreases |pairs|
  {
    if pairs == [] then map[]
    else Serialized(pairs[..|pairs| - 1])[pairs[|pairs| - 1].name := pairs[|pairs| - 1].value]
  }

  /** Every name gets a key, and each key holds the value of the last pair
      with that name. */
  lemma {:induction false} SerializedLastWins(pairs: seq<Pair>)
    ensures Serialized(pairs).Keys == set p | p in pairs :: p.name
    ensures forall k :: k in Serialized(pairs) ==>
              exists i :: (&& 0 <= i < |pairs| && pairs[i].name == k && Serialized(pairs)[k] == pairs[i].value
                           && forall j :: i < j < |pairs| ==> pairs[j].name != k)
    decreases |pairs|
  {
    if pairs != [] {
      var init := pairs[..|pairs| - 1];
      var last := pairs[|pairs| - 1];
      SerializedLastWins(init);
      assert pairs == init + [last];
      forall k | k in Serialized(pairs)
        ensures exists i :: (&& 0 <= i < |pairs| && pairs[i].name == k && Serialized(pairs)[k] == pairs[i].value
                             && forall j :: i < j < |pairs| ==> pairs[j].name != k)
      {
        if k == last.name {
          assert pairs[|pairs| - 1].name == k;
        } else {
          var i :| 0 <= i < |init| && init[i].name == k && Serialized(init)[k] == init[i].value
                   && forall j :: i < j < |init| ==> init[j].name != k;
          assert pairs[i] == init[i];
          assert forall j :: i < j < |pairs| ==> pairs[j].name != k by {
            forall j | i < j < |pairs|
              ensures pairs[j].name != k
            {
              if j < |init| {
                assert pairs[j] == init[j];
              }
            }
          }
        }
      }
    }
  }

  /** The submit handler's loop. */
  method SerializeForm(pairs: seq<Pair>) returns (data: map<string, string>)
    ensures data == Serialized(pairs)
  {
    data := map[];
    var i := 0;
    while i < |pairs|
      invariant 0 <= i <= |pairs|
      invariant data == Serialized(pairs[..i])
    {
      assert pairs[..i + 1][..i] == pairs[..i];
      data := data[pairs[i].name := pairs[i].value];
      i := i + 1;
    }
    assert pairs[..i] == pairs;
  }

  // ---------------------------------------------------------------------
  // The proposed treatments: checked boxes pushed in order, then joined

  datatype Checkbox = Checkbox(value: string, checked: bool)

  function CheckedValues(boxes: seq<Checkbox>): (values: seq<string>)
    ensures |values| <= |boxes|
    decreases |boxes|
  {
    if boxes == [] then []
    else CheckedValues(boxes[..|boxes| - 1]) + (if boxes[|boxes| - 1].checked then [boxes[|boxes| - 1].value] else [])
  }

  /** `propsed_treatment.toString()` after the `each` loop pushed every
      checked box's value. */
  method ProposedTreatment(boxes: seq<Checkbox>) returns (joined: string)
    ensures joined == Join(CheckedValues(boxes), ',')
  {
    var values: seq<string> := [];
    var i := 0;
    while i < |boxes|
      invariant 0 <= i <= |boxes|
      invariant values == CheckedValues(boxes[..i])
    {
      assert boxes[..i + 1][..i] == boxes[..i];
      if boxes[i].checked {
        values := values + [boxes[i].value];
      }
      i := i + 1;
    }
    assert boxes[..i] == boxes;
    joined := Join(values, ',');
  }

  /** When no value holds a comma and at least one box is checked, the
      receiver recovers the checked values by splitting on commas. */
  lemma {:induction false} SplitJoined(parts: seq<string>)
    requires |parts| >= 1
    requires forall i :: 0 <= i < |parts| ==> ',' !in parts[i]
    ensures Split(Join(parts, ','), ',') == parts
    decreases |parts|
  {
    if |parts| == 1 {
      SplitWithoutSeparator(parts[0], ',');
    } else {
      SplitJoined(parts[1..]);
      SplitAfterPiece(parts[0], Join(parts[1..], ','), ',');
      assert parts == [parts[0]] + parts[1..];
    }
  }

  // ---------------------------------------------------------------------
  // `getMobileOperatingSystem`

  /** A case-insensitive word search (`/word/i.test(s)`) for a lower-case word. */
  predicate ContainsIgnoreCase(s: string, word: string) {
    Contains(ToLower(s), word)
  }

  function MobileOs(userAgent: string, msStream: bool): (os: string)
    ensures os in {"Windows Phone", "Android", "iOS", "unknown"}
    ensures ContainsIgnoreCase(userAgent, "windows phone") <==> os == "Windows Phone"
    ensures os == "Android" <==> !ContainsIgnoreCase(userAgent, "windows phone") && ContainsIgnoreCase(userAgent, "android")
    ensures os == "iOS" <==> && !ContainsIgnoreCase(userAgent, "windows phone") && !ContainsIgnoreCase(userAgent, "android")
                             && !msStream && (Contains(userAgent, "iPad") || Contains(userAgent, "iPhone") || Contains(userAgent, "iPod"))
    ensures os == "unknown" <==> && !ContainsIgnoreCase(userAgent, "windows phone") && !ContainsIgnoreCase(userAgent, "android")
                                 && (msStream || !(Contains(userAgent, "iPad") || Contains(userAgent, "iPhone") || Contains(userAgent, "iPod")))
  {
    if ContainsIgnoreCase(userAgent, "windows phone") then "Windows Phone"
    else if ContainsIgnoreCase(userAgent, "android") then "Android"
    else if (Contains(userAgent, "iPad") || Contains(userAgent, "iPhone") || Contains(userAgent, "iPod")) && !msStream then "iOS"
    else "unknown"
  }

  /** A Windows Phone agent that also names Android is Windows Phone. */
  lemma WindowsPhoneFirst(prefix: string, suffix: string)
    ensures MobileOs(prefix + "Windows Phone 10.0; Android 6.0" + suffix, false) == "Windows Phone"
  {
    var ua := prefix + "Windows Phone 10.0; Android 6.0" + suffix;
    var lower := ToLower(ua);
    var n := |prefix|;
    assert ua[n..n + 13] == "Windows Phone";
    assert ToLower("Windows Phone") == "windows phone";
    assert lower[n..n + 13] == ToLower(ua[n..n + 13]);
    assert OccursAt(lower, "windows phone", n);
  }

  /** The Apple test is case-sensitive: `ipad` is not `iPad`. */
  lemma AppleTestCaseSensitive()
    ensures MobileOs("ipad", false) == "unknown"
    ensures MobileOs("iPad", false) == "iOS"
    ensures MobileOs("iPad", true) == "unknown"
  {
    assert OccursAt("iPad", "iPad", 0);
    assert !ContainsIgnoreCase("iPad", "android") && !ContainsIgnoreCase("iPad", "windows phone");
    assert !ContainsIgnoreCase("ipad", "android") && !ContainsIgnoreCase("ipad", "windows phone");
    assert !Contains("ipad", "iPad") by {
      assert "ipad"[1] != "iPad"[1];
    }
  }
}
