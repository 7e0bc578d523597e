/**
 * JavaScript values as the booking handlers see them: parsed JSON request
 * bodies, query parameters and stored MongoDB documents.  The handlers lean
 * on JavaScript's coercions (`a || b`, `Number(x) || 0`, template literals),
 * so those coercions are spelled out here once and used everywhere else.
 */
module Js {

  datatype Option<T> = None | Some(value: T)

  /** A JSON-like JavaScript value.  Numbers are integral (prices, costs and
      counters in this system are whole amounts). */
  datatype Value =
    | Undefined
    | Null
    | Bool(b: bool)
    | Num(n: int)
    | Str(s: string)
    | Arr(items: seq<Value>)
    | Obj(props: map<string, Value>)

  /** An evaluation that either completes with a value or throws a TypeError,
      as reading a property of `null` or `undefined` does. */
  datatype Eval<T> = Ok(value: T) | TypeError

  /** A MongoDB document or a parsed JSON body: a property map. */
  type Record = map<string, Value>

  /** JavaScript truthiness: `undefined`, `null`, `false`, `0` and `""` are falsy. */
  predicate Truthy(v: Value) {
    match v
    case Undefined => false
    case Null => false
    case Bool(b) => b
    case Num(n) => n != 0
    case Str(s) => s != ""
    case Arr(_) => true
    case Obj(_) => true
  }

  /** `a || b` */
  function Or(a: Value, b: Value): Value {
    if Truthy(a) then a else b
  }

  predicate Nullish(v: Value) {
    v.Undefined? || v.Null?
  }

  /** `r.k` on a record: a missing key reads as `undefined`. */
  function Field(r: Record, k: string): Value {
    if k in r then r[k] else Undefined
  }

  /** `v.k` for a property name that is not built in (not `length` and the
      like): objects answer from their own properties, other non-nullish
      values answer `undefined`, and `null`/`undefined` throw. */
  function Get(v: Value, k: string): (r: Eval<Value>)
    ensures r.TypeError? <==> Nullish(v)
  {
    match v
    case Undefined => TypeError
    case Null => TypeError
    case Obj(props) => Ok(Field(props, k))
    case _ => Ok(Undefined)
  }

  /** `v.k` where `v` is known not to be nullish. */
  function Prop(v: Value, k: string): Value {
    if v.Obj? then Field(v.props, k) else Undefined
  }

  /** `Array.isArray(v)` */
  predicate IsArray(v: Value) {
    v.Arr?
  }

  /** `typeof v === 'object'` (true for `null` as well). */
  predicate TypeofObject(v: Value) {
    v.Null? || v.Arr? || v.Obj?
  }

  // ---------------------------------------------------------------------
  // Decimal digits

  predicate IsDigit(c: char) {
    '0' <= c <= '9'
  }

  predicate AllDigits(s: string) {
    forall i :: 0 <= i < |s| ==> IsDigit(s[i])
  }

  function DigitChar(d: nat): char
    requires d < 10
  {
    "0123456789"[d]
  }

  function DigitValue(c: char): nat
    requires IsDigit(c)
  {
    (c as int - '0' as int) as nat
  }

  /** The decimal rendering of a natural number, as `String(n)` gives it. */
  function NatToString(n: nat): string
    decreases n
  {
    (if n < 10 then "" else NatToString(n / 10)) + [DigitChar(n % 10)]
  }

  /** `String(n)` for an integer. */
  function IntToString(n: int): string {
    if n < 0 then "-" + NatToString(-n) else NatToString(n)
  }

  /** The number a string of decimal digits denotes (leading zeros allowed). */
  function DigitsValue(s: string): nat
    requires AllDigits(s)
    decreases |s|
  {
    if s == "" then 0 else DigitsValue(s[..|s| - 1]) * 10 + DigitValue(s[|s| - 1])
  }

  function Pow10(k: nat): nat {
    if k == 0 then 1 else 10 * Pow10(k - 1)
  }

  /** `String(n)` is all digits, has no leading zero, and reads back as `n`. */
  lemma {:induction false} NatToStringRoundTrip(n: nat)
    ensures AllDigits(NatToString(n))
    ensures NatToString(n) != ""
    ensures NatToString(n)[0] != '0' || n == 0
    ensures DigitsValue(NatToString(n)) == n
    decreases n
  {
    var s := NatToString(n);
    var d := DigitChar(n % 10);
    if n < 10 {
      assert s == [d];
      assert s[..0] == "";
    } else {
      NatToStringRoundTrip(n / 10);
      var p := NatToString(n / 10);
      assert s == p + [d];
      assert s[..|s| - 1] == p;
      assert s[0] == p[0];
    }
  }

  /** A number with exactly `k` digits renders as exactly `k` characters. */
  lemma {:induction false} NatToStringLength(n: nat, k: nat)
    requires 1 <= k
    requires Pow10(k - 1) <= n < Pow10(k)
    ensures |NatToString(n)| == k
    decreases k
  {
    if k > 1 {
      assert Pow10(k - 2) <= n / 10 < Pow10(k - 1);
      NatToStringLength(n / 10, k - 1);
    } else {
      assert n < 10;
    }
  }

  /** `IsDecimalLiteral(s)`: an optional sign followed by one or more digits,
      which is the integral subset of what `Number(s)` accepts. */
  predicate IsDecimalLiteral(s: string) {
    if |s| > 0 && (s[0] == '-' || s[0] == '+') then s[1..] != "" && AllDigits(s[1..])
    else s != "" && AllDigits(s)
  }

  function ParseDecimal(s: string): int
    requires IsDecimalLiteral(s)
  {
    if |s| > 0 && s[0] == '-' then -(DigitsValue(s[1..]) as int)
    else if |s| > 0 && s[0] == '+' then DigitsValue(s[1..])
    else DigitsValue(s)
  }

  /** `Number(v)`; `None` stands for `NaN` (and for every value the model does
      not read as an integer). */
  function ToNumber(v: Value): Option<int> {
    match v
    case Undefined => None
    case Null => Some(0)
    case Bool(b) => Some(if b then 1 else 0)
    case Num(n) => Some(n)
    case Str(s) => if s == "" then Some(0) else if IsDecimalLiteral(s) then Some(ParseDecimal(s)) else None
    case Arr(_) => None
    case Obj(_) => None
  }

  /** `Number(v) || 0`: `NaN` falls back to 0. */
  function NumberOr0(v: Value): (r: int)
    ensures v.Num? ==> r == v.n
    ensures v.Str? && IsDecimalLiteral(v.s) ==> r == ParseDecimal(v.s)
    ensures v.Str? && v.s != "" && !IsDecimalLiteral(v.s) ==> r == 0
    ensures !Truthy(v) ==> r == 0
    ensures v.Obj? ==> r == 0
  {
    match ToNumber(v)
    case Some(n) => n
    case None => 0
  }

  // ---------------------------------------------------------------------
  // Strings

  /** `String(v)`, also what a template literal `${v}` produces. */
  function ToStr(v: Value): string
    decreases v
  {
    match v
    case Undefined => "undefined"
    case Null => "null"
    case Bool(b) => if b then "true" else "false"
    case Num(n) => IntToString(n)
    case Str(s) => s
    case Arr(items) =>
      Join(seq(|items|, i requires 0 <= i < |items| => if Nullish(items[i]) then "" else ToStr(items[i])), ',')
    case Obj(_) => "[object Object]"
  }

  /** `parts.join(sep)` */
  function Join(parts: seq<string>, sep: char): string
    decreases |parts|
  {
    if |parts| == 0 then ""
    else if |parts| == 1 then parts[0]
    else parts[0] + [sep] + Join(parts[1..], sep)
  }

  /** `s.split(sep)` for a one-character separator. */
  function Split(s: string, sep: char): (r: seq<string>)
    ensures |r| >= 1
    decreases |s|
  {
    if s == "" then [""]
    else
      var rest := Split(s[1..], sep);
      if s[0] == sep then [""] + rest
      else [[s[0]] + rest[0]] + rest[1..]
  }

  /** Splitting and joining again gives back the original string, and no
      piece contains the separator. */
  lemma {:induction false} SplitJoin(s: string, sep: char)
    ensures Join(Split(s, sep), sep) == s
    ensures forall i :: 0 <= i < |Split(s, sep)| ==> sep !in Split(s, sep)[i]
    decreases |s|
  {
    if s != "" {
      SplitJoin(s[1..], sep);
      var rest := Split(s[1..], sep);
      if s[0] == sep {
        assert Split(s, sep) == [""] + rest;
        assert Join([""] + rest, sep) == "" + [sep] + Join(rest, sep);
        assert s == [s[0]] + s[1..];
      } else {
        var r := Split(s, sep);
        assert r == [[s[0]] + rest[0]] + rest[1..];
        if |rest| == 1 {
          assert Join(r, sep) == [s[0]] + rest[0];
          assert s == [s[0]] + s[1..];
        } else {
          assert Join(rest, sep) == rest[0] + [sep] + Join(rest[1..], sep);
          assert r[1..] == rest[1..];
          assert Join(r, sep) == ([s[0]] + rest[0]) + [sep] + Join(rest[1..], sep);
          assert s == [s[0]] + s[1..];
        }
        forall i | 0 <= i < |r| ensures sep !in r[i] {
          if i > 0 { assert r[i] == rest[i]; }
        }
      }
    }
  }

  /** A piece without the separator, then the separator: the piece comes
      out whole and splitting goes on after it. */
  lemma {:induction false} SplitAfterPiece(w: string, rest: string, sep: char)
    requires sep !in w
    ensures Split(w + [sep] + rest, sep) == [w] + Split(rest, sep)
    decreases |w|
  {
    if w == "" {
      assert w + [sep] + rest == [sep] + rest;
      assert ([sep] + rest)[1..] == rest;
    } else {
      SplitAfterPiece(w[1..], rest, sep);
      assert (w + [sep] + rest)[1..] == w[1..] + [sep] + rest;
      assert [w[0]] + w[1..] == w;
    }
  }

  /** A string without the separator splits into itself alone. */
  lemma {:induction false} SplitWithoutSeparator(t: string, sep: char)
    requires sep !in t
    ensures Split(t, sep) == [t]
    decreases |t|
  {
    if t != "" {
      SplitWithoutSeparator(t[1..], sep);
      assert [t[0]] + t[1..] == t;
    }
  }

  /** `s.substring(a, b)`: both ends clamped to the string, swapped if reversed. */
  function Substring(s: string, a: int, b: int): (r: string)
    ensures |r| <= |s|
  {
    var x := if a < 0 then 0 else if a > |s| then |s| else a;
    var y := if b < 0 then 0 else if b > |s| then |s| else b;
    if x <= y then s[x..y] else s[y..x]
  }

  function UpperChar(c: char): char {
    if 'a' <= c <= 'z' then (c as int - 32) as char else c
  }

  function LowerChar(c: char): char {
    if 'A' <= c <= 'Z' then (c as int + 32) as char else c
  }

  /** `s.toUpperCase()` on ASCII letters. */
  function ToUpper(s: string): (r: string)
    ensures |r| == |s|
    ensures forall i :: 0 <= i < |s| ==> r[i] == UpperChar(s[i])
  {
    seq(|s|, i requires 0 <= i < |s| => UpperChar(s[i]))
  }

  /** `s.toLowerCase()` on ASCII letters. */
  function ToLower(s: string): (r: string)
    ensures |r| == |s|
    ensures forall i :: 0 <= i < |s| ==> r[i] == LowerChar(s[i])
  {
    seq(|s|, i requires 0 <= i < |s| => LowerChar(s[i]))
  }

  /** Case-insensitive equality, the model of a `^id$` regular expression
      with the `i` flag. */
  predicate EqualsIgnoreCase(a: string, b: string) {
    ToLower(a) == ToLower(b)
  }

  predicate StartsWith(s: string, prefix: string) {
    |prefix| <= |s| && s[..|prefix|] == prefix
  }

  /** `s.includes(t)` / a regular expression that is a plain word. */
  predicate Contains(s: string, t: string) {
    exists i :: 0 <= i <= |s| - |t| && OccursAt(s, t, i)
  }

  predicate OccursAt(s: string, t: string, i: int) {
    0 <= i <= |s| - |t| && s[i..i + |t|] == t
  }

  predicate IsSpace(c: char) {
    c == ' ' || c == '\t' || c == '\n' || c == '\r'
  }

  /** `s.trim()` on ASCII white space: the longest slice of `s` that neither
      starts nor ends with white space. */
  function Trim(s: string): string
    decreases |s|
  {
    if s == "" then s
    else if IsSpace(s[0]) then Trim(s[1..])
    else if IsSpace(s[|s| - 1]) then Trim(s[..|s| - 1])
    else s
  }

  /** The trimmed string has no white space at either end, and a string
      without such white space is its own trim. */
  lemma {:induction false} TrimEnds(s: string)
    ensures |Trim(s)| <= |s|
    ensures Trim(s) == "" || (!IsSpace(Trim(s)[0]) && !IsSpace(Trim(s)[|Trim(s)| - 1]))
    ensures s == "" || (!IsSpace(s[0]) && !IsSpace(s[|s| - 1])) ==> Trim(s) == s
    decreases |s|
  {
    if s != "" && IsSpace(s[0]) {
      TrimEnds(s[1..]);
    } else if s != "" && IsSpace(s[|s| - 1]) {
      TrimEnds(s[..|s| - 1]);
    }
  }

  /** The trimmed string is a slice of the original. */
  lemma {:induction false} TrimOccurs(s: string)
    ensures exists i :: OccursAt(s, Trim(s), i)
    decreases |s|
  {
    var r := Trim(s);
    if s == "" {
      assert OccursAt(s, r, 0);
    } else if IsSpace(s[0]) {
      var t := s[1..];
      TrimOccurs(t);
      assert r == Trim(t);
      var i :| OccursAt(t, r, i);
      assert s[i + 1..i + 1 + |r|] == t[i..i + |r|];
      assert OccursAt(s, r, i + 1);
    } else if IsSpace(s[|s| - 1]) {
      var t := s[..|s| - 1];
      TrimOccurs(t);
      assert r == Trim(t);
      var i :| OccursAt(t, r, i);
      assert s[i..i + |r|] == t[i..i + |r|];
      assert OccursAt(s, r, i);
    } else {
      assert OccursAt(s, s, 0);
    }
  }

  /** `s` without its leading white space. */
  function TrimStart(s: string): (r: string)
    ensures |r| <= |s| && r == s[|s| - |r|..]
    ensures r == "" || !IsSpace(r[0])
    decreases |s|
  {
    if s != "" && IsSpace(s[0]) then TrimStart(s[1..]) else s
  }

  /** The leading run of decimal digits of `s`. */
  function DigitPrefix(s: string): (r: string)
    ensures AllDigits(r) && |r| <= |s| && s[..|r|] == r
    ensures |r| < |s| ==> !IsDigit(s[|r|])
    decreases |s|
  {
    if s != "" && IsDigit(s[0]) then [s[0]] + DigitPrefix(s[1..]) else ""
  }

  /** `parseInt(s, 10)`: leading white space, an optional sign, then the
      leading digits; `None` (`NaN`) when there are no digits. */
  function ParseInt(s: string): Option<int> {
    var t := TrimStart(s);
    var unsigned := if t != "" && (t[0] == '-' || t[0] == '+') then t[1..] else t;
    var digits := DigitPrefix(unsigned);
    if digits == "" then None
    else if t != "" && t[0] == '-' then Some(-(DigitsValue(digits) as int))
    else Some(DigitsValue(digits))
  }

  lemma {:induction false} DigitPrefixOfDigits(s: string)
    requires AllDigits(s)
    ensures DigitPrefix(s) == s
    decreases |s|
  {
    if s != "" {
      DigitPrefixOfDigits(s[1..]);
    }
  }

  /** `parseInt(String(n), 10) == n` */
  lemma ParseIntRoundTrip(n: nat)
    ensures ParseInt(NatToString(n)) == Some(n)
  {
    NatToStringRoundTrip(n);
    ParseIntOfDigits(NatToString(n));
  }

  /** A non-empty run of digits parses to its value. */
  lemma ParseIntOfDigits(s: string)
    requires s != "" && AllDigits(s)
    ensures ParseInt(s) == Some(DigitsValue(s))
  {
    assert IsDigit(s[0]);
    assert !IsSpace(s[0]) && s[0] != '-' && s[0] != '+';
    assert TrimStart(s) == s;
    DigitPrefixOfDigits(s);
  }

  /** `s.padStart(2, '0')` */
  function PadStart2(s: string): (r: string)
    ensures |s| >= 2 ==> r == s
    ensures |s| < 2 ==> |r| == 2 && r[2 - |s|..] == s
  {
    if |s| >= 2 then s else seq(2 - |s|, _ => '0') + s
  }
}
