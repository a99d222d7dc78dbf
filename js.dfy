/** The pieces of JavaScript value semantics the dashboard relies on:
    numbers with NaN and infinities, parsed JSON bodies, truthiness,
    `String.prototype.trim`, `toLowerCase`, `includes`, `parseInt`,
    integer-to-decimal conversion and the 8-4-4-4-12 UUID pattern. */
module Js {
  import opened Wrappers

  // ---------------------------------------------------------------------
  // Numbers

  /** A JavaScript number. Finite values are exact reals here: rounding to
      IEEE-754 doubles is not modelled. */
  datatype JsNumber = Finite(value: real) | PosInfinity | NegInfinity | NaN

  /** `n > 0` */
  predicate IsPositive(n: JsNumber) {
    (n.Finite? && n.value > 0.0) || n.PosInfinity?
  }

  /** `n < 0` */
  predicate IsNegative(n: JsNumber) {
    (n.Finite? && n.value < 0.0) || n.NegInfinity?
  }

  /** `a === b` on numbers: NaN equals nothing, not even itself. */
  predicate StrictEquals(a: JsNumber, b: JsNumber) {
    !a.NaN? && a == b
  }

  /** A `Date`: either a time value in milliseconds or an Invalid Date
      (whose `getTime()` is NaN). */
  datatype JsDate = TimeValue(ms: int) | InvalidDate

  function Max(a: int, b: int): int { if a < b then b else a }
  function Min(a: int, b: int): int { if a < b then a else b }

  /** `s.slice(start, end)`: a negative bound counts from the end, and both
      bounds are clamped to the sequence. */
  function Slice<T>(s: seq<T>, start: int, end: int): (r: seq<T>)
    ensures var from := if start < 0 then Max(|s| + start, 0) else Min(start, |s|);
      var to := if end < 0 then Max(|s| + end, 0) else Min(end, |s|);
      |r| == Max(to - from, 0) &&
      forall k :: 0 <= k < |r| ==> r[k] == s[from + k]
  {
    var from := if start < 0 then Max(|s| + start, 0) else Min(start, |s|);
    var to := if end < 0 then Max(|s| + end, 0) else Min(end, |s|);
    if from < to then s[from..to] else []
  }

  // ---------------------------------------------------------------------
  // JSON bodies

  /** A parsed response body. An object lists its properties in the order
      `Object.keys` enumerates them; an absent property is `None`. */
  datatype Json =
    | JNull
    | JBool(b: bool)
    | JNum(n: JsNumber)
    | JStr(s: string)
    | JArr(items: seq<Json>)
    | JObj(fields: seq<(string, Json)>)

  /** The value of the first property named `key` in a field list. */
  function Lookup(fields: seq<(string, Json)>, key: string): (r: Option<Json>)
    ensures r.Some? <==> exists i :: 0 <= i < |fields| && fields[i].0 == key
    ensures r.Some? ==> exists i :: 0 <= i < |fields| && fields[i] == (key, r.value)
  {
    if fields == [] then None
    else if fields[0].0 == key then Some(fields[0].1)
    else
      var r := Lookup(fields[1..], key);
      assert forall i :: 1 <= i < |fields| ==> fields[i] == fields[1..][i - 1];
      r
  }

  /** Property access `v.key` on a value that is not null or undefined;
      only objects have the properties this dashboard reads. */
  function Get(v: Json, key: string): Option<Json> {
    if v.JObj? then Lookup(v.fields, key) else None
  }

  /** JavaScript truthiness of a possibly undefined value. */
  predicate Truthy(v: Option<Json>) {
    match v
    case None => false
    case Some(JNull) => false
    case Some(JBool(b)) => b
    case Some(JNum(n)) => !(n.NaN? || (n.Finite? && n.value == 0.0))
    case Some(JStr(s)) => s != ""
    case Some(_) => true
  }

  /** `Array.isArray(v)` */
  predicate IsArray(v: Option<Json>) {
    v.Some? && v.value.JArr?
  }

  // ---------------------------------------------------------------------
  // Strings

  /** The characters JavaScript's `\s` class and `String.prototype.trim`
      treat as white space: WhiteSpace and LineTerminator of ECMA-262. */
  predicate IsSpace(c: char) {
    var k := c as int;
    (9 <= k <= 13) || k == 0x20 || k == 0xA0 || k == 0x1680
    || (0x2000 <= k <= 0x200A) || k == 0x2028 || k == 0x2029
    || k == 0x202F || k == 0x205F || k == 0x3000 || k == 0xFEFF
  }

  function TrimStart(s: string): (r: string)
    ensures |r| <= |s| && r == s[|s| - |r|..]
    ensures r != [] ==> !IsSpace(r[0])
  {
    if s != [] && IsSpace(s[0]) then TrimStart(s[1..]) else s
  }

  function TrimEnd(s: string): (r: string)
    ensures |r| <= |s| && r == s[..|r|]
    ensures r != [] ==> !IsSpace(r[|r| - 1])
  {
    if s != [] && IsSpace(s[|s| - 1]) then TrimEnd(s[..|s| - 1]) else s
  }

  /** `s.trim()` */
  function Trim(s: string): string {
    TrimEnd(TrimStart(s))
  }

  predicate AllSpace(s: string) {
    forall i :: 0 <= i < |s| ==> IsSpace(s[i])
  }

  lemma {:induction false} TrimStartBlank(s: string)
    ensures TrimStart(s) == [] <==> AllSpace(s)
  {
    if s != [] && IsSpace(s[0]) {
      TrimStartBlank(s[1..]);
      assert forall i :: 1 <= i < |s| ==> s[i] == s[1..][i - 1];
    }
  }

  lemma {:induction false} TrimEndBlank(s: string)
    ensures TrimEnd(s) == [] <==> AllSpace(s)
  {
    if s != [] && IsSpace(s[|s| - 1]) {
      TrimEndBlank(s[..|s| - 1]);
      assert forall i :: 0 <= i < |s| - 1 ==> s[i] == s[..|s| - 1][i];
    }
  }

  /** A string trims to the empty string exactly when every character in it
      is white space. */
  lemma TrimEmptyIffBlank(s: string)
    ensures Trim(s) == [] <==> AllSpace(s)
  {
    TrimStartBlank(s);
    TrimEndBlank(TrimStart(s));
    var t := TrimStart(s);
    if t != [] {
      assert !IsSpace(t[0]);
    }
  }

  /** `c.toLowerCase()` on one character; only A-Z are folded here. */
  function LowerChar(c: char): char {
    if 'A' <= c <= 'Z' then (c as int + 32) as char else c
  }

  /** `s.toLowerCase()`, for ASCII letters. */
  function ToLower(s: string): (r: string)
    ensures |r| == |s|
    ensures forall i :: 0 <= i < |s| ==> r[i] == LowerChar(s[i])
  {
    seq(|s|, i requires 0 <= i < |s| => LowerChar(s[i]))
  }

  /** `s` contains `sub` starting at index `i`. */
  predicate OccursAt(s: string, sub: string, i: int) {
    0 <= i && i + |sub| <= |s| && s[i..i + |sub|] == sub
  }

  lemma OccursShift(s: string, sub: string, i: int)
    requires |s| > 0 && 0 <= i
    ensures OccursAt(s[1..], sub, i) <==> OccursAt(s, sub, i + 1)
  {
    if 0 <= i && i + |sub| <= |s| - 1 {
      assert s[1..][i..i + |sub|] == s[i + 1..i + 1 + |sub|];
    }
  }

  /** `s.includes(sub)` */
  function Includes(s: string, sub: string): (r: bool)
    ensures r <==> exists i :: OccursAt(s, sub, i)
    decreases |s|
  {
    if |s| < |sub| then false
    else if s[..|sub|] == sub then
      assert OccursAt(s, sub, 0);
      true
    else
      var r := Includes(s[1..], sub);
      assert !OccursAt(s, sub, 0);
      assert forall i {:trigger OccursAt(s[1..], sub, i)} :: OccursAt(s[1..], sub, i) ==> OccursAt(s, sub, i + 1) by {
        forall i | OccursAt(s[1..], sub, i) ensures OccursAt(s, sub, i + 1) { OccursShift(s, sub, i); }
      }
      assert forall i {:trigger OccursAt(s, sub, i)} :: OccursAt(s, sub, i) ==> OccursAt(s[1..], sub, i - 1) by {
        forall i | OccursAt(s, sub, i) ensures OccursAt(s[1..], sub, i - 1) { OccursShift(s, sub, i - 1); }
      }
      r
  }

  // ---------------------------------------------------------------------
  // UUID shape

  predicate IsHexDigit(c: char) {
    '0' <= c <= '9' || 'a' <= c <= 'f' || 'A' <= c <= 'F'
  }

  predicate IsDashPosition(i: int) {
    i == 8 || i == 13 || i == 18 || i == 23
  }

  /** The anchored, case-insensitive pattern
      `^[0-9a-f]{8}-[0-9a-f]{4}-[0-9a-f]{4}-[0-9a-f]{4}-[0-9a-f]{12}$`:
      the textual layout of a UUID (RFC 4122, section 3), without any check
      of the version or variant bits. */
  predicate IsUuid(s: string) {
    |s| == 36 &&
    forall i :: 0 <= i < 36 ==> if IsDashPosition(i) then s[i] == '-' else IsHexDigit(s[i])
  }

  predicate HexGroup(g: string, n: nat) {
    |g| == n && forall i :: 0 <= i < |g| ==> IsHexDigit(g[i])
  }

  /** Five hex groups of 8, 4, 4, 4 and 12 digits joined by dashes form a UUID. */
  lemma UuidFromGroups(a: string, b: string, c: string, d: string, e: string)
    requires HexGroup(a, 8) && HexGroup(b, 4) && HexGroup(c, 4) && HexGroup(d, 4) && HexGroup(e, 12)
    ensures IsUuid(a + "-" + b + "-" + c + "-" + d + "-" + e)
  {
    var s := a + "-" + b + "-" + c + "-" + d + "-" + e;
    forall i | 0 <= i < 36
      ensures if IsDashPosition(i) then s[i] == '-' else IsHexDigit(s[i])
    {
      if i < 8 { assert s[i] == a[i]; }
      else if 9 <= i < 13 { assert s[i] == b[i - 9]; }
      else if 14 <= i < 18 { assert s[i] == c[i - 14]; }
      else if 19 <= i < 23 { assert s[i] == d[i - 19]; }
      else if 24 <= i { assert s[i] == e[i - 24]; }
    }
  }

  /** Every UUID splits back into its five hex groups. */
  lemma UuidToGroups(s: string)
    requires IsUuid(s)
    ensures s == s[..8] + "-" + s[9..13] + "-" + s[14..18] + "-" + s[19..23] + "-" + s[24..]
    ensures HexGroup(s[..8], 8) && HexGroup(s[9..13], 4) && HexGroup(s[14..18], 4)
    ensures HexGroup(s[19..23], 4) && HexGroup(s[24..], 12)
  {
    assert !IsDashPosition(0);
    var t := s[..8] + "-" + s[9..13] + "-" + s[14..18] + "-" + s[19..23] + "-" + s[24..];
    assert |t| == 36;
    forall i | 0 <= i < 36 ensures t[i] == s[i] {
      if IsDashPosition(i) { assert s[i] == '-'; }
    }
    forall i | 0 <= i < 8 ensures IsHexDigit(s[..8][i]) { assert !IsDashPosition(i); }
    forall i | 0 <= i < 4 ensures IsHexDigit(s[9..13][i]) && IsHexDigit(s[14..18][i]) && IsHexDigit(s[19..23][i]) {
      assert !IsDashPosition(9 + i) && !IsDashPosition(14 + i) && !IsDashPosition(19 + i);
    }
    forall i | 0 <= i < 12 ensures IsHexDigit(s[24..][i]) { assert !IsDashPosition(24 + i); }
  }

  // ---------------------------------------------------------------------
  // Integers as decimal text

  function DigitChar(d: nat): char
    requires d < 10
  {
    "0123456789"[d]
  }

  predicate IsDecimalDigit(c: char) {
    '0' <= c <= '9'
  }

  /** The decimal text of a natural number, without leading zeros. */
  function NatToString(n: nat): (r: string)
    ensures |r| >= 1
    ensures forall i :: 0 <= i < |r| ==> IsDecimalDigit(r[i])
  {
    if n < 10 then [DigitChar(n)] else NatToString(n / 10) + [DigitChar(n % 10)]
  }

  /** `String(n)` / `n.toString()` for an integer. */
  function IntToString(n: int): (r: string)
    ensures |r| >= 1
    ensures forall i :: 0 <= i < |r| ==> IsDecimalDigit(r[i]) || r[i] == '-'
  {
    if n < 0 then "-" + NatToString(-n) else NatToString(n)
  }

  // ---------------------------------------------------------------------
  // parseInt

  /** The value of an alphanumeric character as a digit (36 for anything else). */
  function DigitValue(c: char): nat {
    if '0' <= c <= '9' then c as int - '0' as int
    else if 'a' <= c <= 'z' then c as int - 'a' as int + 10
    else if 'A' <= c <= 'Z' then c as int - 'A' as int + 10
    else 36
  }

  /** The longest prefix of `s` made of digits of the given radix. */
  function DigitPrefix(s: string, radix: nat): (r: string)
    ensures |r| <= |s| && r == s[..|r|]
    ensures forall i :: 0 <= i < |r| ==> DigitValue(r[i]) < radix
    ensures |r| < |s| ==> DigitValue(s[|r|]) >= radix
  {
    if s == [] || DigitValue(s[0]) >= radix then []
    else [s[0]] + DigitPrefix(s[1..], radix)
  }

  /** The number a digit string denotes in the given radix. */
  function DigitsValue(z: string, radix: nat): nat {
    if z == [] then 0
    else DigitsValue(z[..|z| - 1], radix) * radix + DigitValue(z[|z| - 1])
  }

  /** The digits after the sign: a `0x`/`0X` prefix selects radix 16, and
      the longest run of digits of the radix is read; none gives `None`. */
  function ParseUnsigned(u: string): Option<nat> {
    var hex := |u| >= 2 && u[0] == '0' && (u[1] == 'x' || u[1] == 'X');
    var radix := if hex then 16 else 10;
    var z := DigitPrefix(if hex then u[2..] else u, radix);
    if z == [] then None else Some(DigitsValue(z, radix))
  }

  /** `parseInt(s)` with no radix argument: leading white space is skipped,
      one sign is accepted, then the digits are read as above; no digits
      gives NaN (`None`). */
  function ParseInt(s: string): Option<int> {
    var t := TrimStart(s);
    var negative := |t| > 0 && t[0] == '-';
    var unsigned := if |t| > 0 && (t[0] == '-' || t[0] == '+') then t[1..] else t;
    match ParseUnsigned(unsigned)
    case None => None
    case Some(v) => var w: int := v; Some(if negative then -w else w)
  }

  lemma {:induction false} NatToStringValue(n: nat)
    ensures DigitsValue(NatToString(n), 10) == n
  {
    if n >= 10 {
      NatToStringValue(n / 10);
      var s := NatToString(n);
      assert s[..|s| - 1] == NatToString(n / 10);
    }
  }

  lemma {:induction false} WholeDigitPrefix(s: string, radix: nat)
    requires forall i :: 0 <= i < |s| ==> DigitValue(s[i]) < radix
    ensures DigitPrefix(s, radix) == s
  {
    if s != [] {
      WholeDigitPrefix(s[1..], radix);
    }
  }

  /** Reading an unsigned digit string back: what `parseInt` does after the sign. */
  lemma ParseDigits(digits: string, m: nat)
    requires digits == NatToString(m)
    ensures ParseUnsigned(digits) == Some(m)
  {
    NatToStringValue(m);
    WholeDigitPrefix(digits, 10);
    if |digits| >= 2 {
      assert IsDecimalDigit(digits[1]);
    }
  }

  /** A string that starts with a sign or a digit is untouched by `TrimStart`. */
  lemma NoLeadingSpace(s: string)
    requires s != [] && (s[0] == '-' || IsDecimalDigit(s[0]))
    ensures TrimStart(s) == s
  {
    assert !IsSpace(s[0]);
  }

  /** `parseInt(String(n)) === n` for every integer. */
  lemma ParseIntOfIntToString(n: int)
    ensures ParseInt(IntToString(n)) == Some(n)
  {
    var m: nat := if n < 0 then -n else n;
    var digits := NatToString(m);
    ParseDigits(digits, m);
    var s := IntToString(n);
    if n < 0 {
      assert s == "-" + digits;
      NoLeadingSpace(s);
      assert s[1..] == digits;
    } else {
      assert s == digits;
      NoLeadingSpace(s);
    }
  }
}
