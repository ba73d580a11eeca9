/**
 * The slice of PHP's value semantics that the updater library relies on:
 * dynamically typed values, `empty()`, `isset()`, the string and integer
 * casts, `is_numeric()` and `trim()`.
 *
 * PHP arrays are modelled as maps with string keys; the order of their
 * entries and the int/string distinction between keys are not modelled.
 */
module Php {

  datatype Option<T> = None | Some(value: T)

  /** A PHP value as the library handles it. */
  datatype Value =
    | Null
    | Bool(b: bool)
    | Int(i: int)
    | Str(s: string)
    | Arr(entries: map<string, Value>)

  /** PHP's `empty()`: null, false, 0, "", "0" and the empty array. */
  predicate Empty(v: Value) {
    match v
    case Null => true
    case Bool(b) => !b
    case Int(i) => i == 0
    case Str(s) => s == "" || s == "0"
    case Arr(m) => m == map[]
  }

  /** PHP's `(bool)` cast, which is exactly the negation of `empty()`. */
  predicate Truthy(v: Value) {
    !Empty(v)
  }

  /** PHP's `isset($m[$k])`: the key is present and its value is not null. */
  predicate IsSet(m: map<string, Value>, k: string) {
    k in m && m[k] != Null
  }

  /** Reading `$v[$k]`: the entry when `v` is an array holding `k`, otherwise null. */
  function Lookup(v: Value, k: string): Value {
    if v.Arr? && k in v.entries then v.entries[k] else Null
  }

  /** `isset($v[$k1][$k2]) ? $v[$k1][$k2] : <none>`. */
  function Dig(v: Value, k1: string, k2: string): (r: Option<Value>)
    ensures r.Some? ==> r.value != Null
  {
    var inner := Lookup(v, k1);
    if inner.Arr? && IsSet(inner.entries, k2) then Some(inner.entries[k2]) else None
  }

  /** `$v[$k1][$k2] ?? $default`, as the `isset(...) ? ... : default` idiom of the source. */
  function DigOr(v: Value, k1: string, k2: string, default: Value): Value {
    match Dig(v, k1, k2)
    case Some(x) => x
    case None => default
  }

  /** PHP's loose comparison `$v == $s` against a non-empty, non-numeric string
      literal, as `in_array` without its strict flag performs it (PHP 8 rules). */
  predicate LooseEqualsWord(v: Value, s: string)
    requires s != "" && !NumericString(s)
  {
    match v
    case Null => false
    case Bool(b) => b
    case Int(_) => false
    case Str(t) => t == s
    case Arr(_) => false
  }

  // ---------------------------------------------------------------------
  // Digits and decimal strings

  predicate IsDigit(c: char) {
    '0' <= c <= '9'
  }

  predicate AllDigits(s: string) {
    forall k :: 0 <= k < |s| ==> IsDigit(s[k])
  }

  function DigitChar(d: nat): (c: char)
    requires d < 10
    ensures IsDigit(c) && (c as int) - ('0' as int) == d
  {
    (('0' as int) + d) as char
  }

  function DigitValue(c: char): nat
    requires IsDigit(c)
  {
    (c as int) - ('0' as int)
  }

  /** The value of a string of decimal digits, most significant first. */
  function DigitsValue(s: string): nat
    requires AllDigits(s)
  {
    if s == [] then 0 else 10 * DigitsValue(s[..|s| - 1]) + DigitValue(s[|s| - 1])
  }

  /** Decimal rendering of a natural number, as `sprintf('%s', $n)` prints it. */
  function NatToString(n: nat): (r: string)
    ensures r != [] && AllDigits(r)
    decreases n
  {
    if n < 10 then [DigitChar(n)] else NatToString(n / 10) + [DigitChar(n % 10)]
  }

  function IntToString(i: int): string {
    if i < 0 then "-" + NatToString(-i) else NatToString(i)
  }

  /** The longest prefix of `s` made of digits. */
  function DigitPrefix(s: string): (r: string)
    ensures r <= s && AllDigits(r)
    ensures |r| < |s| ==> !IsDigit(s[|r|])
  {
    if s != [] && IsDigit(s[0]) then [s[0]] + DigitPrefix(s[1..]) else []
  }

  // ---------------------------------------------------------------------
  // Casts

  /** The whitespace that PHP skips before the digits of an integer-leading string. */
  predicate IsLeadingSpace(c: char) {
    c == ' ' || c == '\t' || c == '\n' || c == '\r' || c == '\U{0B}' || c == '\U{0C}'
  }

  function SkipLeadingSpace(s: string): (r: string)
    ensures |r| <= |s| && r == s[|s| - |r|..]
    ensures r != [] ==> !IsLeadingSpace(r[0])
  {
    if s != [] && IsLeadingSpace(s[0]) then SkipLeadingSpace(s[1..]) else s
  }

  /** `(int) $s` for a string: optional leading whitespace, an optional sign
      and the longest run of digits; 0 when there are no digits. */
  function LeadingInt(s: string): int {
    var t := SkipLeadingSpace(s);
    if t != [] && t[0] == '-' then 0 - (DigitsValue(DigitPrefix(t[1..])) as int)
    else if t != [] && t[0] == '+' then DigitsValue(DigitPrefix(t[1..]))
    else DigitsValue(DigitPrefix(t))
  }

  /** PHP's `(int)` cast and `intval()`. */
  function IntCast(v: Value): int {
    match v
    case Null => 0
    case Bool(b) => if b then 1 else 0
    case Int(i) => i
    case Str(s) => LeadingInt(s)
    case Arr(m) => if m == map[] then 0 else 1
  }

  /** Whether `s` is a numeric string in the restricted grammar
      `[+-]? digits ('.' digits*)?  |  [+-]? '.' digits`. */
  predicate NumericString(s: string) {
    var t := if s != [] && (s[0] == '+' || s[0] == '-') then s[1..] else s;
    var whole := DigitPrefix(t);
    var rest := t[|whole|..];
    (rest == [] && whole != [])
    || (rest != [] && rest[0] == '.' && AllDigits(rest[1..]) && (whole != [] || |rest| > 1))
  }

  /** A string that starts with a letter is not numeric. */
  lemma LetterLedIsNotNumeric(s: string)
    requires s != [] && 'a' <= s[0] <= 'z'
    ensures !NumericString(s)
  {
  }

  /** PHP's `is_numeric()`. */
  predicate IsNumeric(v: Value) {
    match v
    case Int(_) => true
    case Str(s) => NumericString(s)
    case _ => false
  }

  /** PHP's string conversion, as `sprintf('%s', ...)` and `.` apply it. */
  function ToStr(v: Value): string {
    match v
    case Null => ""
    case Bool(b) => if b then "1" else ""
    case Int(i) => IntToString(i)
    case Str(s) => s
    case Arr(_) => "Array"
  }

  /** The key an array uses for `$arr[$v]`, for scalar `v`. */
  function ArrayKey(v: Value): string {
    match v
    case Bool(b) => if b then "1" else "0"
    case _ => ToStr(v)
  }

  lemma {:induction false} DigitsOfNatToString(n: nat)
    ensures DigitsValue(NatToString(n)) == n
    decreases n
  {
    if n >= 10 {
      var s := NatToString(n);
      assert s[..|s| - 1] == NatToString(n / 10);
      DigitsOfNatToString(n / 10);
    }
  }

  lemma {:induction false} DigitPrefixOfDigits(s: string)
    requires AllDigits(s)
    ensures DigitPrefix(s) == s
  {
    if s != [] {
      DigitPrefixOfDigits(s[1..]);
    }
  }

  /** A non-empty run of digits is a numeric string. */
  lemma DigitsAreNumeric(d: string)
    requires d != [] && AllDigits(d)
    ensures NumericString(d)
  {
    DigitPrefixOfDigits(d);
    assert IsDigit(d[0]);
    assert d[|d|..] == [];
  }

  /** The leading integer of a non-empty run of digits is its value. */
  lemma LeadingIntOfDigits(d: string)
    requires d != [] && AllDigits(d)
    ensures LeadingInt(d) == DigitsValue(d)
  {
    assert IsDigit(d[0]) && !IsLeadingSpace(d[0]);
    var t := SkipLeadingSpace(d);
    assert t == d;
    assert t[0] != '-' && t[0] != '+';
    DigitPrefixOfDigits(t);
  }

  /** A decimal rendering of a natural number is a numeric string whose leading
      integer is the number. */
  lemma NatToStringRoundTrip(n: nat)
    ensures NumericString(NatToString(n))
    ensures LeadingInt(NatToString(n)) == n
  {
    DigitsAreNumeric(NatToString(n));
    LeadingIntOfDigits(NatToString(n));
    DigitsOfNatToString(n);
  }

  /** The same for a minus sign before the digits. */
  lemma NegativeRoundTrip(n: nat)
    requires n > 0
    ensures NumericString("-" + NatToString(n))
    ensures LeadingInt("-" + NatToString(n)) == -(n as int)
  {
    var d := NatToString(n);
    var s := "-" + d;
    DigitPrefixOfDigits(d);
    DigitsOfNatToString(n);
    assert s[1..] == d;
    assert SkipLeadingSpace(s) == s;
  }

  /** The decimal rendering of an integer is a numeric string that casts back
      to the same integer: an integer written into a configuration argument as
      a string is read back unchanged. */
  lemma IntToStringRoundTrip(i: int)
    ensures NumericString(IntToString(i))
    ensures LeadingInt(IntToString(i)) == i
  {
    if i < 0 {
      NegativeRoundTrip(-i);
    } else {
      NatToStringRoundTrip(i);
    }
  }

  /** A strict comparison `(int) $s === $k` with an integer `k` succeeds for its decimal rendering. */
  lemma IntCastOfRendering(i: int)
    ensures IntCast(Str(IntToString(i))) == i
  {
    IntToStringRoundTrip(i);
  }

  // ---------------------------------------------------------------------
  // strlen()

  /** An ASCII character, one byte in UTF-8. */
  predicate IsAscii(c: char) {
    c < '\U{80}'
  }

  /** The number of bytes `c` takes in UTF-8. */
  function Utf8Width(c: char): (n: nat)
    ensures 1 <= n <= 4
    ensures n == 1 <==> IsAscii(c)
  {
    if c < '\U{80}' then 1 else if c < '\U{800}' then 2 else if c < '\U{10000}' then 3 else 4
  }

  /** PHP's `strlen()`: the length in bytes of the string's UTF-8 encoding. */
  function ByteLength(s: string): (n: nat)
    ensures n >= |s|
  {
    if s == [] then 0 else Utf8Width(s[0]) + ByteLength(s[1..])
  }

  /** A string's byte length is its number of characters exactly when they
      are all ASCII. */
  lemma {:induction false} ByteLengthOfAscii(s: string)
    ensures ByteLength(s) == |s| <==> forall k :: 0 <= k < |s| ==> IsAscii(s[k])
  {
    if s != [] {
      ByteLengthOfAscii(s[1..]);
      assert forall k :: 1 <= k < |s| ==> s[1..][k - 1] == s[k];
    }
  }

  // ---------------------------------------------------------------------
  // trim()

  /** The characters PHP's `trim()` strips by default: " \t\n\r\0\x0B". */
  predicate IsTrimmed(c: char) {
    c == ' ' || c == '\t' || c == '\n' || c == '\r' || c == '\0' || c == '\U{0B}'
  }

  function TrimStart(s: string): (r: string)
    ensures |r| <= |s| && r == s[|s| - |r|..]
    ensures forall k :: 0 <= k < |s| - |r| ==> IsTrimmed(s[k])
    ensures r != [] ==> !IsTrimmed(r[0])
  {
    if s != [] && IsTrimmed(s[0]) then TrimStart(s[1..]) else s
  }

  function TrimEnd(s: string): (r: string)
    ensures r <= s
    ensures forall k :: |r| <= k < |s| ==> IsTrimmed(s[k])
    ensures r != [] ==> !IsTrimmed(r[|r| - 1])
  {
    if s != [] && IsTrimmed(s[|s| - 1]) then TrimEnd(s[..|s| - 1]) else s
  }

  /** PHP's `trim()`. */
  function Trim(s: string): string {
    TrimEnd(TrimStart(s))
  }

  /** What `trim()` returns: a contiguous piece of its input, with only
      trimmable characters cut on either side, and none left at its ends. */
  lemma TrimSpec(s: string)
    ensures var r := Trim(s); var i := |s| - |TrimStart(s)|;
      && i + |r| <= |s|
      && r == s[i..i + |r|]
      && (forall k :: 0 <= k < i ==> IsTrimmed(s[k]))
      && (forall k :: i + |r| <= k < |s| ==> IsTrimmed(s[k]))
      && (r != [] ==> !IsTrimmed(r[0]) && !IsTrimmed(r[|r| - 1]))
  {
    var t := TrimStart(s);
    var r := TrimEnd(t);
    PrefixOfTail(s, t, r);
    TrimEndTail(s, t, r);
  }

  /** A prefix `r` of the tail `t` of `s` is the slice of `s` where `t` starts. */
  lemma PrefixOfTail(s: string, t: string, r: string)
    requires |t| <= |s| && t == s[|s| - |t|..] && r <= t
    ensures |s| - |t| + |r| <= |s| && r == s[|s| - |t|..|s| - |t| + |r|]
  {
    var i := |s| - |t|;
    assert r == t[..|r|];
    assert s[i..i + |r|] == s[i..][..|r|];
  }

  /** The characters `TrimEnd` cuts from the tail `t` of `s` are trimmable. */
  lemma TrimEndTail(s: string, t: string, r: string)
    requires |t| <= |s| && t == s[|s| - |t|..] && r <= t
    requires forall k :: |r| <= k < |t| ==> IsTrimmed(t[k])
    ensures forall k :: |s| - |t| + |r| <= k < |s| ==> IsTrimmed(s[k])
  {
    var i := |s| - |t|;
    forall k | i + |r| <= k < |s| ensures IsTrimmed(s[k]) {
      assert s[k] == t[k - i];
    }
  }

  /** Trimming twice is trimming once. */
  lemma TrimIdempotent(s: string)
    ensures Trim(Trim(s)) == Trim(s)
  {
    var r := Trim(s);
    if r != [] {
      TrimSpec(s);
      assert TrimStart(r) == r;
      assert TrimEnd(r) == r;
    }
  }

  /** Strings that agree after a common head agree. */
  lemma AppendCancel(h: string, a: string, b: string)
    requires h + a == h + b
    ensures a == b
  {
    assert a == (h + a)[|h|..];
    assert b == (h + b)[|h|..];
  }
}
