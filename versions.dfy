/**
 * PHP's `version_compare($a, $b)`, restricted to dotted-numeric version
 * strings ("2.1.0", "1.10"): the parts are compared numerically from the
 * left, and when one string runs out of parts the longer one is the newer
 * ("1.0.0" is newer than "1.0"); the empty string is older than any other.
 * Pre-release words ("beta", "RC", "pl") are not modelled.
 */
module Versions {
  import opened Php

  /** The numeric parts of a version string: runs of digits, each part ending
      at the first non-digit, which is skipped as the separator. */
  function Parts(s: string): seq<nat>
    decreases |s|
  {
    if s == [] then []
    else
      var d := DigitPrefix(s);
      var rest := s[|d|..];
      if rest == [] then [DigitsValue(d)] else [DigitsValue(d)] + Parts(rest[1..])
  }

  /** Three-way lexicographic comparison of part lists; a proper prefix is smaller. */
  function CompareParts(a: seq<nat>, b: seq<nat>): (c: int)
    ensures -1 <= c <= 1
  {
    if a == [] && b == [] then 0
    else if a == [] then -1
    else if b == [] then 1
    else if a[0] < b[0] then -1
    else if a[0] > b[0] then 1
    else CompareParts(a[1..], b[1..])
  }

  /** `version_compare($a, $b)`: -1, 0 or 1. */
  function VersionCompare(a: string, b: string): int {
    CompareParts(Parts(a), Parts(b))
  }

  /** `version_compare($a, $b) === 1`. */
  predicate VersionGreater(a: string, b: string) {
    VersionCompare(a, b) == 1
  }

  lemma {:induction false} ComparePartsAntisymmetric(a: seq<nat>, b: seq<nat>)
    ensures CompareParts(a, b) == -CompareParts(b, a)
  {
    if a != [] && b != [] && a[0] == b[0] {
      ComparePartsAntisymmetric(a[1..], b[1..]);
    }
  }

  lemma {:induction false} ComparePartsZero(a: seq<nat>, b: seq<nat>)
    ensures CompareParts(a, b) == 0 <==> a == b
  {
    if a != [] && b != [] && a[0] == b[0] {
      ComparePartsZero(a[1..], b[1..]);
      assert a == [a[0]] + a[1..] && b == [b[0]] + b[1..];
    }
  }

  lemma {:induction false} ComparePartsTransitive(a: seq<nat>, b: seq<nat>, c: seq<nat>)
    requires CompareParts(a, b) == 1 && CompareParts(b, c) == 1
    ensures CompareParts(a, c) == 1
  {
    if a != [] && b != [] && c != [] && a[0] == b[0] && b[0] == c[0] {
      ComparePartsTransitive(a[1..], b[1..], c[1..]);
    }
  }

  /** "Is newer than" is a strict order: never reflexive, never both ways,
      and transitive. */
  lemma VersionGreaterIsStrictOrder(a: string, b: string, c: string)
    ensures !VersionGreater(a, a)
    ensures VersionGreater(a, b) ==> !VersionGreater(b, a)
    ensures VersionGreater(a, b) && VersionGreater(b, c) ==> VersionGreater(a, c)
  {
    ComparePartsZero(Parts(a), Parts(a));
    ComparePartsAntisymmetric(Parts(a), Parts(b));
    if VersionGreater(a, b) && VersionGreater(b, c) {
      ComparePartsTransitive(Parts(a), Parts(b), Parts(c));
    }
  }

  /** Exactly one of "newer", "older" and "same parts" holds for two versions. */
  lemma VersionTrichotomy(a: string, b: string)
    ensures VersionGreater(a, b) || VersionGreater(b, a) || Parts(a) == Parts(b)
    ensures Parts(a) == Parts(b) ==> !VersionGreater(a, b) && !VersionGreater(b, a)
  {
    ComparePartsAntisymmetric(Parts(a), Parts(b));
    ComparePartsZero(Parts(a), Parts(b));
  }

  lemma {:induction false} DigitPrefixStops(d: string, t: string)
    requires AllDigits(d) && (t == [] || !IsDigit(t[0]))
    ensures DigitPrefix(d + t) == d
  {
    if d != [] {
      assert (d + t)[1..] == d[1..] + t;
      DigitPrefixStops(d[1..], t);
    }
  }

  /** A last run of digits is one part. */
  lemma PartsOfLastRun(d: string)
    requires d != [] && AllDigits(d)
    ensures Parts(d) == [DigitsValue(d)]
  {
    DigitPrefixStops(d, []);
    assert d + [] == d;
  }

  /** A run of digits before a dot is the first part; the parts after the dot follow. */
  lemma PartsOfRunThenDot(d: string, t: string)
    requires AllDigits(d) && t != [] && t[0] == '.'
    ensures Parts(d + t) == [DigitsValue(d)] + Parts(t[1..])
  {
    DigitPrefixStops(d, t);
    assert (d + t)[|d|..] == t;
  }

  /** The parts of "x.y" and "x.y.z" for single digits. */
  lemma PartsOfTwo(x: string, y: string)
    requires |x| == 1 && |y| == 1 && AllDigits(x) && AllDigits(y)
    ensures Parts(x + "." + y) == [DigitsValue(x), DigitsValue(y)]
  {
    assert x + "." + y == x + ("." + y);
    PartsOfRunThenDot(x, "." + y);
    assert ("." + y)[1..] == y;
    PartsOfLastRun(y);
  }

  lemma PartsOfThree(x: string, y: string, z: string)
    requires |x| == 1 && |y| == 1 && |z| == 1 && AllDigits(x) && AllDigits(y) && AllDigits(z)
    ensures Parts(x + "." + y + "." + z) == [DigitsValue(x), DigitsValue(y), DigitsValue(z)]
  {
    assert x + "." + y + "." + z == x + ("." + (y + "." + z));
    PartsOfRunThenDot(x, "." + (y + "." + z));
    assert ("." + (y + "." + z))[1..] == y + "." + z;
    PartsOfTwo(y, z);
  }

  lemma PartsOf220()
    ensures Parts("2.2.0") == [2, 2, 0]
  {
    PartsOfThree("2", "2", "0");
    assert "2" + "." + "2" + "." + "0" == "2.2.0";
  }

  lemma PartsOf210()
    ensures Parts("2.1.0") == [2, 1, 0]
  {
    PartsOfThree("2", "1", "0");
    assert "2" + "." + "1" + "." + "0" == "2.1.0";
  }

  /** A raised minor version is newer. */
  lemma MinorRaiseIsNewer()
    ensures VersionGreater("2.2.0", "2.1.0")
  {
    PartsOf220();
    PartsOf210();
    assert CompareParts([2, 2, 0][1..], [2, 1, 0][1..]) == 1;
  }

  lemma PartsOf110()
    ensures Parts("1.10") == [1, 10]
  {
    assert "1.10" == "1" + ".10";
    PartsOfRunThenDot("1", ".10");
    assert ".10"[1..] == "10";
    PartsOfLastRun("10");
  }

  lemma PartsOf19()
    ensures Parts("1.9") == [1, 9]
  {
    PartsOfTwo("1", "9");
    assert "1" + "." + "9" == "1.9";
  }

  /** Parts compare as numbers, not as text. */
  lemma PartsCompareNumerically()
    ensures VersionGreater("1.10", "1.9")
  {
    PartsOf110();
    PartsOf19();
    assert CompareParts([1, 10][1..], [1, 9][1..]) == 1;
  }

  /** An extra part makes a version newer. */
  lemma ExtraPartIsNewer()
    ensures VersionGreater("1.0.0", "1.0")
  {
    PartsOfThree("1", "0", "0");
    PartsOfTwo("1", "0");
    assert "1" + "." + "0" + "." + "0" == "1.0.0";
    assert "1" + "." + "0" == "1.0";
  }

  /** The empty version is older than any other. */
  lemma EmptyIsNotNewer()
    ensures !VersionGreater("", "1.0")
  {
    PartsOfTwo("1", "0");
    assert "1" + "." + "0" == "1.0";
  }

  /** Examples of the ordering: a raised minor version is newer, an equal one is not,
      parts compare as numbers rather than text, and an extra part is newer. */
  lemma VersionExamples()
    ensures VersionGreater("2.2.0", "2.1.0")
    ensures !VersionGreater("2.1.0", "2.1.0")
    ensures VersionGreater("1.10", "1.9")
    ensures VersionGreater("1.0.0", "1.0")
    ensures !VersionGreater("", "1.0")
  {
    MinorRaiseIsNewer();
    VersionGreaterIsStrictOrder("2.1.0", "2.1.0", "2.1.0");
    PartsCompareNumerically();
    ExtraPartIsNewer();
    EmptyIsNotNewer();
  }
}
