// Version comparison on decimal strings of any length
// (internal/market/manifest_v2.go, compareDecimalStrings and
// compareSemanticVersions).
module Versions {
  import opened Text
  import opened Arithmetic

  predicate IsDigit(c: char) {
    '0' <= c <= '9'
  }

  predicate AllDigits(s: string) {
    forall i | 0 <= i < |s| :: IsDigit(s[i])
  }

  // ---- the code ----

  function TrimZeros(s: string): string {
    if s != [] && s[0] == '0' then TrimZeros(s[1..]) else s
  }

  // strings.Compare
  function CompareStrings(a: string, b: string): int {
    if a == b then 0 else if Less(a, b) then -1 else 1
  }

  function CompareDecimal(left: string, right: string): int {
    var l := if TrimZeros(left) == "" then "0" else TrimZeros(left);
    var r := if TrimZeros(right) == "" then "0" else TrimZeros(right);
    if |l| < |r| then -1 else if |l| > |r| then 1 else CompareStrings(l, r)
  }

  // strings.Split(s, ".")
  function SplitDots(s: string): (parts: seq<string>)
    ensures |parts| >= 1
  {
    if s == [] then [""]
    else
      var rest := SplitDots(s[1..]);
      if s[0] == '.' then [""] + rest else [[s[0]] + rest[0]] + rest[1..]
  }

  function CompareParts(left: seq<string>, right: seq<string>): int
    requires |left| <= |right|
  {
    if left == [] then 0
    else
      var c := CompareDecimal(left[0], right[0]);
      if c != 0 then c else CompareParts(left[1..], right[1..])
  }

  // ^[0-9]+\.[0-9]+\.[0-9]+$, which every caller has checked.
  predicate IsVersion(s: string) {
    var parts := SplitDots(s);
    |parts| == 3 && forall i | 0 <= i < 3 :: parts[i] != "" && AllDigits(parts[i])
  }

  function CompareVersions(left: string, right: string): int
    requires IsVersion(left) && IsVersion(right)
  {
    CompareParts(SplitDots(left), SplitDots(right))
  }

  // ---- the numbers ----

  function Pow10(n: nat): nat {
    if n == 0 then 1 else 10 * Pow10(n - 1)
  }

  function Digit(c: char): nat
    requires IsDigit(c)
  {
    c as int - '0' as int
  }

  function Value(s: string): nat
    requires AllDigits(s)
  {
    if s == [] then 0 else Digit(s[0]) * Pow10(|s| - 1) + Value(s[1..])
  }

  function Sign(n: int): int {
    if n < 0 then -1 else if n > 0 then 1 else 0
  }

  lemma {:induction false} ValueBelow(s: string)
    requires AllDigits(s)
    ensures Value(s) < Pow10(|s|)
  {
    if s != [] {
      ValueBelow(s[1..]);
      MulMonotone(Digit(s[0]), 9, Pow10(|s| - 1));
    }
  }

  lemma {:induction false} PowGrows(a: nat, b: nat)
    requires a <= b
    ensures 1 <= Pow10(a) <= Pow10(b)
  {
    if a == b {
      if a > 0 {
        PowGrows(a - 1, a - 1);
      }
    } else {
      PowGrows(a, b - 1);
    }
  }

  lemma {:induction false} ZerosDoNotCount(s: string)
    requires AllDigits(s)
    ensures AllDigits(TrimZeros(s)) && Value(TrimZeros(s)) == Value(s)
    ensures TrimZeros(s) == [] || TrimZeros(s)[0] != '0'
  {
    if s != [] && s[0] == '0' {
      ZerosDoNotCount(s[1..]);
    }
  }

  lemma FirstDigitDecides(d: nat, e: nat, p: nat, x: nat, y: nat)
    requires x < p && y < p
    ensures d * p + x < e * p + y <==> d < e || (d == e && x < y)
    ensures d * p + x == e * p + y <==> d == e && x == y
  {
    if d < e {
      LeadingDigit(d, e, p, x, y);
    } else if e < d {
      LeadingDigit(e, d, p, y, x);
    }
  }

  // At equal length the string order is the numeric order.
  lemma {:induction false} SameLength(a: string, b: string)
    requires AllDigits(a) && AllDigits(b) && |a| == |b|
    ensures Less(a, b) <==> Value(a) < Value(b)
    ensures a == b <==> Value(a) == Value(b)
  {
    if a != [] {
      SameLength(a[1..], b[1..]);
      ValueBelow(a[1..]);
      ValueBelow(b[1..]);
      assert a == [a[0]] + a[1..] && b == [b[0]] + b[1..];
      FirstDigitDecides(Digit(a[0]), Digit(b[0]), Pow10(|a| - 1), Value(a[1..]), Value(b[1..]));
    }
  }

  // A longer number without leading zeros is the larger one.
  lemma LongerIsLarger(a: string, b: string)
    requires AllDigits(a) && AllDigits(b) && |a| < |b| && b[0] != '0'
    ensures Value(a) < Value(b)
  {
    ValueBelow(a);
    PowGrows(|a|, |b| - 1);
    MulMonotone(1, Digit(b[0]), Pow10(|b| - 1));
  }

  // The comparison agrees with the numbers, whatever their length and
  // however many zeros lead.
  lemma DecimalIsNumeric(left: string, right: string)
    requires AllDigits(left) && AllDigits(right)
    ensures CompareDecimal(left, right) == Sign(Value(left) - Value(right))
  {
    ZerosDoNotCount(left);
    ZerosDoNotCount(right);
    var l := if TrimZeros(left) == "" then "0" else TrimZeros(left);
    var r := if TrimZeros(right) == "" then "0" else TrimZeros(right);
    assert Value(l) == Value(left) && Value(r) == Value(right);
    if |l| < |r| {
      LongerIsLarger(l, r);
    } else if |r| < |l| {
      LongerIsLarger(r, l);
    } else {
      SameLength(l, r);
    }
  }

  // ---- precedence ----

  // Major, minor and patch, as section 11 of Semantic Versioning 2.0.0 reads
  // them.
  datatype Version = Version(major: nat, minor: nat, patch: nat)

  function Parse(s: string): Version
    requires IsVersion(s)
  {
    var p := SplitDots(s);
    Version(Value(p[0]), Value(p[1]), Value(p[2]))
  }

  predicate Lower(a: Version, b: Version) {
    || a.major < b.major
    || (a.major == b.major && (a.minor < b.minor || (a.minor == b.minor && a.patch < b.patch)))
  }

  lemma ThreeParts(p: seq<string>, q: seq<string>)
    requires |p| == 3 && |q| == 3
    ensures CompareParts(p, q) ==
      if CompareDecimal(p[0], q[0]) != 0 then CompareDecimal(p[0], q[0])
      else if CompareDecimal(p[1], q[1]) != 0 then CompareDecimal(p[1], q[1])
      else CompareDecimal(p[2], q[2])
  {
    hide CompareDecimal;
    assert CompareParts(p[1..][1..][1..], q[1..][1..][1..]) == 0;
    assert CompareParts(p[1..][1..], q[1..][1..]) == CompareDecimal(p[2], q[2]);
    assert p[1..][0] == p[1] && q[1..][0] == q[1];
  }

  // Comparing versions is comparing major, minor and patch as numbers.
  lemma CompareIsPrecedence(left: string, right: string)
    requires IsVersion(left) && IsVersion(right)
    ensures var c, a, b := CompareVersions(left, right), Parse(left), Parse(right);
      && (c == -1 <==> Lower(a, b)) && (c == 1 <==> Lower(b, a)) && (c == 0 <==> a == b)
      && (c == -1 || c == 0 || c == 1)
  {
    hide CompareDecimal, SplitDots, AllDigits, Value;
    var p, q := SplitDots(left), SplitDots(right);
    DecimalIsNumeric(p[0], q[0]);
    DecimalIsNumeric(p[1], q[1]);
    DecimalIsNumeric(p[2], q[2]);
    ThreeParts(p, q);
  }

  // So it orders versions: antisymmetric, transitive, total.
  lemma CompareIsAnOrder(a: string, b: string, c: string)
    requires IsVersion(a) && IsVersion(b) && IsVersion(c)
    ensures CompareVersions(a, b) == -CompareVersions(b, a)
    ensures CompareVersions(a, b) <= 0 && CompareVersions(b, c) <= 0 ==> CompareVersions(a, c) <= 0
    ensures CompareVersions(a, b) <= 0 && CompareVersions(b, c) < 0 ==> CompareVersions(a, c) < 0
  {
    hide CompareVersions, IsVersion, Parse;
    CompareIsPrecedence(a, b);
    CompareIsPrecedence(b, a);
    CompareIsPrecedence(b, c);
    CompareIsPrecedence(a, c);
  }
}
