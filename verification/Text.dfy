// Strings as the contracts use them: trimming, identifier patterns, case
// folding of ASCII keywords, NUL-joined map keys and the byte-wise order of
// Go strings (which is code-point order on valid UTF-8).
module Text {

  // unicode.IsSpace, the class strings.TrimSpace removes.
  predicate IsSpace(c: char) {
    var k := c as int;
    9 <= k <= 13 || k == 32 || k == 0x85 || k == 0xA0 || k == 0x1680 || 0x2000 <= k <= 0x200A
    || k == 0x2028 || k == 0x2029 || k == 0x202F || k == 0x205F || k == 0x3000
  }

  function TrimLeft(s: string): string {
    if s != [] && IsSpace(s[0]) then TrimLeft(s[1..]) else s
  }

  function TrimRight(s: string): string {
    if s != [] && IsSpace(s[|s| - 1]) then TrimRight(s[..|s| - 1]) else s
  }

  function TrimSpace(s: string): string {
    TrimRight(TrimLeft(s))
  }

  lemma {:induction false} TrimRightKeepsHead(s: string)
    ensures TrimRight(s) <= s
    ensures TrimRight(s) == [] || !IsSpace(TrimRight(s)[|TrimRight(s)| - 1])
  {
    if s != [] && IsSpace(s[|s| - 1]) {
      TrimRightKeepsHead(s[..|s| - 1]);
    }
  }

  lemma {:induction false} TrimLeftHead(s: string)
    ensures TrimLeft(s) == [] || !IsSpace(TrimLeft(s)[0])
  {
    if s != [] && IsSpace(s[0]) {
      TrimLeftHead(s[1..]);
    }
  }

  // A second trim finds nothing to remove.
  lemma TrimIdempotent(s: string)
    ensures TrimSpace(TrimSpace(s)) == TrimSpace(s)
  {
    TrimLeftHead(s);
    TrimRightKeepsHead(TrimLeft(s));
    var t := TrimSpace(s);
    assert TrimLeft(t) == t;
    assert TrimRight(t) == t;
  }

  predicate IsAlphanumeric(c: char) {
    'A' <= c <= 'Z' || 'a' <= c <= 'z' || '0' <= c <= '9'
  }

  // ^[A-Za-z0-9](?:[A-Za-z0-9<punctuation>]{0,max-2}[A-Za-z0-9])?$
  predicate IsIdentifier(s: string, punctuation: string, max: nat) {
    && 1 <= |s| <= max
    && IsAlphanumeric(s[0]) && IsAlphanumeric(s[|s| - 1])
    && forall i | 0 <= i < |s| :: IsAlphanumeric(s[i]) || s[i] in punctuation
  }

  // An identifier has nothing to trim.
  lemma IdentifierTrimmed(s: string, punctuation: string, max: nat)
    requires IsIdentifier(s, punctuation, max)
    ensures TrimSpace(s) == s
  {
    assert !IsSpace(s[0]) && !IsSpace(s[|s| - 1]);
  }

  // strings.ToUpper as far as ASCII results are concerned: besides a-z, only
  // U+0131 and U+017F have an ASCII upper case.
  function UpperChar(c: char): char {
    if 'a' <= c <= 'z' then (c as int - 32) as char
    else if c as int == 0x131 then 'I'
    else if c as int == 0x17F then 'S'
    else c
  }

  function ToUpper(s: string): (r: string)
    ensures |r| == |s| && forall i | 0 <= i < |s| :: r[i] == UpperChar(s[i])
  {
    seq(|s|, i requires 0 <= i < |s| => UpperChar(s[i]))
  }

  // strings.ToLower likewise: besides A-Z, only U+0130 and U+212A have an
  // ASCII lower case.
  function LowerChar(c: char): char {
    if 'A' <= c <= 'Z' then (c as int + 32) as char
    else if c as int == 0x130 then 'i'
    else if c as int == 0x212A then 'k'
    else c
  }

  function ToLower(s: string): (r: string)
    ensures |r| == |s| && forall i | 0 <= i < |s| :: r[i] == LowerChar(s[i])
  {
    seq(|s|, i requires 0 <= i < |s| => LowerChar(s[i]))
  }

  const NUL: char := 0 as char

  // The composite map keys of the source: fields separated by a NUL byte.
  function NulJoin(left: string, right: string): string {
    left + [NUL] + right
  }

  // Such a key determines its fields as long as the left one holds no NUL.
  lemma NulJoinInjective(left: string, right: string, left': string, right': string)
    requires NUL !in left && NUL !in left'
    ensures NulJoin(left, right) == NulJoin(left', right') <==> left == left' && right == right'
  {
    if NulJoin(left, right) == NulJoin(left', right') {
      var k, k' := NulJoin(left, right), NulJoin(left', right');
      assert k[|left|] == NUL && k'[|left'|] == NUL;
      assert forall i | 0 <= i < |left| :: k[i] == left[i];
      assert forall i | 0 <= i < |left'| :: k'[i] == left'[i];
      assert |left| == |left'|;
      assert left == k[..|left|] && left' == k'[..|left'|];
      assert right == k[|left| + 1..] && right' == k'[|left'| + 1..];
    }
  }

  // Byte-wise string order.
  predicate Less(a: string, b: string) {
    b != [] && (a == [] || a[0] < b[0] || (a[0] == b[0] && Less(a[1..], b[1..])))
  }

  lemma {:induction false} LessAsymmetric(a: string, b: string)
    requires Less(a, b)
    ensures !Less(b, a)
  {
    if a != [] && a[0] == b[0] {
      LessAsymmetric(a[1..], b[1..]);
    }
  }

  lemma {:induction false} LessTransitive(a: string, b: string, c: string)
    requires Less(a, b) && Less(b, c)
    ensures Less(a, c)
  {
    if a != [] && a[0] == b[0] && b[0] == c[0] {
      LessTransitive(a[1..], b[1..], c[1..]);
    }
  }

  lemma {:induction false} LessTotal(a: string, b: string)
    ensures Less(a, b) || a == b || Less(b, a)
  {
    if a != [] && b != [] && a[0] == b[0] {
      LessTotal(a[1..], b[1..]);
      assert a == [a[0]] + a[1..] && b == [b[0]] + b[1..];
    }
  }

  // a comes before b at position k: they agree up to k, where a ends or has
  // the smaller character.
  predicate DiffersAt(a: string, b: string, k: nat) {
    k <= |a| && k < |b| && a[..k] == b[..k] && (k == |a| || a[k] < b[k])
  }

  // The order decides at the first difference.
  lemma {:induction false} LessAtFirstDifference(a: string, b: string)
    ensures Less(a, b) <==> exists k: nat :: DiffersAt(a, b, k)
  {
    if a != [] && b != [] && a[0] == b[0] {
      LessAtFirstDifference(a[1..], b[1..]);
      if k: nat :| DiffersAt(a[1..], b[1..], k) {
        assert a[..k + 1] == [a[0]] + a[1..][..k] && b[..k + 1] == [b[0]] + b[1..][..k];
        assert DiffersAt(a, b, k + 1);
      }
      if k: nat :| DiffersAt(a, b, k) {
        assert k > 0 && a[1..][..k - 1] == a[..k][1..] && b[1..][..k - 1] == b[..k][1..];
        assert DiffersAt(a[1..], b[1..], k - 1);
      }
    } else if Less(a, b) {
      assert DiffersAt(a, b, 0);
    } else {
      forall k: nat ensures !DiffersAt(a, b, k) {
        SameStart(a, b, k);
      }
    }
  }

  lemma SameStart(a: string, b: string, k: nat)
    ensures DiffersAt(a, b, k) && k > 0 ==> a != [] && b != [] && a[0] == b[0]
  {
    if DiffersAt(a, b, k) && k > 0 {
      assert a[..k][0] == b[..k][0];
    }
  }
}
