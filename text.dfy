/** Small string helpers shared by the ledger model: ASCII case folding,
    substring search, decimal rendering with zero padding, and joining. */
module Text {

  /** Lower-case an ASCII letter; every other character is left alone. */
  function LowerChar(c: char): (r: char)
    ensures 'A' <= c <= 'Z' ==> r as int == c as int + 32
    ensures !('A' <= c <= 'Z') ==> r == c
  {
    if 'A' <= c <= 'Z' then (c as int + 32) as char else c
  }

  function Lower(s: string): (r: string)
    ensures |r| == |s|
    ensures forall i :: 0 <= i < |s| ==> r[i] == LowerChar(s[i])
  {
    seq(|s|, i requires 0 <= i < |s| => LowerChar(s[i]))
  }

  predicate IsPrefix(p: string, s: string) {
    |p| <= |s| && s[..|p|] == p
  }

  /** Does `frag` occur in `s` as a contiguous run of characters? */
  predicate Contains(s: string, frag: string)
    decreases |s|
  {
    IsPrefix(frag, s) || (|s| > 0 && Contains(s[1..], frag))
  }

  /** `frag` sits in `s` starting at index i. */
  predicate OccursAt(s: string, frag: string, i: nat) {
    i + |frag| <= |s| && s[i..i + |frag|] == frag
  }

  /** Contains agrees with the direct definition "some slice of s equals frag". */
  lemma {:induction false} ContainsIff(s: string, frag: string)
    ensures Contains(s, frag) <==> exists i: nat :: OccursAt(s, frag, i)
    decreases |s|
  {
    if IsPrefix(frag, s) {
      assert OccursAt(s, frag, 0);
    } else if |s| == 0 {
      forall i: nat ensures !OccursAt(s, frag, i) { }
    } else {
      ContainsIff(s[1..], frag);
      if Contains(s[1..], frag) {
        var i: nat :| OccursAt(s[1..], frag, i);
        OccursAtShift(s, frag, i + 1);
      } else {
        forall i: nat ensures !OccursAt(s, frag, i) {
          OccursAtShift(s, frag, i);
        }
      }
    }
  }

  /** An occurrence past the first character of s is an occurrence in the
      rest of s, one position earlier; one at the start is a prefix. */
  lemma OccursAtShift(s: string, frag: string, i: nat)
    requires |s| > 0
    ensures OccursAt(s, frag, i) <==> (i == 0 && IsPrefix(frag, s)) || (i > 0 && OccursAt(s[1..], frag, i - 1))
  {
    if i > 0 && i + |frag| <= |s| {
      assert s[1..][i - 1..i - 1 + |frag|] == s[i..i + |frag|];
    }
  }

  /** The empty fragment occurs in every string. */
  lemma EmptyFragmentOccurs(s: string)
    ensures Contains(s, "")
  {
    assert s[..0] == "";
  }

  function DigitChar(d: nat): (c: char)
    requires d < 10
    ensures '0' <= c <= '9'
  {
    ('0' as int + d) as char
  }

  /** The decimal digits of n, most significant first, without leading zeros
      (Python's str() of a non-negative int). */
  function Digits(n: nat): (r: string)
    ensures |r| >= 1
    ensures forall i :: 0 <= i < |r| ==> '0' <= r[i] <= '9'
    decreases n
  {
    if n < 10 then [DigitChar(n)] else Digits(n / 10) + [DigitChar(n % 10)]
  }

  /** Reads back a string of decimal digits. */
  function ParseDigits(s: string): nat
    requires forall i :: 0 <= i < |s| ==> '0' <= s[i] <= '9'
    decreases |s|
  {
    if s == [] then 0 else 10 * ParseDigits(s[..|s| - 1]) + (s[|s| - 1] as int - '0' as int)
  }

  lemma {:induction false} DigitsRoundTrip(n: nat)
    ensures ParseDigits(Digits(n)) == n
    decreases n
  {
    if n >= 10 {
      var r := Digits(n);
      assert r[..|r| - 1] == Digits(n / 10);
      DigitsRoundTrip(n / 10);
    }
  }

  /** Left-pad s with '0' up to `width` characters (Python's `%0Nd`). */
  function PadZero(s: string, width: nat): (r: string)
    ensures |r| == if |s| < width then width else |s|
    ensures r[|r| - |s|..] == s
    ensures forall i :: 0 <= i < |r| - |s| ==> r[i] == '0'
  {
    if |s| < width then seq(width - |s|, _ => '0') + s else s
  }

  /** `'{:0Nd}'.format(n)` for non-negative n. */
  function Decimal(n: nat, width: nat): (r: string)
    ensures |r| >= width && |r| >= 1
    ensures forall i :: 0 <= i < |r| ==> '0' <= r[i] <= '9'
  {
    PadZero(Digits(n), width)
  }

  /** Every character is a decimal digit. */
  predicate AllDigits(s: string) {
    forall i :: 0 <= i < |s| ==> '0' <= s[i] <= '9'
  }

  function Pow10(w: nat): nat {
    if w == 0 then 1 else 10 * Pow10(w - 1)
  }

  /** A number below 10^w has at most w digits. */
  lemma {:induction false} DigitsWidth(n: nat, w: nat)
    requires 1 <= w && n < Pow10(w)
    ensures |Digits(n)| <= w
    decreases w
  {
    if n >= 10 {
      assert w != 1 by { assert Pow10(1) == 10; }
      DigitsWidth(n / 10, w - 1);
    }
  }

  /** Leading zeros do not change the number a digit string reads back as. */
  lemma {:induction false} ParseLeadingZeros(z: string, s: string)
    requires forall i :: 0 <= i < |z| ==> z[i] == '0'
    requires AllDigits(s)
    ensures AllDigits(z + s) && ParseDigits(z + s) == ParseDigits(s)
    decreases |z| + |s|
  {
    if s == [] {
      if z != [] {
        assert z + s == z;
        assert z[..|z| - 1] + s == z[..|z| - 1];
        ParseLeadingZeros(z[..|z| - 1], s);
      }
    } else {
      assert (z + s)[..|z + s| - 1] == z + s[..|s| - 1];
      ParseLeadingZeros(z, s[..|s| - 1]);
    }
  }

  /** A zero-padded number reads back as the number. */
  lemma DecimalRoundTrip(n: nat, width: nat)
    ensures ParseDigits(Decimal(n, width)) == n
  {
    var d := Digits(n);
    var r := PadZero(d, width);
    var k := |r| - |d|;
    assert r == r[..k] + r[k..];
    assert r[k..] == d;
    assert forall i :: 0 <= i < k ==> r[..k][i] == '0';
    DigitsRoundTrip(n);
    ParseLeadingZeros(r[..k], d);
  }

  /** A number with at most `width` digits is padded to exactly `width`. */
  lemma DecimalWidth(n: nat, width: nat)
    requires 1 <= width && n < Pow10(width)
    ensures |Decimal(n, width)| == width
  {
    DigitsWidth(n, width);
  }

  /** A number with at most `width` digits is written as exactly `width`
      digits that read back as the number. */
  lemma DecimalField(n: nat, width: nat)
    requires 1 <= width && n < Pow10(width)
    ensures var d := Decimal(n, width); |d| == width && AllDigits(d) && ParseDigits(d) == n
  {
    DecimalWidth(n, width);
    DecimalRoundTrip(n, width);
  }

  /** `sep.join(parts)`. */
  function Join(parts: seq<string>, sep: string): string
    decreases |parts|
  {
    if parts == [] then ""
    else if |parts| == 1 then parts[0]
    else Join(parts[..|parts| - 1], sep) + sep + parts[|parts| - 1]
  }

  /** Python's `a <= b` on strings: lexicographic by code point, a proper
      prefix first. */
  predicate StrLe(a: string, b: string)
    decreases |a|
  {
    a == [] || (b != [] && (a[0] < b[0] || (a[0] == b[0] && StrLe(a[1..], b[1..]))))
  }

  lemma {:induction false} StrLeTotal(a: string, b: string)
    ensures StrLe(a, b) || StrLe(b, a)
    decreases |a|
  {
    if a != [] && b != [] && a[0] == b[0] {
      StrLeTotal(a[1..], b[1..]);
    }
  }

  lemma {:induction false} StrLeTransitive(a: string, b: string, c: string)
    requires StrLe(a, b) && StrLe(b, c)
    ensures StrLe(a, c)
    decreases |a|
  {
    if a != [] && a[0] == b[0] && b[0] == c[0] {
      StrLeTransitive(a[1..], b[1..], c[1..]);
    }
  }

  lemma {:induction false} StrLeAntisymmetric(a: string, b: string)
    requires StrLe(a, b) && StrLe(b, a)
    ensures a == b
    decreases |a|
  {
    if a != [] {
      StrLeAntisymmetric(a[1..], b[1..]);
      assert a == [a[0]] + a[1..];
      assert b == [b[0]] + b[1..];
    }
  }
}
