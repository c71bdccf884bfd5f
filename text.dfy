/**
 * Text helpers behind the record file names and the rendered document:
 * decimal numerals, zero padding, the name slug, prefix tests and the
 * joining of lines into one string.
 */
module Text {

  predicate IsDigit(c: char) {
    '0' <= c <= '9'
  }

  predicate AllDigits(s: string) {
    forall i :: 0 <= i < |s| ==> IsDigit(s[i])
  }

  function DigitChar(d: nat): (c: char)
    requires d < 10
  {
    ('0' as int + d) as char
  }

  function DigitValue(c: char): (d: nat)
    requires IsDigit(c)
  {
    c as int - '0' as int
  }

  /** The decimal numeral of `n`, without sign or leading zeros, as Java prints an int. */
  function NatStr(n: nat): (r: string)
    ensures 1 <= |r| && AllDigits(r)
    ensures (|r| == 1) == (n < 10)
    ensures n >= 10 ==> r[0] != '0'
    decreases n
  {
    if n < 10 then [DigitChar(n)] else NatStr(n / 10) + [DigitChar(n % 10)]
  }

  /** The number a string of decimal digits denotes; leading zeros add nothing. */
  function Value(s: string): (v: nat)
    requires AllDigits(s)
  {
    if s == [] then 0 else Value(s[..|s| - 1]) * 10 + DigitValue(s[|s| - 1])
  }

  /** Reading the numeral of `n` back gives `n`. */
  lemma {:induction false} ValueOfNatStr(n: nat)
    ensures Value(NatStr(n)) == n
    decreases n
  {
    if n >= 10 {
      var s := NatStr(n);
      assert s[..|s| - 1] == NatStr(n / 10);
      ValueOfNatStr(n / 10);
    }
  }

  function Pow10(k: nat): (p: nat)
    ensures p >= 1
  {
    if k == 0 then 1 else 10 * Pow10(k - 1)
  }

  /** A numeral has at most `k` digits exactly when the number is below 10^k. */
  lemma {:induction false} NatStrLength(n: nat, k: nat)
    requires 1 <= k
    ensures |NatStr(n)| <= k <==> n < Pow10(k)
    decreases n
  {
    if n >= 10 {
      if k == 1 {
        assert Pow10(1) == 10;
      } else {
        NatStrLength(n / 10, k - 1);
      }
    } else {
      assert Pow10(k) >= 10 by { PowMonotone(k); }
    }
  }

  lemma {:induction false} PowMonotone(k: nat)
    requires 1 <= k
    ensures Pow10(k) >= 10
  {
    if k > 1 {
      PowMonotone(k - 1);
    }
  }

  function Zeros(k: nat): (r: string)
    ensures |r| == k && AllDigits(r)
    ensures forall i :: 0 <= i < k ==> r[i] == '0'
  {
    if k == 0 then [] else ['0'] + Zeros(k - 1)
  }

  /** Leading zeros do not change the value of a numeral. */
  lemma {:induction false} ValueIgnoresLeadingZeros(k: nat, s: string)
    requires AllDigits(s)
    ensures AllDigits(Zeros(k) + s) && Value(Zeros(k) + s) == Value(s)
    decreases |s|
  {
    var z := Zeros(k);
    if s == [] {
      assert z + s == z;
      ValueOfZeros(k);
    } else {
      var t := z + s;
      assert t[..|t| - 1] == z + s[..|s| - 1];
      ValueIgnoresLeadingZeros(k, s[..|s| - 1]);
    }
  }

  lemma {:induction false} ValueOfZeros(k: nat)
    ensures Value(Zeros(k)) == 0
  {
    if k > 0 {
      var z := Zeros(k);
      assert z[..k - 1] == Zeros(k - 1);
      ValueOfZeros(k - 1);
    }
  }

  /** `n` written with at least `width` digits, padded on the left with zeros (Java's "%0<width>d"). */
  function PadLeft(n: nat, width: nat): (r: string)
  {
    var s := NatStr(n);
    if |s| < width then Zeros(width - |s|) + s else s
  }

  /** The padding keeps the digits of `n` as the tail, is all digits, and is exactly `width` long when `n` fits. */
  lemma PadLeftShape(n: nat, width: nat)
    ensures AllDigits(PadLeft(n, width))
    ensures |PadLeft(n, width)| == if |NatStr(n)| < width then width else |NatStr(n)|
    ensures Value(PadLeft(n, width)) == n
  {
    ValueOfNatStr(n);
    var s := NatStr(n);
    if |s| < width {
      ValueIgnoresLeadingZeros(width - |s|, s);
    }
  }

  /** The id as it appears in record file names: zero-padded to four digits. */
  function Pad4(n: nat): (r: string)
    ensures AllDigits(r) && 4 <= |r|
    ensures Value(r) == n
  {
    PadLeftShape(n, 4);
    PadLeft(n, 4)
  }

  /** Ids below 10000 pad to exactly four digits; larger ids keep all their digits. */
  lemma Pad4Width(n: nat)
    ensures |Pad4(n)| == 4 <==> n < 10000
  {
    PadLeftShape(n, 4);
    NatStrLength(n, 4);
    assert Pow10(4) == 10000;
  }

  /** Distinct ids never share a padded form. */
  lemma Pad4Injective(m: nat, n: nat)
    requires Pad4(m) == Pad4(n)
    ensures m == n
  {
  }

  /** ASCII upper-case letters map to lower case; every other character is kept. */
  function Lower(c: char): (d: char)
    ensures 'A' <= c <= 'Z' ==> d as int == c as int + 32 && 'a' <= d <= 'z'
    ensures !('A' <= c <= 'Z') ==> d == c
  {
    if 'A' <= c <= 'Z' then (c as int - 'A' as int + 'a' as int) as char else c
  }

  /** The file-name form of a record name: lower-cased, with every space turned into a hyphen. */
  function Slug(name: string): (r: string)
    ensures |r| == |name|
    ensures forall i :: 0 <= i < |name| ==> r[i] == if name[i] == ' ' then '-' else Lower(name[i])
  {
    seq(|name|, i requires 0 <= i < |name| => if name[i] == ' ' then '-' else Lower(name[i]))
  }

  /** A slug holds no spaces and no upper-case ASCII letters. */
  lemma SlugShape(name: string)
    ensures forall i :: 0 <= i < |Slug(name)| ==> Slug(name)[i] != ' ' && !('A' <= Slug(name)[i] <= 'Z')
  {
  }

  /** The slug of a concatenation is the concatenation of the slugs. */
  lemma SlugAppend(a: string, b: string)
    ensures Slug(a + b) == Slug(a) + Slug(b)
  {
    assert forall i :: 0 <= i < |a + b| ==> Slug(a + b)[i] == (Slug(a) + Slug(b))[i];
  }

  /** Slugging a slug changes nothing. */
  lemma SlugIdempotent(name: string)
    ensures Slug(Slug(name)) == Slug(name)
  {
  }

  /** The longest prefix of `s` made of decimal digits. */
  function LeadingDigits(s: string): (r: string)
    ensures AllDigits(r) && |r| <= |s| && r == s[..|r|]
    ensures |r| == |s| || !IsDigit(s[|r|])
  {
    if s == [] || !IsDigit(s[0]) then [] else [s[0]] + LeadingDigits(s[1..])
  }

  /** A digit prefix is read through to whatever follows it. */
  lemma {:induction false} LeadingDigitsAfter(p: string, s: string)
    requires AllDigits(p)
    ensures LeadingDigits(p + s) == p + LeadingDigits(s)
  {
    if p == [] {
      assert p + s == s;
    } else {
      assert (p + s)[0] == p[0] && (p + s)[1..] == p[1..] + s;
      assert IsDigit(p[0]);
      LeadingDigitsAfter(p[1..], s);
      assert p == [p[0]] + p[1..];
    }
  }

  predicate StartsWith(s: string, prefix: string) {
    |prefix| <= |s| && s[..|prefix|] == prefix
  }

  /** The lines joined by `sep`, as `Collectors.joining(sep)` does. */
  function Join(lines: seq<string>, sep: string): (r: string)
  {
    if |lines| == 0 then ""
    else if |lines| == 1 then lines[0]
    else lines[0] + sep + Join(lines[1..], sep)
  }

  /** `part` occurs in `s` starting at index `k`. */
  predicate OccursAt(s: string, part: string, k: int) {
    0 <= k <= |s| - |part| && s[k..k + |part|] == part
  }

  /** `part` occurs somewhere in `s`, as Java's `String.contains`. */
  ghost predicate Contains(s: string, part: string) {
    exists k :: OccursAt(s, part, k)
  }

  /** Every line is a substring of the joined text. */
  lemma {:induction false} JoinContainsLine(lines: seq<string>, sep: string, i: nat)
    requires i < |lines|
    ensures Contains(Join(lines, sep), lines[i])
  {
    var j := Join(lines, sep);
    if |lines| == 1 || i == 0 {
      assert OccursAt(j, lines[0], 0);
    } else {
      JoinContainsLine(lines[1..], sep, i - 1);
      var rest := Join(lines[1..], sep);
      var k :| OccursAt(rest, lines[i], k);
      var off := |lines[0]| + |sep|;
      assert j == lines[0] + sep + rest;
      assert j[off + k..off + k + |lines[i]|] == rest[k..k + |lines[i]|];
      assert OccursAt(j, lines[i], off + k);
    }
  }
}
