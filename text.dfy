/**
 * String helpers shared by the components: ASCII upper- and lower-casing
 * (`String.prototype.toUpperCase`, Python's `str.upper` and `str.lower`),
 * radix-2 and radix-10 formatting of integers (`Number.prototype.toString`,
 * template literals), `String.prototype.padStart`, concatenation of emitted
 * lines, and the lexicographic `<` of JavaScript strings.
 */
module Text {

  // ---------------------------------------------------------------------------
  // Upper-casing

  function UpperChar(c: char): char {
    if 'a' <= c <= 'z' then (c as int - 'a' as int + 'A' as int) as char else c
  }

  /** `s.toUpperCase()` on ASCII letters; every other character is kept. */
  function Upper(s: string): (r: string)
    ensures |r| == |s|
  {
    seq(|s|, i requires 0 <= i < |s| => UpperChar(s[i]))
  }

  /** A string without lower-case ASCII letters is its own upper-case form. */
  lemma UpperOfUpperCase(s: string)
    requires forall k :: 0 <= k < |s| ==> !('a' <= s[k] <= 'z')
    ensures Upper(s) == s
  {
  }

  /** Upper-casing twice is upper-casing once. */
  lemma UpperIdempotent(s: string)
    ensures Upper(Upper(s)) == Upper(s)
  {
  }

  function LowerChar(c: char): char {
    if 'A' <= c <= 'Z' then (c as int - 'A' as int + 'a' as int) as char else c
  }

  /** `s.lower()` on ASCII letters; every other character is kept. */
  function Lower(s: string): (r: string)
    ensures |r| == |s|
  {
    seq(|s|, i requires 0 <= i < |s| => LowerChar(s[i]))
  }

  /** Lower-casing ignores a prior upper-casing. */
  lemma LowerOfUpper(s: string)
    ensures Lower(Upper(s)) == Lower(s)
  {
  }

  // ---------------------------------------------------------------------------
  // Binary numerals

  function Pow2(n: nat): (p: nat)
    ensures p >= 1
  {
    if n == 0 then 1 else 2 * Pow2(n - 1)
  }

  function BitChar(b: nat): char
    requires b < 2
  {
    if b == 0 then '0' else '1'
  }

  /** A string made of the digits '0' and '1' only. */
  predicate IsBits(s: string) {
    forall k :: 0 <= k < |s| ==> s[k] == '0' || s[k] == '1'
  }

  /** `i.toString(2)`: the shortest binary numeral of `i` ("0" for zero). */
  function Binary(i: nat): (s: string)
    ensures |s| >= 1
    ensures IsBits(s)
  {
    if i < 2 then [BitChar(i)] else Binary(i / 2) + [BitChar(i % 2)]
  }

  /** The `w` low bits of `i`, most significant first. */
  function Bits(i: nat, w: nat): (s: string)
    ensures |s| == w
  {
    if w == 0 then [] else Bits(i / 2, w - 1) + [BitChar(i % 2)]
  }

  /** The number a string of '0'/'1' digits denotes (any other character reads as 1). */
  function BinaryValue(s: string): nat {
    if s == [] then 0 else 2 * BinaryValue(s[..|s| - 1]) + (if s[|s| - 1] == '0' then 0 else 1)
  }

  /** `s.padStart(w, c)`: `c` repeated in front of `s` up to length `w`; never truncates. */
  function PadStart(s: string, w: nat, c: char): (r: string)
    ensures |r| == if |s| >= w then |s| else w
    ensures r[|r| - |s|..] == s
    ensures forall k :: 0 <= k < |r| - |s| ==> r[k] == c
  {
    if |s| >= w then s else seq(w - |s|, _ => c) + s
  }

  /** `i.toString(2).padStart(w, '0')`. */
  function PaddedBinary(i: nat, w: nat): string {
    PadStart(Binary(i), w, '0')
  }

  /** A padded numeral is made of binary digits and is `w` long unless `i` needs more digits. */
  lemma PaddedBinaryDigits(i: nat, w: nat)
    ensures |PaddedBinary(i, w)| == if |Binary(i)| >= w then |Binary(i)| else w
    ensures IsBits(PaddedBinary(i, w))
  {
    var b, r := Binary(i), PaddedBinary(i, w);
    forall k | 0 <= k < |r| ensures r[k] == '0' || r[k] == '1' {
      if k >= |r| - |b| {
        assert r[k] == r[|r| - |b|..][k - (|r| - |b|)];
      }
    }
  }

  /** Reading back a fixed-width numeral gives the number. */
  lemma {:induction false} BitsValue(i: nat, w: nat)
    requires i < Pow2(w)
    ensures BinaryValue(Bits(i, w)) == i
  {
    if w > 0 {
      BitsValue(i / 2, w - 1);
      assert Bits(i, w)[..w - 1] == Bits(i / 2, w - 1);
    }
  }

  /** Reading back `i.toString(2)` gives `i`. */
  lemma {:induction false} BinaryRoundTrip(i: nat)
    ensures BinaryValue(Binary(i)) == i
  {
    if i >= 2 {
      BinaryRoundTrip(i / 2);
      assert Binary(i)[..|Binary(i)| - 1] == Binary(i / 2);
    }
  }

  /** Fixed-width numerals of numbers below 2^w are pairwise distinct. */
  lemma BitsInjective(i: nat, j: nat, w: nat)
    requires i < Pow2(w) && j < Pow2(w)
    requires Bits(i, w) == Bits(j, w)
    ensures i == j
  {
    BitsValue(i, w);
    BitsValue(j, w);
  }

  /** A number below 2^w (w >= 1) has a shortest numeral of at most w digits. */
  lemma {:induction false} BinaryShort(i: nat, w: nat)
    requires w >= 1 && i < Pow2(w)
    ensures |Binary(i)| <= w
  {
    if i >= 2 {
      BinaryShort(i / 2, w - 1);
    }
  }

  /** Padding the shortest numeral to width w >= 1 gives the w-bit numeral. */
  lemma {:induction false} PaddedBinaryIsBits(i: nat, w: nat)
    requires w >= 1 && i < Pow2(w)
    ensures PaddedBinary(i, w) == Bits(i, w)
  {
    BinaryShort(i, w);
    if i < 2 {
      ZeroBits(0, w - 1);
      assert Bits(i, w) == Bits(0, w - 1) + [BitChar(i)];
    } else {
      PaddedBinaryIsBits(i / 2, w - 1);
      assert PaddedBinary(i, w) == PaddedBinary(i / 2, w - 1) + [BitChar(i % 2)];
    }
  }

  /** The w-bit numeral of zero is w '0' characters. */
  lemma {:induction false} ZeroBits(i: nat, w: nat)
    requires i == 0
    ensures Bits(i, w) == seq(w, _ => '0')
  {
    if w > 0 {
      ZeroBits(0, w - 1);
    }
  }

  /** Leading '0' characters do not change the value of a numeral. */
  lemma {:induction false} LeadingZerosValue(z: nat, s: string)
    ensures BinaryValue(seq(z, _ => '0') + s) == BinaryValue(s)
  {
    var zeros: string := seq(z, _ => '0');
    if s == [] {
      assert zeros + s == zeros;
      ZerosValue(z);
    } else {
      var init := s[..|s| - 1];
      LeadingZerosValue(z, init);
      assert (zeros + s)[..|zeros + s| - 1] == zeros + init;
    }
  }

  lemma {:induction false} ZerosValue(z: nat)
    ensures BinaryValue(seq(z, _ => '0')) == 0
  {
    if z > 0 {
      ZerosValue(z - 1);
      assert seq(z, _ => '0')[..z - 1] == seq(z - 1, _ => '0');
    }
  }

  /** Reading back `i.toString(2).padStart(w, '0')` gives `i`, whatever the width. */
  lemma PaddedBinaryValue(i: nat, w: nat)
    ensures BinaryValue(PaddedBinary(i, w)) == i
  {
    var b := Binary(i);
    BinaryRoundTrip(i);
    if |b| < w {
      LeadingZerosValue(w - |b|, b);
    }
  }

  /** Padded numerals of numbers below 2^w (w >= 1) have length w and are pairwise distinct. */
  lemma PaddedBinaryDistinct(i: nat, j: nat, w: nat)
    requires w >= 1 && i < Pow2(w) && j < Pow2(w) && i != j
    ensures |PaddedBinary(i, w)| == w
    ensures PaddedBinary(i, w) != PaddedBinary(j, w)
  {
    PaddedBinaryIsBits(i, w);
    PaddedBinaryIsBits(j, w);
    if Bits(i, w) == Bits(j, w) {
      BitsInjective(i, j, w);
    }
  }

  // ---------------------------------------------------------------------------
  // Decimal numerals

  function DigitChar(d: nat): char
    requires d < 10
  {
    "0123456789"[d]
  }

  function NatToString(n: nat): (s: string)
    ensures |s| >= 1
  {
    if n < 10 then [DigitChar(n)] else NatToString(n / 10) + [DigitChar(n % 10)]
  }

  /** An integer in a template literal: decimal, with a leading '-' when negative. */
  function IntToString(i: int): string {
    if i < 0 then "-" + NatToString(-i) else NatToString(i)
  }

  function DigitValue(c: char): nat {
    if '0' <= c <= '9' then c as int - '0' as int else 0
  }

  function DecimalValue(s: string): nat {
    if s == [] then 0 else 10 * DecimalValue(s[..|s| - 1]) + DigitValue(s[|s| - 1])
  }

  /** The signed number a formatted integer denotes. */
  function ParseInt(s: string): int {
    if |s| > 0 && s[0] == '-' then -(DecimalValue(s[1..]) as int) else DecimalValue(s)
  }

  lemma {:induction false} NatRoundTrip(n: nat)
    ensures DecimalValue(NatToString(n)) == n
    ensures NatToString(n)[0] != '-'
  {
    if n >= 10 {
      NatRoundTrip(n / 10);
      assert NatToString(n)[..|NatToString(n)| - 1] == NatToString(n / 10);
    }
  }

  /** Parsing a formatted integer gives it back, so distinct indices print differently. */
  lemma IntRoundTrip(i: int)
    ensures ParseInt(IntToString(i)) == i
  {
    var s := IntToString(i);
    if i < 0 {
      var d := NatToString(-i);
      NatRoundTrip(-i);
      assert s == "-" + d;
      assert s[0] == '-' && s[1..] == d;
      assert ParseInt(s) == -(DecimalValue(d) as int);
    } else {
      NatRoundTrip(i);
      assert s == NatToString(i) && s[0] != '-';
    }
  }

  // ---------------------------------------------------------------------------
  // Concatenation, stated over plain sequences so that proofs about long
  // rendered texts and call lists can use these facts without unfolding them

  lemma AppendAssociative<T>(a: seq<T>, b: seq<T>, c: seq<T>)
    ensures (a + b) + c == a + (b + c)
  {
  }

  lemma PrefixOfAppend(a: string, b: string)
    ensures a <= a + b
  {
  }

  // ---------------------------------------------------------------------------
  // String `<` as in JavaScript: lexicographic by character, a proper prefix
  // comes first. Characters are compared as code points; JavaScript compares
  // UTF-16 code units, which gives the same order for strings without
  // characters above U+FFFF

  predicate StrLess(a: string, b: string) {
    if a == [] then b != []
    else if b == [] then false
    else if a[0] != b[0] then a[0] < b[0]
    else StrLess(a[1..], b[1..])
  }

  lemma {:induction false} StrLessIrreflexive(a: string)
    ensures !StrLess(a, a)
  {
    if a != [] {
      StrLessIrreflexive(a[1..]);
    }
  }

  lemma {:induction false} StrLessTransitive(a: string, b: string, c: string)
    requires StrLess(a, b) && StrLess(b, c)
    ensures StrLess(a, c)
  {
    if a != [] && b != [] && c != [] && a[0] == b[0] == c[0] {
      StrLessTransitive(a[1..], b[1..], c[1..]);
    }
  }

  /** Two different strings are ordered one way or the other. */
  lemma {:induction false} StrLessTotal(a: string, b: string)
    requires a != b
    ensures StrLess(a, b) || StrLess(b, a)
  {
    if a != [] && b != [] && a[0] == b[0] {
      assert a == [a[0]] + a[1..] && b == [b[0]] + b[1..];
      StrLessTotal(a[1..], b[1..]);
    }
  }

  lemma StrLessAsymmetric(a: string, b: string)
    requires StrLess(a, b)
    ensures !StrLess(b, a)
  {
    if StrLess(b, a) {
      StrLessTransitive(a, b, a);
      StrLessIrreflexive(a);
    }
  }
}
