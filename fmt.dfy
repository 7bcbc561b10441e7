/** The pieces of Rust's `format!` that the decoders use: unpadded
    binary (`{:b}`), lower-case hex (`{:x}`) and decimal (`{}`) numerals,
    zero padding, ASCII lower-casing and the coloured warning wrapper. */
module Fmt {
  import opened Arith

  /** The numeral digit for `d`: '0'..'9' then 'a'..'f'. */
  function DigitChar(d: nat): (c: char)
    requires d < 16
  {
    if d < 10 then ('0' as int + d) as char else ('a' as int + d - 10) as char
  }

  /** The value of a numeral digit; 0 for anything that is not one. */
  function DigitValue(c: char): nat
  {
    if '0' <= c <= '9' then c as int - '0' as int
    else if 'a' <= c <= 'f' then c as int - 'a' as int + 10
    else 0
  }

  /** The characters a numeral in `base` is written with. */
  predicate IsDigit(c: char, base: nat)
  {
    ('0' <= c <= '9' && c as int - '0' as int < base) || ('a' <= c <= 'f' && c as int - 'a' as int + 10 < base)
  }

  predicate IsNumeral(s: string, base: nat)
  {
    forall i :: 0 <= i < |s| ==> IsDigit(s[i], base)
  }

  /** The numeral of `v` in `base`, most significant digit first, without
      leading zeros: the text Rust's `{:b}`, `{}` and `{:x}` produce. */
  function Digits(v: nat, base: nat): (s: string)
    requires 2 <= base <= 16
    decreases v
  {
    if v < base then [DigitChar(v)] else Digits(v / base, base) + [DigitChar(v % base)]
  }

  /** `format!("{:b}", v)` */
  function Binary(v: nat): string
  {
    Digits(v, 2)
  }

  /** `format!("{:x}", v)` */
  function LowerHex(v: nat): string
  {
    Digits(v, 16)
  }

  /** `format!("{}", v)` */
  function Decimal(v: nat): string
  {
    Digits(v, 10)
  }

  /** The value a numeral denotes, read most significant digit first. */
  function ValueOf(s: string, base: nat): nat
  {
    if s == [] then 0 else ValueOf(s[..|s| - 1], base) * base + DigitValue(s[|s| - 1])
  }

  lemma DigitRoundTrip(d: nat, base: nat)
    requires d < base <= 16
    ensures DigitValue(DigitChar(d)) == d && IsDigit(DigitChar(d), base)
    ensures DigitChar(d) != '\n'
  {
  }

  /** Reading back a numeral gives the value it was written from. */
  lemma {:induction false} DigitsRoundTrip(v: nat, base: nat)
    requires 2 <= base <= 16
    ensures ValueOf(Digits(v, base), base) == v
    decreases v
  {
    if v < base {
      DigitRoundTrip(v, base);
      assert Digits(v, base)[..0] == [];
    } else {
      var q, r := v / base, v % base;
      DivModParts(v, base);
      DivDecreases(v, base);
      DigitsRoundTrip(q, base);
      DigitRoundTrip(r, base);
      var t := Digits(q, base);
      assert Digits(v, base) == t + [DigitChar(r)];
      ValueOfSnoc(t, DigitChar(r), base);
    }
  }

  lemma DivDecreases(v: nat, base: nat)
    requires base >= 2 && v >= 1
    ensures v / base < v
  {
    DivModParts(v, base);
    if v / base >= v {
      MulMono(v / base, v, base);
      MulMono(base, 2, v);
    }
  }

  lemma ValueOfSnoc(t: string, c: char, base: nat)
    ensures ValueOf(t + [c], base) == ValueOf(t, base) * base + DigitValue(c)
  {
    assert (t + [c])[..|t|] == t;
  }

  /** A numeral is made of the digits of its base only. */
  lemma {:induction false} DigitsAreDigits(v: nat, base: nat)
    requires 2 <= base <= 16
    ensures IsNumeral(Digits(v, base), base)
    decreases v
  {
    if v < base {
      DigitRoundTrip(v, base);
    } else {
      DigitsAreDigits(v / base, base);
      DigitRoundTrip(v % base, base);
    }
  }

  /** A numeral is never empty and starts with '0' only when it is "0" itself. */
  lemma {:induction false} DigitsCanonical(v: nat, base: nat)
    requires 2 <= base <= 16
    ensures |Digits(v, base)| >= 1
    ensures Digits(v, base)[0] == '0' <==> v == 0
    ensures v == 0 ==> Digits(v, base) == "0"
    decreases v
  {
    if v >= base {
      var q := v / base;
      DivModParts(v, base);
      DivDecreases(v, base);
      DigitsCanonical(q, base);
      DigitRoundTrip(v % base, base);
      assert q != 0;
      assert Digits(v, base) == Digits(q, base) + [DigitChar(v % base)];
    } else {
      DigitRoundTrip(v, base);
    }
  }

  /** Different values have different numerals. */
  lemma DigitsInjective(v1: nat, v2: nat, base: nat)
    requires 2 <= base <= 16
    ensures Digits(v1, base) == Digits(v2, base) <==> v1 == v2
  {
    DigitsRoundTrip(v1, base);
    DigitsRoundTrip(v2, base);
  }

  /** The binary numeral of `v` fits in `n` digits exactly when `v < 2^n`. */
  lemma {:induction false} BinaryLength(v: nat, n: nat)
    requires n >= 1
    ensures |Binary(v)| <= n <==> v < Pow2(n)
    decreases v
  {
    if v >= 2 {
      DigitsCanonical(v / 2, 2);
      Pow2Succ(n - 1);
      if n > 1 {
        BinaryLength(v / 2, n - 1);
      } else {
        assert Pow2(1) == 2;
      }
    } else {
      Pow2Monotone(1, n);
      assert Pow2(1) == 2;
    }
  }

  /** `c` repeated `n` times. */
  function Repeat(c: char, n: nat): (s: string)
    ensures |s| == n && forall i :: 0 <= i < n ==> s[i] == c
  {
    if n == 0 then [] else Repeat(c, n - 1) + [c]
  }

  /** `s` padded on the left with zeros to at least `width` characters. */
  function ZeroPad(s: string, width: nat): string
  {
    if |s| < width then Repeat('0', width - |s|) + s else s
  }

  lemma {:induction false} ZerosValue(n: nat, base: nat)
    ensures ValueOf(Repeat('0', n), base) == 0
  {
    if n > 0 {
      ZerosValue(n - 1, base);
      var z := Repeat('0', n);
      assert z[..n - 1] == Repeat('0', n - 1);
      assert ValueOf(z, base) == ValueOf(z[..n - 1], base) * base + DigitValue(z[n - 1]);
    }
  }

  /** Leading zeros do not change the value of a numeral. */
  lemma {:induction false} LeadingZerosValue(n: nat, s: string, base: nat)
    ensures ValueOf(Repeat('0', n) + s, base) == ValueOf(s, base)
    decreases |s|
  {
    var z := Repeat('0', n);
    if s == [] {
      assert z + s == z;
      ZerosValue(n, base);
    } else {
      LeadingZerosValue(n, s[..|s| - 1], base);
      assert (z + s)[..|z + s| - 1] == z + s[..|s| - 1];
    }
  }

  /** Zero padding keeps the value and the digit alphabet. */
  lemma ZeroPadNumeral(s: string, width: nat, base: nat)
    requires IsNumeral(s, base) && base >= 1
    ensures |ZeroPad(s, width)| == if |s| < width then width else |s|
    ensures ValueOf(ZeroPad(s, width), base) == ValueOf(s, base)
    ensures IsNumeral(ZeroPad(s, width), base)
  {
    if |s| < width {
      LeadingZerosValue(width - |s|, s, base);
      var p := ZeroPad(s, width);
      forall i | 0 <= i < |p| ensures IsDigit(p[i], base) {
        if i >= width - |s| {
          assert p[i] == s[i - (width - |s|)];
        }
      }
    }
  }

  /** A prefix and the rest are recovered from their concatenation. */
  lemma PrefixParts(p: string, t: string)
    ensures |p + t| == |p| + |t| && (p + t)[..|p|] == p && (p + t)[|p|..] == t
  {
  }

  /** ASCII lower-casing of one character. */
  function LowerChar(c: char): char
  {
    if 'A' <= c <= 'Z' then (c as int - 'A' as int + 'a' as int) as char else c
  }

  /** `str::to_lowercase` on ASCII text. */
  function Lower(s: string): (r: string)
    ensures |r| == |s|
  {
    seq(|s|, i requires 0 <= i < |s| => LowerChar(s[i]))
  }

  /** Lower-cased text has no upper-case ASCII letter, and lower-casing it
      again changes nothing. */
  lemma LowerIsLower(s: string)
    ensures forall i :: 0 <= i < |s| ==> !('A' <= Lower(s)[i] <= 'Z')
    ensures Lower(Lower(s)) == Lower(s)
  {
  }

  /** The terminal colour codes the source wraps every warning in. */
  const WARN_START: string := "\U{1B}[33m"
  const WARN_END: string := "\U{1B}[0m"

  /** A decoding warning: the message in the warning colour. */
  function Warn(msg: string): string
  {
    WARN_START + msg + WARN_END
  }

  /** Text in the warning colour: it starts with the escape character,
      which no other decoded text contains. */
  predicate IsWarning(s: string)
  {
    |s| > 0 && s[0] == '\U{1B}'
  }

  /** Text that does not start with the escape character is no warning. */
  lemma NotWarning(s: string)
    requires |s| > 0 && s[0] != '\U{1B}'
    ensures !IsWarning(s)
  {
  }

  /** The message of a warning is recoverable from the warning. */
  lemma WarnInjective(m1: string, m2: string)
    ensures IsWarning(Warn(m1))
    ensures Warn(m1) == Warn(m2) <==> m1 == m2
  {
    if Warn(m1) == Warn(m2) {
      assert m1 == Warn(m1)[|WARN_START|..|Warn(m1)| - |WARN_END|];
      assert m2 == Warn(m2)[|WARN_START|..|Warn(m2)| - |WARN_END|];
    }
  }

  /** Text that fits on one line. */
  predicate SingleLine(s: string)
  {
    '\n' !in s
  }

  /** A warning fits on one line when its message does. */
  lemma WarnSingleLine(m: string)
    requires SingleLine(m)
    ensures SingleLine(Warn(m))
  {
  }

  /** Text between two one-line texts is one line when it is itself. */
  lemma BetweenSingleLine(p: string, t: string, s: string)
    requires SingleLine(p) && SingleLine(t) && SingleLine(s)
    ensures SingleLine(p + t + s)
  {
  }

  /** A numeral between two one-line texts is one line. */
  lemma FramedSingleLine(p: string, v: nat, base: nat, s: string)
    requires 2 <= base <= 16 && SingleLine(p) && SingleLine(s)
    ensures SingleLine(p + Digits(v, base) + s)
  {
    DigitsSingleLine(v, base);
  }

  lemma NumeralSingleLine(s: string, base: nat)
    requires IsNumeral(s, base)
    ensures SingleLine(s)
  {
  }

  lemma DigitsSingleLine(v: nat, base: nat)
    requires 2 <= base <= 16
    ensures SingleLine(Digits(v, base))
  {
    DigitsAreDigits(v, base);
    NumeralSingleLine(Digits(v, base), base);
  }
}
