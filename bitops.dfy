/** The bit-extraction primitives `get_bit` and `get_bits`: a left shift
    that discards the bits above the span followed by a right shift that
    discards the bits below it, on an unsigned integer of width `w`. */
module BitOps {
  import opened Arith
  import opened Results

  /** The widths of the unsigned integer types the extractors are used at. */
  type Width = w: nat | w == 8 || w == 16 || w == 32 || w == 64 witness 8

  /** `v << n` on a `w`-bit unsigned integer: bits shifted past the top are lost. */
  function Shl(v: nat, n: nat, w: Width): (r: nat)
    requires n < w
    ensures r < Pow2(w)
  {
    (v * Pow2(n)) % Pow2(w)
  }

  /** `v << n` on a `u64` in a release build: the shift amount is taken
      modulo 64, so a shift by 64 leaves the value as it is. */
  function ShlWrapping(v: U64, n: nat): (r: U64)
    ensures n < 64 ==> r == Shl(v, n, 64)
    ensures n == 64 ==> r == v
  {
    Pow2Word();
    Shl(v, n % 64, 64)
  }

  /** `v << n` on a `u64` in a build with overflow checks: a shift by 64 or
      more panics (`None`); any other shift is the plain one. */
  function ShlChecked(v: U64, n: nat): (r: Option<U64>)
    ensures r.Some? <==> n < 64
    ensures r.Some? ==> r.value == ShlWrapping(v, n)
  {
    Pow2Word();
    if n < 64 then Some(Shl(v, n, 64)) else None
  }

  /** `v >> n` on an unsigned integer. */
  function Shr(v: nat, n: nat, w: Width): (r: nat)
    requires n < w
    ensures r <= v
  {
    DivBounds(v, Pow2(n));
    v / Pow2(n)
  }

  /** `get_bit(value, index)`: the index must name a bit of the type. */
  function GetBit(v: nat, index: nat, w: Width): (r: nat)
    requires v < Pow2(w) && index <= w - 1
    ensures r < Pow2(w)
  {
    var lastbit := w - 1;
    Shr(Shl(v, lastbit - index, w), lastbit, w)
  }

  /** `get_bits(value, start, end)`: the span must be ordered and inside the type. */
  function GetBits(v: nat, start: nat, end: nat, w: Width): (r: nat)
    requires v < Pow2(w) && start <= end <= w - 1
    ensures r < Pow2(w)
  {
    var lastbit := w - 1;
    Shr(Shl(v, lastbit - end, w), lastbit - end + start, w)
  }

  /** The mask of the low `n` bits of a value, the reference meaning of a span. */
  function Window(v: nat, start: nat, size: nat): (r: nat)
    ensures r < Pow2(size)
  {
    (v / Pow2(start)) % Pow2(size)
  }

  /** The shift pair computes exactly the span's bits, right-aligned. */
  lemma GetBitsIsWindow(v: nat, start: nat, end: nat, w: Width)
    requires v < Pow2(w) && start <= end <= w - 1
    ensures GetBits(v, start, end, w) == Window(v, start, end - start + 1)
    ensures GetBits(v, start, end, w) < Pow2(end - start + 1)
  {
    var a, k := w - 1 - end, end - start + 1;
    assert w == a + (start + k);
    MulMod(v, a, start + k);
    assert Shl(v, a, w) == (v % Pow2(start + k)) * Pow2(a);
    MulDiv(v % Pow2(start + k), a, start);
    DivThenMod(v, start, k);
  }

  /** A single bit is 0 or 1 and is the one-bit span at that index. */
  lemma GetBitIsGetBits(v: nat, index: nat, w: Width)
    requires v < Pow2(w) && index <= w - 1
    ensures GetBit(v, index, w) == GetBits(v, index, index, w)
    ensures GetBit(v, index, w) == Window(v, index, 1)
    ensures GetBit(v, index, w) == 0 || GetBit(v, index, w) == 1
  {
    GetBitsIsWindow(v, index, index, w);
    assert Pow2(1) == 2;
  }

  /** A value laid out as `hi` above the span, `p` in the span and `lo`
      below it gives back exactly `p`. */
  lemma GetBitsExtracts(v: nat, hi: nat, p: nat, lo: nat, start: nat, end: nat, w: Width)
    requires start <= end <= w - 1 && v < Pow2(w)
    requires p < Pow2(end - start + 1) && lo < Pow2(start)
    requires v == hi * Pow2(end + 1) + p * Pow2(start) + lo
    ensures GetBits(v, start, end, w) == p
  {
    var k := end - start + 1;
    var P, K := Pow2(start), Pow2(k);
    Pow2Add(start, k);
    assert Pow2(end + 1) == P * K;
    MiddleDigit(hi, p, lo, P, K);
    GetBitsIsWindow(v, start, end, w);
  }

  /** The low `s + k` bits of a value are its `k`-bit window at `s` placed
      above its low `s` bits. */
  lemma SplitAt(v: nat, s: nat, k: nat)
    ensures v % Pow2(s + k) == Window(v, s, k) * Pow2(s) + v % Pow2(s)
  {
    var r := v % Pow2(s + k);
    DivThenMod(v, s, k);
    DivModParts(r, Pow2(s));
    ModMod(v, s, k);
  }

  /** A span reaching the top of the word is a plain right shift. */
  lemma TopWindow(v: nat, s: nat)
    requires v < Pow2(64) && s <= 64
    ensures Window(v, s, 64 - s) == v / Pow2(s)
  {
    var k := 64 - s;
    Pow2Add(s, k);
    DivSmall(v, Pow2(s), Pow2(k));
  }

  /** A span starting at bit 0 is a plain mask. */
  lemma LowWindow(v: nat, n: nat)
    ensures Window(v, 0, n) == v % Pow2(n)
  {
    assert Pow2(0) == 1;
  }

  /** A left shift that pushes no set bit past the top is a multiplication. */
  lemma ShlNoWrap(v: nat, n: nat, w: Width)
    requires n < w && v * Pow2(n) < Pow2(w)
    ensures Shl(v, n, w) == v * Pow2(n)
  {
    DivModUnique(v * Pow2(n), Pow2(w), 0, v * Pow2(n));
  }

  /** The examples of the source's unit tests, on u8 and u16 values. */
  lemma UnitTestValues()
    ensures GetBit(0x02, 1, 8) == 1 && GetBit(0xfb, 2, 8) == 0
    ensures GetBit(0x4000, 14, 16) == 1 && GetBit(0xfdff, 9, 16) == 0
    ensures GetBits(0x0c, 2, 3, 8) == 3 && GetBits(0x3c, 2, 5, 8) == 0xf
  {
    GetBitIsGetBits(0x02, 1, 8);
    GetBitIsGetBits(0xfb, 2, 8);
    GetBitIsGetBits(0x4000, 14, 16);
    GetBitIsGetBits(0xfdff, 9, 16);
    GetBitsIsWindow(0x0c, 2, 3, 8);
    GetBitsIsWindow(0x3c, 2, 5, 8);
  }
}
