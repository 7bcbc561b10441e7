/** Powers of two and the division/modulus facts that the bit-extraction
    proofs rest on. Machine integers are modelled as bounded `nat`s. */
module Arith {

  /** 2^n, unfolded a byte at a time so that the verifier can evaluate it
      at every exponent up to 64 directly. */
  function Pow2(n: nat): (r: nat)
    ensures r >= 1
  {
    if n >= 8 then 256 * Pow2(n - 8)
    else if n >= 4 then 16 * Pow2(n - 4)
    else if n >= 1 then 2 * Pow2(n - 1)
    else 1
  }

  /** 2^64: one more than the largest u64. */
  const WORD: nat := 0x1_0000_0000_0000_0000

  /** A Rust `u64`. */
  type U64 = x: nat | x < WORD

  lemma Pow2Word()
    ensures Pow2(64) == WORD
  {
  }

  lemma {:induction false} Pow2Succ(n: nat)
    ensures Pow2(n + 1) == 2 * Pow2(n)
  {
    if n >= 8 {
      Pow2Succ(n - 8);
    } else if n == 7 {
      assert Pow2(8) == 256 && Pow2(7) == 128;
    } else if n == 3 {
      assert Pow2(4) == 16 && Pow2(3) == 8;
    } else if n >= 4 {
      Pow2Succ(n - 4);
    }
  }

  lemma Double(x: int, y: int)
    ensures (2 * x) * y == 2 * (x * y)
  {
  }

  lemma {:induction false} Pow2Add(a: nat, b: nat)
    ensures Pow2(a + b) == Pow2(a) * Pow2(b)
  {
    if a == 0 {
      assert Pow2(0) == 1;
    } else {
      Pow2Add(a - 1, b);
      Pow2Succ(a - 1 + b);
      Pow2Succ(a - 1);
      Double(Pow2(a - 1), Pow2(b));
    }
  }

  lemma {:induction false} Pow2Monotone(a: nat, b: nat)
    requires a <= b
    ensures Pow2(a) <= Pow2(b)
  {
    if a < b {
      Pow2Monotone(a, b - 1);
      Pow2Succ(b - 1);
    }
  }

  lemma MulNonneg(a: int, b: int)
    requires a >= 0 && b >= 0
    ensures a * b >= 0
  {
  }

  lemma DivModParts(v: int, d: int)
    requires d > 0
    ensures (v / d) * d + v % d == v
  {
  }

  /** The quotient and remainder of a division are unique. */
  lemma DivModUnique(x: int, d: int, q: int, r: int)
    requires d > 0 && 0 <= r < d && x == q * d + r
    ensures x / d == q && x % d == r
  {
    var q', r' := x / d, x % d;
    assert x == q' * d + r';
    assert (q - q') * d == r' - r;
    if q > q' {
      MulNonneg(q - q' - 1, d);
    } else if q < q' {
      MulNonneg(q' - q - 1, d);
    }
  }

  lemma MulStrict(r: nat, b: nat, a: nat)
    requires r < b && a > 0
    ensures r * a < b * a
  {
    MulNonneg(b - r - 1, a);
    assert b * a == r * a + a + (b - r - 1) * a;
  }

  lemma DivThenModGeneric(v: nat, N: nat, M: nat)
    requires N > 0 && M > 0
    ensures N * M > 0
    ensures (v / N) % M == (v % (N * M)) / N
  {
    MulStrict(0, N, M);
    var q, r := v / (N * M), v % (N * M);
    DivModParts(v, N * M);
    var r1, r0 := r / N, r % N;
    DivModParts(r, N);
    DivBelow(r, N, M);
    assert v == (q * M + r1) * N + r0;
    DivModUnique(v, N, q * M + r1, r0);
    DivModUnique(v / N, M, q, r1);
  }

  /** A value below `N * M` has fewer than `M` multiples of `N` in it. */
  lemma DivBelow(r: nat, N: nat, M: nat)
    requires N > 0 && r < N * M
    ensures r / N < M
  {
    DivModParts(r, N);
    if r / N >= M {
      MulMono(r / N, M, N);
    }
  }

  /** Division of a natural number by a positive one stays a natural number
      no larger than the dividend. */
  lemma DivBounds(v: nat, d: nat)
    requires d > 0
    ensures 0 <= v / d <= v
  {
    DivModParts(v, d);
    if v / d < 0 {
      MulMono(-1, v / d, d);
    } else {
      MulMono(v / d, v / d, d - 1);
    }
  }

  lemma MulModGeneric(v: nat, A: nat, B: nat)
    requires A > 0 && B > 0
    ensures A * B > 0
    ensures (v * A) % (A * B) == (v % B) * A
  {
    MulStrict(0, A, B);
    var q, r := v / B, v % B;
    assert v == q * B + r;
    assert v * A == q * (A * B) + r * A;
    MulStrict(r, B, A);
    DivModUnique(v * A, A * B, q, r * A);
  }

  lemma MulDivGeneric(v: nat, A: nat, S: nat)
    requires A > 0 && S > 0
    ensures A * S > 0
    ensures (v * A) / (A * S) == v / S
  {
    MulStrict(0, A, S);
    var q, r := v / S, v % S;
    assert v == q * S + r;
    assert v * A == q * (A * S) + r * A;
    MulStrict(r, S, A);
    DivModUnique(v * A, A * S, q, r * A);
  }

  lemma MulMono(a: int, b: int, c: int)
    requires a >= b && c >= 0
    ensures a * c >= b * c
  {
    MulNonneg(a - b, c);
  }

  lemma ModModGeneric(v: nat, N: nat, M: nat)
    requires N > 0 && M > 0
    ensures N * M > 0
    ensures (v % (N * M)) % N == v % N
  {
    MulStrict(0, N, M);
    var q, r := v / (N * M), v % (N * M);
    assert v == q * (N * M) + r;
    var r1, r0 := r / N, r % N;
    assert r == r1 * N + r0;
    assert v == (q * M + r1) * N + r0;
    DivModUnique(v, N, q * M + r1, r0);
  }

  /** Dropping the low `n` bits and then keeping `m` of the rest is the
      same as keeping the low `n + m` bits and then dropping `n` of them. */
  lemma DivThenMod(v: nat, n: nat, m: nat)
    ensures (v / Pow2(n)) % Pow2(m) == (v % Pow2(n + m)) / Pow2(n)
  {
    Pow2Add(n, m);
    DivThenModGeneric(v, Pow2(n), Pow2(m));
  }

  /** Shifting left by `a` inside a word of `a + b` bits keeps exactly the
      low `b` bits of the value, moved up by `a`. */
  lemma MulMod(v: nat, a: nat, b: nat)
    ensures (v * Pow2(a)) % Pow2(a + b) == (v % Pow2(b)) * Pow2(a)
  {
    Pow2Add(a, b);
    MulModGeneric(v, Pow2(a), Pow2(b));
  }

  /** Shifting right by `a + s` after a left shift by `a` is a right shift by `s`. */
  lemma MulDiv(v: nat, a: nat, s: nat)
    ensures (v * Pow2(a)) / Pow2(a + s) == v / Pow2(s)
  {
    Pow2Add(a, s);
    MulDivGeneric(v, Pow2(a), Pow2(s));
  }

  /** Keeping the low `a + b` bits and then the low `a` of those is keeping the low `a`. */
  lemma ModMod(v: nat, a: nat, b: nat)
    ensures (v % Pow2(a + b)) % Pow2(a) == v % Pow2(a)
  {
    Pow2Add(a, b);
    ModModGeneric(v, Pow2(a), Pow2(b));
  }

  /** A value of `w` bits moved up by `n` stays inside the word when
      `w + n` is at most 64. */
  lemma ShiftFits(v: nat, w: nat, n: nat)
    requires v < Pow2(w) && w + n <= 64
    ensures v * Pow2(n) < WORD
  {
    var A, B := Pow2(w), Pow2(n);
    Pow2Add(w, n);
    Pow2Monotone(w + n, 64);
    Pow2Word();
    ShiftBelow(v, A, B);
  }

  lemma ShiftBelow(v: nat, A: nat, B: nat)
    requires v < A && B >= 1
    ensures v * B < A * B
  {
    MulMono(A, v + 1, B);
    assert (v + 1) * B == v * B + B;
  }

  /** The quotient of a value below `N * M` by `N` is already below `M`. */
  lemma DivSmall(v: nat, N: nat, M: nat)
    requires N > 0 && M > 0 && v < N * M
    ensures (v / N) % M == v / N
  {
    DivBelow(v, N, M);
    var q := v / N;
    DivModUnique(q, M, 0, q);
  }

  /** A value below 2^n is unchanged by reduction modulo 2^n. */
  lemma SmallMod(v: nat, n: nat)
    requires v < Pow2(n)
    ensures v % Pow2(n) == v && v / Pow2(n) == 0
  {
    DivModUnique(v, Pow2(n), 0, v);
  }

  /** The middle digit of `hi * (P * K) + p * P + lo` in the mixed radix (P, K). */
  lemma MiddleDigit(hi: nat, p: nat, lo: nat, P: nat, K: nat)
    requires P > 0 && K > 0 && p < K && lo < P
    ensures ((hi * (P * K) + p * P + lo) / P) % K == p
  {
    var v := hi * (P * K) + p * P + lo;
    assert v == (hi * K + p) * P + lo;
    DivModUnique(v, P, hi * K + p, lo);
    DivModUnique(hi * K + p, K, hi, p);
  }
}
