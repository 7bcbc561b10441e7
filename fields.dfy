/** `BitField<T, START, END>`: the bits `START..END` of a raw register
    word, kept right-aligned, with the decoder `T` that prints them. */
module Fields {
  import opened Arith
  import opened BitOps
  import opened Results
  import opened Fmt
  import opened Decoders

  /** The value of a bit field: its span, its decoder and its stored bits. */
  datatype Field = Field(start: nat, end: nat, decoder: Decoder, val: U64)

  /** `size()`: the number of bits a span covers. */
  function SpanSize(start: nat, end: nat): (n: nat)
    requires start <= end
    ensures n >= 1 && end == start + n - 1
  {
    end - start + 1
  }

  /** A span `new` accepts: ordered (its `assert!`) and inside a `u64`
      (the `assert!`s of `get_bit`/`get_bits`). */
  predicate SpanOk(start: nat, end: nat)
  {
    start <= end <= 63
  }

  /** `BitField::new(raw)`: a one-bit field takes `get_bit(raw, START)`,
      any other `get_bits(raw, START, END)`. */
  function New(start: nat, end: nat, decoder: Decoder, raw: U64): Field
    requires SpanOk(start, end)
  {
    if SpanSize(start, end) == 1 then Field(start, end, decoder, GetBit(raw, start, 64))
    else Field(start, end, decoder, GetBits(raw, start, end, 64))
  }

  /** The stored bits are exactly the span's bits of the raw word, so they
      fit in the field; the one-bit shortcut changes nothing. */
  lemma NewMeaning(start: nat, end: nat, decoder: Decoder, raw: U64)
    requires SpanOk(start, end)
    ensures var f := New(start, end, decoder, raw);
      f.start == start && f.end == end && f.decoder == decoder &&
      f.val == GetBits(raw, start, end, 64) &&
      f.val == Window(raw, start, SpanSize(start, end)) &&
      f.val < Pow2(SpanSize(start, end))
  {
    GetBitsIsWindow(raw, start, end, 64);
    if start == end {
      GetBitIsGetBits(raw, start, 64);
    }
  }

  /** A field can be printed when its decoder accepts its value. */
  predicate Printable(f: Field)
  {
    f.start <= f.end && Decodable(f.decoder, f.val, SpanSize(f.start, f.end))
  }

  /** `Display`: the decoder applied to the value and the field size. */
  function Display(f: Field): string
    requires Printable(f)
  {
    Decode(f.decoder, f.val, SpanSize(f.start, f.end))
  }

  /** Every field `new` builds can be printed when its decoder prints every
      value that fits, and it prints on one line. */
  lemma NewPrintable(start: nat, end: nat, decoder: Decoder, raw: U64)
    requires SpanOk(start, end) && Total(decoder)
    ensures Printable(New(start, end, decoder, raw))
    ensures SingleLine(Display(New(start, end, decoder, raw)))
  {
    NewMeaning(start, end, decoder, raw);
    var f := New(start, end, decoder, raw);
    TotalDecodable(decoder, f.val, SpanSize(start, end));
    DecodeSingleLine(decoder, f.val, SpanSize(start, end));
  }

  /** The guard of `set_value` as written, `x < 1 << size()` on a `u64`, in
      a build with overflow checks: `None` when computing `1 << size()`
      panics, otherwise whether the assertion passes. */
  function SetGuardChecked(x: U64, size: nat): Option<bool>
  {
    match ShlChecked(1, size)
    case None => None
    case Some(p) => Some(x < p)
  }

  /** The same guard in a release build, where the shift amount wraps. */
  predicate SetGuardWrapping(x: U64, size: nat)
  {
    x < ShlWrapping(1, size)
  }

  /** The guard with the meaning its documentation gives it: the value fits
      in `size` bits. */
  predicate Fits(x: nat, size: nat)
  {
    x < Pow2(size)
  }

  /** Below 64 bits the written guard, in either build, is exactly the
      intended one. */
  lemma SetGuardsAgree(x: U64, size: nat)
    requires 1 <= size < 64
    ensures SetGuardChecked(x, size) == Some(Fits(x, size))
    ensures SetGuardWrapping(x, size) <==> Fits(x, size)
  {
    Pow2Monotone(size + 1, 64);
    Pow2Succ(size);
    Pow2Word();
    ShlNoWrap(1, size, 64);
  }

  /** At 64 bits every `u64` fits, but the written guard panics for every
      value with overflow checks and passes only 0 without them. */
  lemma SetGuardWholeWord(x: U64)
    ensures Fits(x, 64)
    ensures SetGuardChecked(x, 64) == None
    ensures SetGuardWrapping(x, 64) <==> x == 0
  {
    Pow2Word();
  }

  /** The source's tests: `size()` of bits 4..7 is 4 and bits 2..5 of
      0x4756 are 5. */
  lemma UnitTestNew()
    ensures SpanSize(4, 7) == 4
    ensures New(2, 5, Bin, 0x4756).val == 5
  {
    NewMeaning(2, 5, Bin, 0x4756);
    assert Pow2(2) == 4 && Pow2(4) == 16;
  }

  /** The source's test: bits 0..5 of 5 print as "0b000101". */
  lemma UnitTestFormat()
    ensures Printable(New(0, 5, Bin, 5)) && Display(New(0, 5, Bin, 5)) == "0b000101"
  {
    NewMeaning(0, 5, Bin, 5);
    var f := New(0, 5, Bin, 5);
    assert Pow2(0) == 1 && Pow2(6) == 64;
    assert f.val == 5;
    BinaryLength(5, 6);
    BinTextExample();
  }

  /** A bit field object, whose value `set_value` overwrites in place. */
  class BitField {
    const start: nat
    const end: nat
    const decoder: Decoder
    var val: U64

    /** The span is one `new` accepts and the value fits in it. */
    ghost predicate Valid()
      reads this
    {
      SpanOk(start, end) && Fits(val, SpanSize(start, end))
    }

    /** `value()` */
    function Value(): U64
      reads this
    {
      val
    }

    /** The field as a value. */
    function AsField(): Field
      reads this
    {
      Field(start, end, decoder, val)
    }

    /** `BitField::new(raw)` (and `From<u64>`, which calls it). */
    constructor (start: nat, end: nat, decoder: Decoder, raw: U64)
      requires SpanOk(start, end)
      ensures AsField() == New(start, end, decoder, raw) && Valid()
    {
      this.start := start;
      this.end := end;
      this.decoder := decoder;
      var f := New(start, end, decoder, raw);
      NewMeaning(start, end, decoder, raw);
      this.val := f.val;
    }

    /** `size()` */
    function Size(): (n: nat)
      requires start <= end
      ensures n == end - start + 1
    {
      SpanSize(start, end)
    }

    /** `set_value(x)`: the value must fit in the field; afterwards it is the
        value and nothing else of the field has changed. */
    method SetValue(x: U64)
      requires Valid() && Fits(x, Size())
      modifies this
      ensures Value() == x && AsField() == old(AsField()).(val := x) && Valid()
    {
      val := x;
    }
  }
}
