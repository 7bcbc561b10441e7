/** The earlier, decoder-less `BitField<START, END>`: only the stored bits
    of a span, with its own (identical) copies of `get_bit`/`get_bits`,
    which the model shares with `BitOps`. */
module LegacyBit {
  import opened Arith
  import opened BitOps
  import opened Decoders
  import Fields

  /** `BitField::new(raw)` (and `From`, which calls it): the stored bits are
      exactly the span's bits of the raw word, right-aligned. */
  function New(start: nat, end: nat, raw: U64): (r: U64)
    requires Fields.SpanOk(start, end)
    ensures r == Window(raw, start, Fields.SpanSize(start, end))
    ensures r < Pow2(Fields.SpanSize(start, end))
  {
    GetBitsIsWindow(raw, start, end, 64);
    if Fields.SpanSize(start, end) == 1 then
      GetBitIsGetBits(raw, start, 64);
      GetBit(raw, start, 64)
    else GetBits(raw, start, end, 64)
  }

  /** The two generations of `new` store the same bits, whatever the decoder. */
  lemma NewAgrees(start: nat, end: nat, d: Decoder, raw: U64)
    requires Fields.SpanOk(start, end)
    ensures New(start, end, raw) == Fields.New(start, end, d, raw).val
  {
    Fields.NewMeaning(start, end, d, raw);
  }

  /** The source's tests: `size()` of `<4, 7>` is 4 and `<2, 5>` of 0x4756
      holds 5. */
  lemma UnitTests()
    ensures Fields.SpanSize(4, 7) == 4
    ensures New(2, 5, 0x4756) == 5
  {
    assert Pow2(2) == 4 && Pow2(4) == 16;
  }

  /** A decoder-less bit field object, whose value `set_value` overwrites. */
  class BitField {
    const start: nat
    const end: nat
    var val: U64

    ghost predicate Valid()
      reads this
    {
      Fields.SpanOk(start, end) && Fields.Fits(val, Fields.SpanSize(start, end))
    }

    /** `value()` */
    function Value(): U64
      reads this
    {
      val
    }

    /** `BitField::new(raw)` */
    constructor (start: nat, end: nat, raw: U64)
      requires Fields.SpanOk(start, end)
      ensures this.start == start && this.end == end
      ensures Value() == New(start, end, raw) && Valid()
    {
      this.start := start;
      this.end := end;
      this.val := New(start, end, raw);
    }

    /** `size()` */
    function Size(): (n: nat)
      requires start <= end
      ensures n == end - start + 1
    {
      Fields.SpanSize(start, end)
    }

    /** `set_value(x)`: the value must fit in the field (the corrected
        guard, as for the newer field); afterwards it is the value and the
        span is unchanged. */
    method SetValue(x: U64)
      requires Valid() && Fields.Fits(x, Size())
      modifies this
      ensures Value() == x && Valid()
    {
      val := x;
    }
  }
}
