/** The physical address formats of `vmem::pa`. */
module PAddr {
  import opened Arith
  import opened BitOps
  import opened Fmt
  import opened Decoders
  import opened Fields
  import opened Registers

  /** Sv32 physical address. */
  const PADDR32: Layout := Layout("PAddr32", [
      Declare("page_offset", 0, 11, Hex),
      Declare("ppn", 12, 33, Ppn(Sv32))
    ])

  /** Sv39 physical address. */
  const PADDR39: Layout := Layout("PAddr39", [
      Declare("page_offset", 0, 11, Hex),
      Declare("ppn", 12, 55, Ppn(Sv39))
    ])

  /** Sv48 physical address. */
  const PADDR48: Layout := Layout("PAddr48", [
      Declare("page_offset", 0, 11, Hex),
      Declare("ppn", 12, 55, Ppn(Sv48))
    ])

  /** Sv57 physical address. */
  const PADDR57: Layout := Layout("PAddr57", [
      Declare("page_offset", 0, 11, Hex),
      Declare("ppn", 12, 55, Ppn(Sv57))
    ])

  /** The physical address format of a scheme. */
  function PaOf(s: Scheme): Layout
  {
    match s
    case Sv32 => PADDR32
    case Sv39 => PADDR39
    case Sv48 => PADDR48
    case Sv57 => PADDR57
  }

  /** The highest bit of the address: 34-bit addresses under Sv32, 56-bit
      ones otherwise. */
  function PaTop(s: Scheme): nat
  {
    if s == Sv32 then 33 else 55
  }

  /** A 12-bit page offset, then the page number, decoded by the scheme's
      page-number decoder, up to `PaTop`. */
  lemma PaShape(s: Scheme)
    ensures var l := PaOf(s);
      |l.fields| == 2 &&
      l.fields[0] == FieldSpec("page_offset", 0, 11, Hex) &&
      l.fields[1] == FieldSpec("ppn", 12, PaTop(s), Ppn(s))
  {
  }

  /** Every address bit from `PaTop` down is shown by exactly one field and
      none above it is shown. */
  lemma PaEachBitOnce(s: Scheme)
    ensures EachBitOnce(PaOf(s), PaTop(s))
  {
    PaShape(s);
    assert Tiles(SpansFrom(PaOf(s), true));
    TiledEachBitOnce(PaOf(s), PaTop(s), true);
  }

  /** The page-offset line: the address's low 12 bits in hex. */
  lemma PaOffsetLine(s: Scheme, raw: U64)
    ensures Lines(PaOf(s), raw)[2] == "page_offset: 0x" + LowerHex(raw % 4096)
  {
    PaShape(s);
    PageOffsetLine(PaOf(s), raw);
  }

  /** The page-number line: the page number, below 2^44, printed by the
      scheme's page-number decoder (`PpnTextPage` says what that prints). */
  lemma PaPpnLine(s: Scheme, raw: U64)
    ensures var v := Build(PaOf(s), raw)[1].val;
      v == Window(raw, 12, PaTop(s) - 11) && v < Pow2(44) &&
      Lines(PaOf(s), raw)[3] == "ppn: " + PpnText(s, v)
  {
    var l := PaOf(s);
    PaShape(s);
    BuildMeaning(l, raw, 1);
    PpnLine(l, 1, s, raw);
  }

  /** The page address is the address with its offset cleared, once the
      bits above `PaTop` are dropped; an address with none set there gives
      back the address itself minus its offset. */
  lemma PaPageAddress(s: Scheme, raw: U64)
    ensures Window(raw, 12, PaTop(s) - 11) * 4096 == raw % Pow2(PaTop(s) + 1) - raw % 4096
    ensures raw < Pow2(PaTop(s) + 1) ==> Window(raw, 12, PaTop(s) - 11) * 4096 == raw - raw % 4096
  {
    var top := PaTop(s);
    var k := top - 11;
    SplitAt(raw, 12, k);
    assert 12 + k == top + 1;
    assert Pow2(12) == 4096;
    if raw < Pow2(top + 1) {
      SmallMod(raw, top + 1);
    }
  }

  /** Sv48 and Sv57 addresses differ only in how the page number is
      grouped. */
  lemma PAddr48PAddr57()
    ensures Spans(PADDR48) == Spans(PADDR57) && PADDR48.fields[0] == PADDR57.fields[0]
    ensures PADDR48.fields[1].decoder == Ppn(Sv48) && PADDR57.fields[1].decoder == Ppn(Sv57)
  {
    PaShape(Sv48);
    PaShape(Sv57);
  }
}
