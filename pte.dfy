/** The page table entry formats of `vmem::pte`. */
module Pte {
  import opened Arith
  import opened BitOps
  import opened Fmt
  import opened Decoders
  import opened Registers

  /** Sv32 page table entry. */
  const PTE32: Layout := Layout("Pte32", [
      Declare("valid", 0, 0, Bin),
      Declare("read", 1, 1, Bin),
      Declare("write", 2, 2, Bin),
      Declare("exec", 3, 3, Bin),
      Declare("user", 4, 4, Bin),
      Declare("global", 5, 5, Bin),
      Declare("accessed", 6, 6, Bin),
      Declare("dirty", 7, 7, Bin),
      Declare("rsw", 8, 9, Bin),
      Declare("ppn", 10, 31, Ppn(Sv32))
    ])

  /** Sv39 page table entry. */
  const PTE39: Layout := Layout("Pte39", [
      Declare("valid", 0, 0, Bin),
      Declare("read", 1, 1, Bin),
      Declare("write", 2, 2, Bin),
      Declare("exec", 3, 3, Bin),
      Declare("user", 4, 4, Bin),
      Declare("global", 5, 5, Bin),
      Declare("accessed", 6, 6, Bin),
      Declare("dirty", 7, 7, Bin),
      Declare("rsw", 8, 9, Bin),
      Declare("ppn", 10, 53, Ppn(Sv39)),
      Declare("pbmt", 61, 62, Bin),
      Declare("n", 63, 63, Bin)
    ])

  /** Sv48 page table entry. */
  const PTE48: Layout := Layout("Pte48", [
      Declare("valid", 0, 0, Bin),
      Declare("read", 1, 1, Bin),
      Declare("write", 2, 2, Bin),
      Declare("exec", 3, 3, Bin),
      Declare("user", 4, 4, Bin),
      Declare("global", 5, 5, Bin),
      Declare("accessed", 6, 6, Bin),
      Declare("dirty", 7, 7, Bin),
      Declare("rsw", 8, 9, Bin),
      Declare("ppn", 10, 53, Ppn(Sv48)),
      Declare("pbmt", 61, 62, Bin),
      Declare("n", 63, 63, Bin)
    ])

  /** Sv57 page table entry. */
  const PTE57: Layout := Layout("Pte57", [
      Declare("valid", 0, 0, Bin),
      Declare("read", 1, 1, Bin),
      Declare("write", 2, 2, Bin),
      Declare("exec", 3, 3, Bin),
      Declare("user", 4, 4, Bin),
      Declare("global", 5, 5, Bin),
      Declare("accessed", 6, 6, Bin),
      Declare("dirty", 7, 7, Bin),
      Declare("rsw", 8, 9, Bin),
      Declare("ppn", 10, 53, Ppn(Sv57)),
      Declare("pbmt", 61, 62, Bin),
      Declare("n", 63, 63, Bin)
    ])

  /** The page table entry format of each scheme. */
  function PteOf(s: Scheme): Layout
  {
    match s
    case Sv32 => PTE32
    case Sv39 => PTE39
    case Sv48 => PTE48
    case Sv57 => PTE57
  }

  /** The eight permission and status flags, from bit 0 up. */
  const FLAGS: seq<string> := ["valid", "read", "write", "exec", "user", "global", "accessed", "dirty"]

  /** Every entry starts with the eight one-bit flags in bit order, then the
      two software bits `rsw`, then the page number from bit 10 up, printed
      as the scheme's page-number groups. */
  lemma PteFlags(s: Scheme)
    ensures var l := PteOf(s);
      |l.fields| >= 10 &&
      (forall i :: 0 <= i < 8 ==> l.fields[i] == FieldSpec(FLAGS[i], i, i, Bin)) &&
      l.fields[8] == FieldSpec("rsw", 8, 9, Bin) &&
      l.fields[9].ident == "ppn" && l.fields[9].start == 10 && l.fields[9].end <= 53 && l.fields[9].decoder == Ppn(s)
  {
  }

  /** Sv32: ten fields, the page number at bits 10..31 and nothing above,
      so that every bit of the 32-bit entry is shown once. */
  lemma Pte32Shape()
    ensures |PTE32.fields| == 10 && PTE32.fields[9].end == 31
    ensures EachBitOnce(PTE32, 31)
  {
    PteFlags(Sv32);
    assert Tiles(SpansFrom(PTE32, true));
    TiledEachBitOnce(PTE32, 31, true);
  }

  /** Sv39, Sv48 and Sv57: a 44-bit page number at bits 10..53, the memory
      type `pbmt` at 61..62 and the NAPOT bit `n` at 63. */
  lemma PteWideShape(s: Scheme)
    requires s != Sv32
    ensures var l := PteOf(s);
      |l.fields| == 12 && l.fields[9].end == 53 &&
      l.fields[10] == FieldSpec("pbmt", 61, 62, Bin) && l.fields[11] == FieldSpec("n", 63, 63, Bin)
  {
  }

  /** Bits 54..60 of those entries belong to no field. */
  lemma PteWideHidden(s: Scheme, b: nat)
    requires s != Sv32 && 54 <= b <= 60
    ensures !Shown(PteOf(s), b)
  {
    PteWideShape(s);
    PteFlags(s);
  }

  /** Sv48 and Sv57 entries differ only in the decoder of the page number. */
  lemma Pte48Pte57()
    ensures Spans(PTE48) == Spans(PTE57)
    ensures forall i :: 0 <= i < 12 && i != 9 ==> PTE48.fields[i] == PTE57.fields[i]
    ensures PTE48.fields[9].decoder == Ppn(Sv48) && PTE57.fields[9].decoder == Ppn(Sv57)
  {
    PteFlags(Sv48);
    PteFlags(Sv57);
    PteWideShape(Sv48);
    PteWideShape(Sv57);
  }

  /** The page-number line: the 44-bit (22-bit for Sv32) page number
      printed by the scheme's page-number decoder (`PpnTextPage` says what
      that prints). */
  lemma PtePpnLine(s: Scheme, raw: U64)
    ensures var f := Build(PteOf(s), raw)[9];
      f.val == Window(raw, 10, f.end - 9) && f.val < Pow2(44) &&
      Lines(PteOf(s), raw)[11] == "ppn: " + PpnText(s, f.val)
  {
    PteFlags(s);
    PpnLine(PteOf(s), 9, s, raw);
  }
}
