/** The virtual address formats of `vmem::va`. */
module VAddr {
  import opened Arith
  import opened BitOps
  import opened Fmt
  import opened Decoders
  import opened Fields
  import opened Registers

  /** Sv32 virtual address. */
  const VADDR32: Layout := Layout("VAddr32", [
      Declare("page_offset", 0, 11, Hex),
      Declare("vpn0", 12, 21, RSh(2, Hex)),
      Declare("vpn1", 22, 31, RSh(2, Hex))
    ])

  /** Sv39 virtual address. */
  const VADDR39: Layout := Layout("VAddr39", [
      Declare("page_offset", 0, 11, Hex),
      Declare("vpn0", 12, 20, RSh(3, Hex)),
      Declare("vpn1", 21, 29, RSh(3, Hex)),
      Declare("vpn2", 30, 38, RSh(3, Hex))
    ])

  /** Sv48 virtual address. */
  const VADDR48: Layout := Layout("VAddr48", [
      Declare("page_offset", 0, 11, Hex),
      Declare("vpn0", 12, 20, RSh(3, Hex)),
      Declare("vpn1", 21, 29, RSh(3, Hex)),
      Declare("vpn2", 30, 38, RSh(3, Hex)),
      Declare("vpn3", 39, 47, RSh(3, Hex))
    ])

  /** Sv57 virtual address. */
  const VADDR57: Layout := Layout("VAddr57", [
      Declare("page_offset", 0, 11, Hex),
      Declare("vpn0", 12, 20, RSh(3, Hex)),
      Declare("vpn1", 21, 29, RSh(3, Hex)),
      Declare("vpn2", 30, 38, RSh(3, Hex)),
      Declare("vpn3", 39, 47, RSh(3, Hex)),
      Declare("vpn4", 48, 56, RSh(3, Hex))
    ])

  /** The virtual address format of a scheme. */
  function VaOf(s: Scheme): Layout
  {
    match s
    case Sv32 => VADDR32
    case Sv39 => VADDR39
    case Sv48 => VADDR48
    case Sv57 => VADDR57
  }

  /** The number of page-table levels, one virtual page number each. */
  function Levels(s: Scheme): nat
  {
    match s
    case Sv32 => 2
    case Sv39 => 3
    case Sv48 => 4
    case Sv57 => 5
  }

  /** The width of one virtual page number: a page table holds 2^10
      four-byte entries under Sv32 and 2^9 eight-byte entries otherwise. */
  function VpnBits(s: Scheme): nat
  {
    if s == Sv32 then 10 else 9
  }

  /** log2 of the size in bytes of a page table entry. */
  function EntryShift(s: Scheme): nat
  {
    if s == Sv32 then 2 else 3
  }

  /** The highest bit of the address: the 12-bit page offset with the page
      numbers above it. */
  function VaTop(s: Scheme): nat
  {
    11 + Levels(s) * VpnBits(s)
  }

  /** The page offset comes first, then page number `k` (`vpn<k>`) at bits
      `12 + k * VpnBits` up, each printed with its entry offset. */
  lemma VaShape(s: Scheme)
    ensures var l := VaOf(s);
      |l.fields| == Levels(s) + 1 &&
      l.fields[0] == FieldSpec("page_offset", 0, 11, Hex) &&
      forall k :: 0 <= k < Levels(s) ==>
        l.fields[k + 1] == FieldSpec("vpn" + [DigitChar(k)], 12 + k * VpnBits(s), 11 + (k + 1) * VpnBits(s), RSh(EntryShift(s), Hex))
  {
  }

  /** The field of page number `k`, one at a time. */
  lemma VaVpnField(s: Scheme, k: nat)
    requires k < Levels(s)
    ensures var l := VaOf(s);
      |l.fields| == Levels(s) + 1 &&
      l.fields[k + 1] == FieldSpec("vpn" + [DigitChar(k)], 12 + k * VpnBits(s), 11 + (k + 1) * VpnBits(s), RSh(EntryShift(s), Hex))
  {
    VaShape(s);
  }

  /** The span of page number `k`. */
  lemma VaVpnSpan(s: Scheme, k: nat)
    requires k < Levels(s)
    ensures var l := VaOf(s);
      |l.fields| == Levels(s) + 1 &&
      l.fields[k + 1].start == 12 + k * VpnBits(s) && l.fields[k + 1].end == 11 + (k + 1) * VpnBits(s)
  {
    VaShape(s);
  }

  /** Read from the last field, the spans tile the bits from `VaTop` down
      to 0. */
  lemma VaSpansTile(s: Scheme)
    ensures Tiles(SpansFrom(VaOf(s), true)) && SpansFrom(VaOf(s), true)[0].1 == VaTop(s)
  {
    var n := Levels(s);
    var gs := SpansFrom(VaOf(s), true);
    VaVpnSpan(s, n - 1);
    assert VaOf(s).fields[0].start == 0;
    assert gs[n] == (0, 11);
    forall j | 1 <= j <= n ensures gs[j].1 + 1 == gs[j - 1].0 {
      VaSpanStep(s, j);
    }
  }

  /** Each field ends one bit below where the next begins. */
  lemma VaSpanStep(s: Scheme, j: nat)
    requires 1 <= j <= Levels(s)
    ensures var gs := SpansFrom(VaOf(s), true); gs[j].1 + 1 == gs[j - 1].0
  {
    var l := VaOf(s);
    var k := Levels(s) - j;
    VaVpnSpan(s, k);
    if k > 0 {
      VaVpnSpan(s, k - 1);
    } else {
      assert l.fields[0].end == 11;
    }
  }

  /** Every address bit from `VaTop` down is shown by exactly one field and
      none above it is shown. */
  lemma VaEachBitOnce(s: Scheme)
    ensures EachBitOnce(VaOf(s), VaTop(s))
  {
    VaSpansTile(s);
    TiledEachBitOnce(VaOf(s), VaTop(s), true);
  }

  /** The fields put back together at their positions are the address's
      low `VaTop + 1` bits. */
  lemma VaReassemble(s: Scheme, raw: U64)
    ensures Reassemble(SpansFrom(VaOf(s), true), raw) == raw % Pow2(VaTop(s) + 1)
  {
    VaSpansTile(s);
    TiledReassemble(VaOf(s), raw, VaTop(s), true);
  }

  /** The page-offset line: the address's low 12 bits in hex. */
  lemma VaOffsetLine(s: Scheme, raw: U64)
    ensures Lines(VaOf(s), raw)[2] == "page_offset: 0x" + LowerHex(raw % 4096)
  {
    VaShape(s);
    PageOffsetLine(VaOf(s), raw);
  }

  /** The line of page number `k`: its value in hex, then "-> " and the
      byte offset of the entry it selects in its page table, the number
      times the entry size. */
  lemma VaVpnLine(s: Scheme, raw: U64, k: nat)
    requires k < Levels(s)
    ensures var v := Window(raw, 12 + k * VpnBits(s), VpnBits(s));
      Lines(VaOf(s), raw)[3 + k] ==
        "vpn" + [DigitChar(k)] + ": 0x" + LowerHex(v) + " -> 0x" + LowerHex(v * Pow2(EntryShift(s)))
  {
    VaVpnField(s, k);
    RShHexLine(VaOf(s), k + 1, raw);
  }
}
