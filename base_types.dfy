/** The base instruction formats of `inst::base_types`. */
module BaseTypes {
  import opened Arith
  import opened BitOps
  import opened Fmt
  import opened Decoders
  import opened Fields
  import opened Registers

  /** R-type instruction. */
  const RTYPE_INST: Layout := Layout("RTypeInst", [
      Declare("opcode", 0, 6, Bin),
      Declare("rd", 7, 11, Dec),
      Declare("func3", 12, 14, Bin),
      Declare("rs1", 15, 19, Dec),
      Declare("rs2", 20, 24, Dec),
      Declare("func7", 25, 31, Bin)
    ])

  /** I-type instruction. */
  const ITYPE_INST: Layout := Layout("ITypeInst", [
      Declare("opcode", 0, 6, Bin),
      Declare("rd", 7, 11, Dec),
      Declare("func3", 12, 14, Bin),
      Declare("rs1", 15, 19, Dec),
      Declare("imm", 20, 31, Hex)
    ])

  /** S-type instruction. */
  const STYPE_INST: Layout := Layout("STypeInst", [
      Declare("opcode", 0, 6, Bin),
      Declare("imm0_4", 7, 11, Hex),
      Declare("func3", 12, 14, Bin),
      Declare("rs1", 15, 19, Dec),
      Declare("rs2", 20, 24, Dec),
      Declare("imm5_11", 25, 31, RSh(5, Hex))
    ])

  /** B-type instruction. */
  const BTYPE_INST: Layout := Layout("BTypeInst", [
      Declare("opcode", 0, 6, Bin),
      Declare("imm11", 7, 7, RSh(11, Hex)),
      Declare("imm1_4", 8, 11, Hex),
      Declare("func3", 12, 14, Bin),
      Declare("rs1", 15, 19, Dec),
      Declare("rs2", 20, 24, Dec),
      Declare("imm5_10", 25, 30, RSh(5, Hex)),
      Declare("imm12", 31, 31, RSh(12, Hex))
    ])

  /** B-type instruction with `imm1_4` moved up to immediate bits 1..4 like
      the other three pieces, the layout the field's name asks for. */
  const BTYPE_INST_INTENDED: Layout := Layout("BTypeInst", [
      Declare("opcode", 0, 6, Bin),
      Declare("imm11", 7, 7, RSh(11, Hex)),
      Declare("imm1_4", 8, 11, RSh(1, Hex)),
      Declare("func3", 12, 14, Bin),
      Declare("rs1", 15, 19, Dec),
      Declare("rs2", 20, 24, Dec),
      Declare("imm5_10", 25, 30, RSh(5, Hex)),
      Declare("imm12", 31, 31, RSh(12, Hex))
    ])

  /** U-type instruction. */
  const UTYPE_INST: Layout := Layout("UTypeInst", [
      Declare("opcode", 0, 6, Bin),
      Declare("rd", 7, 11, Dec),
      Declare("imm", 12, 31, RSh(12, Hex))
    ])

  /** J-type instruction. */
  const JTYPE_INST: Layout := Layout("JTypeInst", [
      Declare("opcode", 0, 6, Bin),
      Declare("rd", 7, 11, Dec),
      Declare("imm12_19", 12, 19, RSh(12, Hex)),
      Declare("imm11", 20, 20, RSh(11, Hex)),
      Declare("imm1_10", 21, 30, RSh(1, Hex)),
      Declare("imm20", 31, 31, RSh(20, Hex))
    ])

  /** The six base formats. */
  datatype InstFormat = RType | IType | SType | BType | UType | JType

  /** The format of each, as declared. */
  function TypeLayout(f: InstFormat): Layout
  {
    match f
    case RType => RTYPE_INST
    case IType => ITYPE_INST
    case SType => STYPE_INST
    case BType => BTYPE_INST
    case UType => UTYPE_INST
    case JType => JTYPE_INST
  }

  /** Read from the last field, the spans of every format tile bits 31
      down to 0. */
  lemma TypeSpansTile(f: InstFormat)
    ensures Tiles(SpansFrom(TypeLayout(f), true)) && SpansFrom(TypeLayout(f), true)[0].1 == 31
  {
    TypeAscending(f);
    AscendingTiles(TypeLayout(f));
  }

  /** Each format declares its fields from bit 0 up to bit 31, each just
      above the previous one. */
  lemma TypeAscending(f: InstFormat)
    ensures Ascending(TypeLayout(f)) && TypeLayout(f).fields[|TypeLayout(f).fields| - 1].end == 31
  {
    match f
    case RType => RTypeAscending();
    case IType => ITypeAscending();
    case SType => STypeAscending();
    case BType => BTypeAscending();
    case UType => UTypeAscending();
    case JType => JTypeAscending();
  }

  lemma RTypeAscending()
    ensures Ascending(RTYPE_INST) && RTYPE_INST.fields[|RTYPE_INST.fields| - 1].end == 31
  {
  }

  lemma ITypeAscending()
    ensures Ascending(ITYPE_INST) && ITYPE_INST.fields[|ITYPE_INST.fields| - 1].end == 31
  {
  }

  lemma STypeAscending()
    ensures Ascending(STYPE_INST) && STYPE_INST.fields[|STYPE_INST.fields| - 1].end == 31
  {
  }

  lemma BTypeAscending()
    ensures Ascending(BTYPE_INST) && BTYPE_INST.fields[|BTYPE_INST.fields| - 1].end == 31
  {
  }

  lemma UTypeAscending()
    ensures Ascending(UTYPE_INST) && UTYPE_INST.fields[|UTYPE_INST.fields| - 1].end == 31
  {
  }

  lemma JTypeAscending()
    ensures Ascending(JTYPE_INST) && JTYPE_INST.fields[|JTYPE_INST.fields| - 1].end == 31
  {
  }

  /** Every bit of the 32-bit instruction is shown by exactly one field and
      no bit above it is shown. */
  lemma TypeEachBitOnce(f: InstFormat)
    ensures EachBitOnce(TypeLayout(f), 31)
  {
    TypeSpansTile(f);
    TiledEachBitOnce(TypeLayout(f), 31, true);
  }

  /** The fields put back together at their positions are the low 32 bits
      of the word. */
  lemma TypeReassemble(f: InstFormat, raw: U64)
    ensures Reassemble(SpansFrom(TypeLayout(f), true), raw) == raw % Pow2(32)
  {
    TypeSpansTile(f);
    TiledReassemble(TypeLayout(f), raw, 31, true);
  }

  /** Every format starts with the 7-bit opcode in binary. */
  lemma OpcodeFirst(f: InstFormat, raw: U64)
    ensures TypeLayout(f).fields[0] == FieldSpec("opcode", 0, 6, Bin)
    ensures |Binary(raw % 128)| <= 7 && Lines(TypeLayout(f), raw)[2] == "opcode: " + BinText(raw % 128, 7)
  {
    var l := TypeLayout(f);
    assert l.fields[0] == FieldSpec("opcode", 0, 6, Bin);
    OpcodeLine(l, raw);
  }

  lemma OpcodeLine(l: Layout, raw: U64)
    requires |l.fields| >= 1 && l.fields[0] == FieldSpec("opcode", 0, 6, Bin)
    ensures |Binary(raw % 128)| <= 7 && Lines(l, raw)[2] == "opcode: " + BinText(raw % 128, 7)
  {
    BinLine(l, 0, raw);
    LowWindow(raw, 7);
    assert Pow2(7) == 128;
  }

  /** The formats with a destination register. */
  predicate HasRd(f: InstFormat)
  {
    f.RType? || f.IType? || f.UType? || f.JType?
  }

  /** The formats with a first source register and a `func3` selector. */
  predicate HasRs1(f: InstFormat)
  {
    f.RType? || f.IType? || f.SType? || f.BType?
  }

  /** The formats with a second source register. */
  predicate HasRs2(f: InstFormat)
  {
    f.RType? || f.SType? || f.BType?
  }

  /** Where `func3`, `rs1` and `rs2` sit in the declaration order: B-type
      has one immediate piece more in front of them. */
  function Rs1Index(f: InstFormat): nat
  {
    if f.BType? then 4 else 3
  }

  function Rs2Index(f: InstFormat): nat
  {
    Rs1Index(f) + 1
  }

  /** The destination register is the field after the opcode, at bits 7..11. */
  lemma RdField(f: InstFormat)
    requires HasRd(f)
    ensures TypeLayout(f).fields[1] == FieldSpec("rd", 7, 11, Dec)
  {
  }

  /** The first source register, bits 15..19, just after `func3` at 12..14. */
  lemma Rs1Field(f: InstFormat)
    requires HasRs1(f)
    ensures Rs1Index(f) < |TypeLayout(f).fields|
    ensures TypeLayout(f).fields[Rs1Index(f) - 1] == FieldSpec("func3", 12, 14, Bin)
    ensures TypeLayout(f).fields[Rs1Index(f)] == FieldSpec("rs1", 15, 19, Dec)
  {
  }

  /** The second source register, bits 20..24. */
  lemma Rs2Field(f: InstFormat)
    requires HasRs2(f)
    ensures Rs2Index(f) < |TypeLayout(f).fields|
    ensures TypeLayout(f).fields[Rs2Index(f)] == FieldSpec("rs2", 20, 24, Dec)
  {
  }

  /** R-type's `func7` selector, bits 25..31 in binary. */
  lemma Func7Field()
    ensures RTYPE_INST.fields[5] == FieldSpec("func7", 25, 31, Bin)
  {
  }

  /** A five-bit decimal field names one of the 32 registers. */
  lemma RegisterLine(l: Layout, i: nat, raw: U64)
    requires i < |l.fields| && l.fields[i].decoder == Dec && l.fields[i].end == l.fields[i].start + 4
    ensures var d := l.fields[i];
      var v := Window(raw, d.start, 5);
      v < 32 && Lines(l, raw)[2 + i] == d.ident + ": " + Decimal(v)
  {
    DecLine(l, i, raw);
    assert Pow2(5) == 32;
  }

  /** The U-type immediate prints its 20 bits and, after the arrow, the
      upper immediate in place: the word with its low 12 bits cleared. */
  lemma UImmLine(raw: U64)
    ensures var v := Window(raw, 12, 20);
      v * 4096 == raw % Pow2(32) - raw % 4096 &&
      Lines(UTYPE_INST, raw)[4] == "imm: 0x" + LowerHex(v) + " -> 0x" + LowerHex(v * 4096)
  {
    var l := UTYPE_INST;
    assert l.fields[2] == FieldSpec("imm", 12, 31, RSh(12, Hex));
    RShHexLine(l, 2, raw);
    SplitAt(raw, 12, 20);
    assert Pow2(12) == 4096;
  }

  /** A field that holds a piece of the immediate: its name starts with "imm". */
  predicate IsImm(s: FieldSpec)
  {
    |s.ident| >= 3 && s.ident[0] == 'i' && s.ident[1] == 'm' && s.ident[2] == 'm'
  }

  /** How far the decoder moves the piece up before the arrow: an `RSh`
      shift, or nowhere for a plain decoder. */
  function ImmShift(d: Decoder): nat
  {
    if d.RSh? then d.shift else 0
  }

  /** The immediate bits the piece in field `s` lands on. */
  function Piece(s: Decl): (p: (nat, nat))
    ensures p.0 <= p.1
  {
    (ImmShift(s.decoder), ImmShift(s.decoder) + SpanSize(s.start, s.end) - 1)
  }

  /** Immediate bit `b` is one the piece in field `s` lands on. */
  predicate Places(s: Decl, b: int)
  {
    IsImm(s) && Piece(s).0 <= b <= Piece(s).1
  }

  /** Some field's piece lands on immediate bit `b`. */
  ghost predicate Placed(l: Layout, b: int)
  {
    exists i :: 0 <= i < |l.fields| && Places(l.fields[i], b)
  }

  /** The immediate pieces of a format put together give exactly the
      immediate bits `lo..hi`: each of them comes from a piece, no two
      pieces land on the same bit and none lands outside. */
  ghost predicate ImmTiles(l: Layout, lo: nat, hi: nat)
  {
    (forall i, b :: 0 <= i < |l.fields| && Places(l.fields[i], b) ==> lo <= b <= hi) &&
    (forall b :: lo <= b <= hi ==> Placed(l, b)) &&
    (forall i, j, b :: 0 <= i < j < |l.fields| && Places(l.fields[i], b) ==> !Places(l.fields[j], b))
  }

  /** Intervals that follow each other from `lo` up to `hi`. */
  predicate Chain(ps: seq<(nat, nat)>, lo: nat, hi: nat)
  {
    |ps| >= 1 && ps[0].0 == lo && ps[|ps| - 1].1 == hi &&
    (forall k :: 0 <= k < |ps| ==> ps[k].0 <= ps[k].1) &&
    (forall k :: 1 <= k < |ps| ==> ps[k].0 == ps[k - 1].1 + 1)
  }

  /** The pieces of the fields listed by index in `ord`, in that order. */
  function Pieces(l: Layout, ord: seq<nat>): (ps: seq<(nat, nat)>)
    requires forall k :: 0 <= k < |ord| ==> ord[k] < |l.fields|
    ensures |ps| == |ord| && forall k :: 0 <= k < |ord| ==> ps[k] == Piece(l.fields[ord[k]])
  {
    seq(|ord|, k requires 0 <= k < |ord| => Piece(l.fields[ord[k]]))
  }

  /** An order of the immediate fields, listed by index, in which their
      pieces follow each other from bit `lo` up to bit `hi`. */
  predicate ImmOrder(l: Layout, ord: seq<nat>, lo: nat, hi: nat)
  {
    (forall k :: 0 <= k < |ord| ==> ord[k] < |l.fields| && IsImm(l.fields[ord[k]])) &&
    (forall k, m :: 0 <= k < m < |ord| ==> ord[k] != ord[m]) &&
    (forall i :: 0 <= i < |l.fields| && IsImm(l.fields[i]) ==> i in ord) &&
    Chain(Pieces(l, ord), lo, hi)
  }

  /** In a chain, every interval lies in `lo..hi` and below the later ones. */
  lemma {:induction false} ChainOrdered(ps: seq<(nat, nat)>, lo: nat, hi: nat, k: nat)
    requires Chain(ps, lo, hi) && k < |ps|
    ensures lo <= ps[k].0 && ps[k].1 <= hi
    ensures forall m :: k < m < |ps| ==> ps[k].1 < ps[m].0
    decreases |ps| - k
  {
    if k + 1 < |ps| {
      ChainOrdered(ps, lo, hi, k + 1);
    }
    if k > 0 {
      ChainBelow(ps, lo, hi, k);
    }
  }

  lemma {:induction false} ChainBelow(ps: seq<(nat, nat)>, lo: nat, hi: nat, k: nat)
    requires Chain(ps, lo, hi) && k < |ps|
    ensures lo <= ps[k].0
  {
    if k > 0 {
      ChainBelow(ps, lo, hi, k - 1);
    }
  }

  /** Every bit of `lo..hi` lies in some interval of a chain. */
  lemma {:induction false} ChainCovers(ps: seq<(nat, nat)>, lo: nat, hi: nat, b: int, k: nat)
    requires Chain(ps, lo, hi) && k < |ps| && ps[k].0 <= b <= hi
    ensures exists m :: k <= m < |ps| && ps[m].0 <= b <= ps[m].1
    decreases |ps| - k
  {
    if b > ps[k].1 {
      ChainOrdered(ps, lo, hi, k);
      ChainCovers(ps, lo, hi, b, k + 1);
    }
  }

  /** In such an order, a piece lands inside `lo..hi`, ... */
  lemma OrderInside(l: Layout, ord: seq<nat>, lo: nat, hi: nat, i: nat, b: int)
    requires ImmOrder(l, ord, lo, hi) && i < |l.fields| && Places(l.fields[i], b)
    ensures lo <= b <= hi
  {
    var k :| 0 <= k < |ord| && ord[k] == i;
    ChainOrdered(Pieces(l, ord), lo, hi, k);
  }

  /** ... every bit of `lo..hi` is landed on ... */
  lemma OrderCovers(l: Layout, ord: seq<nat>, lo: nat, hi: nat, b: int)
    requires ImmOrder(l, ord, lo, hi) && lo <= b <= hi
    ensures Placed(l, b)
  {
    var ps := Pieces(l, ord);
    ChainCovers(ps, lo, hi, b, 0);
    var m :| 0 <= m < |ps| && ps[m].0 <= b <= ps[m].1;
    assert Places(l.fields[ord[m]], b);
  }

  /** ... and by one piece only. */
  lemma OrderDisjoint(l: Layout, ord: seq<nat>, lo: nat, hi: nat, i: nat, j: nat, b: int)
    requires ImmOrder(l, ord, lo, hi) && i < j < |l.fields| && Places(l.fields[i], b)
    ensures !Places(l.fields[j], b)
  {
    if Places(l.fields[j], b) {
      var ps := Pieces(l, ord);
      var k :| 0 <= k < |ord| && ord[k] == i;
      var m :| 0 <= m < |ord| && ord[m] == j;
      if k < m { ChainOrdered(ps, lo, hi, k); } else { ChainOrdered(ps, lo, hi, m); }
    }
  }

  /** A format whose immediate fields can be ordered into a chain tiles its
      immediate. */
  lemma OrderTiles(l: Layout, ord: seq<nat>, lo: nat, hi: nat)
    requires ImmOrder(l, ord, lo, hi)
    ensures ImmTiles(l, lo, hi)
  {
    forall i, b | 0 <= i < |l.fields| && Places(l.fields[i], b) ensures lo <= b <= hi {
      OrderInside(l, ord, lo, hi, i, b);
    }
    forall b | lo <= b <= hi ensures Placed(l, b) {
      OrderCovers(l, ord, lo, hi, b);
    }
    forall i, j, b | 0 <= i < j < |l.fields| && Places(l.fields[i], b) ensures !Places(l.fields[j], b) {
      OrderDisjoint(l, ord, lo, hi, i, j, b);
    }
  }

  /** The immediate bits each format carries, from the RISC-V base
      encoding: 0..11 for I and S, 1..12 for B, 12..31 for U, 1..20 for J. */
  function ImmRange(f: InstFormat): (r: (nat, nat))
    requires !f.RType?
    ensures r.0 <= r.1
  {
    match f
    case IType => (0, 11)
    case SType => (0, 11)
    case BType => (1, 12)
    case UType => (12, 31)
    case JType => (1, 20)
  }

  /** The immediate pieces of I, S, U and J-type put their immediates
      together, R-type has none, and the pieces of B-type as declared put
      no run of immediate bits together (see `BTypeImmAsWritten`). */
  lemma ImmediatesTile(f: InstFormat)
    ensures f.RType? ==> forall i :: 0 <= i < |TypeLayout(f).fields| ==> !IsImm(TypeLayout(f).fields[i])
    ensures !f.RType? && !f.BType? ==> ImmTiles(TypeLayout(f), ImmRange(f).0, ImmRange(f).1)
    ensures f.BType? ==> forall lo: nat, hi: nat :: !ImmTiles(TypeLayout(f), lo, hi)
  {
    match f
    case RType =>
    case IType => ITypeImm();
    case SType => STypeImm();
    case BType =>
      forall lo: nat, hi: nat ensures !ImmTiles(BTYPE_INST, lo, hi) {
        BTypeImmAsWritten(lo, hi);
      }
    case UType => UTypeImm();
    case JType => JTypeImm();
  }

  lemma ITypeImm()
    ensures ImmTiles(ITYPE_INST, 0, 11)
  {
    ITypeImmOrder();
    OrderTiles(ITYPE_INST, [4], 0, 11);
  }

  lemma STypeImm()
    ensures ImmTiles(STYPE_INST, 0, 11)
  {
    STypeImmOrder();
    OrderTiles(STYPE_INST, [1, 5], 0, 11);
  }

  lemma BTypeImm()
    ensures ImmTiles(BTYPE_INST_INTENDED, 1, 12)
  {
    BTypeImmOrder();
    OrderTiles(BTYPE_INST_INTENDED, [2, 6, 1, 7], 1, 12);
  }

  lemma UTypeImm()
    ensures ImmTiles(UTYPE_INST, 12, 31)
  {
    UTypeImmOrder();
    OrderTiles(UTYPE_INST, [2], 12, 31);
  }

  lemma JTypeImm()
    ensures ImmTiles(JTYPE_INST, 1, 20)
  {
    JTypeImmOrder();
    OrderTiles(JTYPE_INST, [4, 3, 2, 5], 1, 20);
  }

  // The orders below list each format's immediate fields from the lowest
  // immediate bit up.

  lemma ITypeImmOrder()
    ensures ImmOrder(ITYPE_INST, [4], 0, 11)
  {
  }

  lemma STypeImmOrder()
    ensures ImmOrder(STYPE_INST, [1, 5], 0, 11)
  {
  }

  lemma BTypeImmOrder()
    ensures ImmOrder(BTYPE_INST_INTENDED, [2, 6, 1, 7], 1, 12)
  {
    BTypeImmIndices();
    BTypeImmPieces();
  }

  /** The order lists exactly the immediate fields. */
  lemma BTypeImmIndices()
    ensures var ord := [2, 6, 1, 7];
      (forall k :: 0 <= k < |ord| ==> ord[k] < |BTYPE_INST_INTENDED.fields| && IsImm(BTYPE_INST_INTENDED.fields[ord[k]])) &&
      (forall i :: 0 <= i < |BTYPE_INST_INTENDED.fields| && IsImm(BTYPE_INST_INTENDED.fields[i]) ==> i in ord)
  {
    BTypeImmFields();
  }

  /** Their pieces, in that order, follow each other. */
  lemma BTypeImmPieces()
    ensures Pieces(BTYPE_INST_INTENDED, [2, 6, 1, 7]) == [(1, 4), (5, 10), (11, 11), (12, 12)] && Chain([(1, 4), (5, 10), (11, 11), (12, 12)], 1, 12)
  {
  }

  /** The B-type fields named "imm": all but the opcode, `func3` and the
      two source registers. */
  lemma BTypeImmFields()
    ensures var fs := BTYPE_INST_INTENDED.fields;
      IsImm(fs[1]) && IsImm(fs[2]) && IsImm(fs[6]) && IsImm(fs[7]) &&
      !IsImm(fs[0]) && !IsImm(fs[3]) && !IsImm(fs[4]) && !IsImm(fs[5])
  {
  }

  lemma UTypeImmOrder()
    ensures ImmOrder(UTYPE_INST, [2], 12, 31)
  {
  }

  lemma JTypeImmOrder()
    ensures ImmOrder(JTYPE_INST, [4, 3, 2, 5], 1, 20)
  {
    JTypeImmIndices();
    JTypeImmPieces();
  }

  /** The order lists exactly the immediate fields. */
  lemma JTypeImmIndices()
    ensures var ord := [4, 3, 2, 5];
      (forall k :: 0 <= k < |ord| ==> ord[k] < |JTYPE_INST.fields| && IsImm(JTYPE_INST.fields[ord[k]])) &&
      (forall i :: 0 <= i < |JTYPE_INST.fields| && IsImm(JTYPE_INST.fields[i]) ==> i in ord)
  {
    JTypeImmFields();
  }

  /** Their pieces, in that order, follow each other. */
  lemma JTypeImmPieces()
    ensures Pieces(JTYPE_INST, [4, 3, 2, 5]) == [(1, 10), (11, 11), (12, 19), (20, 20)] && Chain([(1, 10), (11, 11), (12, 19), (20, 20)], 1, 20)
  {
  }

  /** The J-type fields named "imm": all but the opcode and `rd`. */
  lemma JTypeImmFields()
    ensures var fs := JTYPE_INST.fields;
      IsImm(fs[2]) && IsImm(fs[3]) && IsImm(fs[4]) && IsImm(fs[5]) && !IsImm(fs[0]) && !IsImm(fs[1])
  {
  }

  /** As written, B-type's `imm1_4` is printed unshifted, so its piece lands
      on immediate bits 0..3 and no piece lands on bit 4: the pieces put
      together give no run of immediate bits at all, whatever its ends. */
  lemma BTypeImmAsWritten(lo: nat, hi: nat)
    ensures Places(BTYPE_INST.fields[2], 0) && Places(BTYPE_INST.fields[7], 12)
    ensures forall i :: 0 <= i < |BTYPE_INST.fields| ==> !Places(BTYPE_INST.fields[i], 4)
    ensures !ImmTiles(BTYPE_INST, lo, hi)
  {
    var fs := BTYPE_INST.fields;
    assert Places(fs[2], 0) && Places(fs[7], 12);
    assert !Placed(BTYPE_INST, 4);
  }

  /** The corrected layout differs from the declared one only in the
      decoder of `imm1_4`. */
  lemma BTypeLayoutsDiffer()
    ensures |BTYPE_INST_INTENDED.fields| == |BTYPE_INST.fields| == 8
    ensures forall i :: 0 <= i < 8 && i != 2 ==> BTYPE_INST_INTENDED.fields[i] == BTYPE_INST.fields[i]
    ensures BTYPE_INST_INTENDED.fields[2] == BTYPE_INST.fields[2].(decoder := RSh(1, Hex))
  {
  }

  /** The instruction word 0x100 sets only bit 8, immediate bit 1 of a
      branch, an offset of 2: as written its line shows 0x1 and no offset. */
  lemma BTypeImmLineAsWritten()
    ensures Lines(BTYPE_INST, 0x100)[4] == "imm1_4: 0x1"
  {
    assert BTYPE_INST.fields[2] == FieldSpec("imm1_4", 8, 11, Hex);
    HexLine(BTYPE_INST, 2, 0x100);
    Imm1To4Of0x100();
  }

  /** The intended layout shows the piece moved to bit 1 after the arrow:
      for 0x100, "imm1_4: 0x1 -> 0x2". */
  lemma BTypeImmLine(raw: U64)
    ensures var v := Window(raw, 8, SpanSize(8, 11));
      Lines(BTYPE_INST_INTENDED, raw)[4] == "imm1_4: 0x" + LowerHex(v) + " -> 0x" + LowerHex(v * 2)
    ensures Window(0x100, 8, SpanSize(8, 11)) == 1 && LowerHex(1) == "1" && LowerHex(1 * 2) == "2"
  {
    assert BTYPE_INST_INTENDED.fields[2] == FieldSpec("imm1_4", 8, 11, RSh(1, Hex));
    RShHexLine(BTYPE_INST_INTENDED, 2, raw);
    Imm1To4Of0x100();
    assert Pow2(1) == 2;
  }

  lemma Imm1To4Of0x100()
    ensures Window(0x100, 8, SpanSize(8, 11)) == 1
  {
    assert Pow2(8) == 256 && Pow2(4) == 16;
  }
}
