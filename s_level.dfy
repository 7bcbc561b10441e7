/** The supervisor-level registers of `csr::s_level`. */
module SLevel {
  import opened Arith
  import opened BitOps
  import opened Fmt
  import opened Decoders
  import opened Fields
  import opened Registers
  import opened MLevel

  /** Supervisor status register. */
  const SSTATUS: Layout := Layout("Sstatus", [
      Declare("sie", 1, 1, Bin),
      Declare("spie", 5, 5, Bin),
      Declare("ube", 6, 6, Bin),
      Declare("spp", 8, 8, Priv),
      Declare("vs", 9, 10, Bin),
      Declare("fs", 13, 14, Bin),
      Declare("xs", 15, 16, Bin),
      Declare("sum", 18, 18, Bin),
      Declare("mxr", 19, 19, Bin),
      Declare("uxl", 32, 33, Arch),
      Declare("sd", 63, 63, Bin)
    ])

  /** Supervisor interrupt-enable register. */
  const SIE: Layout := Layout("Sie", [
      Declare("supervisor_sw_interrupt", 1, 1, Bin),
      Declare("supervisor_timer_interrupt", 5, 5, Bin),
      Declare("supervisor_external_interrupt", 9, 9, Bin)
    ])

  /** Supervisor interrupt-pending register. */
  const SIP: Layout := Layout("Sip", [
      Declare("supervisor_sw_interrupt", 1, 1, Bin),
      Declare("supervisor_timer_interrupt", 5, 5, Bin),
      Declare("supervisor_external_interrupt", 9, 9, Bin)
    ])

  /** Supervisor environment configuration register. */
  const SENVCFG: Layout := Layout("Senvcfg", [
      Declare("fiom", 0, 0, Bin),
      Declare("cbie", 4, 5, Bin),
      Declare("cbcfe", 7, 7, Bin)
    ])

  /** Supervisor trap value register. */
  const STVAL: Layout := Layout("Stval", [
      Declare("stval", 0, 63, Hex)
    ])

  /** Supervisor address translation and protection register. */
  const SATP: Layout := Layout("Satp", [
      Declare("mode", 60, 63, Atp),
      Declare("asid", 44, 59, Hex),
      Declare("ppn", 0, 43, Hex)
    ])

  /** Supervisor trap-vector base-address register. */
  const STVEC: Layout := Layout("Stvec", [
      Declare("base", 2, 63, Hex),
      Declare("mode", 0, 1, Tvec)
    ])

  /** Supervisor scratch register. */
  const SSCRATCH: Layout := Layout("Sscratch", [
      Declare("sscratch", 0, 63, Hex)
    ])

  /** Supervisor exception program counter. */
  const SEPC: Layout := Layout("Sepc", [
      Declare("sepc", 0, 63, Hex)
    ])

  /** Supervisor trap cause register: the code field spans the whole word, flag included, so that ExcCode sees the flag. */
  const SCAUSE: Layout := Layout("Scause", [
      Declare("interrupt", 63, 63, Bool),
      Declare("code", 0, 63, ExcCode)
    ])

  /** Supervisor counter-enable register, listed from hpm31 down to cy. */
  const SCOUNTEREN: Layout := Layout("Scounteren", [
      Declare("hpm31", 31, 31, Bin),
      Declare("hpm30", 30, 30, Bin),
      Declare("hpm29", 29, 29, Bin),
      Declare("hpm28", 28, 28, Bin),
      Declare("hpm27", 27, 27, Bin),
      Declare("hpm26", 26, 26, Bin),
      Declare("hpm25", 25, 25, Bin),
      Declare("hpm24", 24, 24, Bin),
      Declare("hpm23", 23, 23, Bin),
      Declare("hpm22", 22, 22, Bin),
      Declare("hpm21", 21, 21, Bin),
      Declare("hpm20", 20, 20, Bin),
      Declare("hpm19", 19, 19, Bin),
      Declare("hpm18", 18, 18, Bin),
      Declare("hpm17", 17, 17, Bin),
      Declare("hpm16", 16, 16, Bin),
      Declare("hpm15", 15, 15, Bin),
      Declare("hpm14", 14, 14, Bin),
      Declare("hpm13", 13, 13, Bin),
      Declare("hpm12", 12, 12, Bin),
      Declare("hpm11", 11, 11, Bin),
      Declare("hpm10", 10, 10, Bin),
      Declare("hpm9", 9, 9, Bin),
      Declare("hpm8", 8, 8, Bin),
      Declare("hpm7", 7, 7, Bin),
      Declare("hpm6", 6, 6, Bin),
      Declare("hpm5", 5, 5, Bin),
      Declare("hpm4", 4, 4, Bin),
      Declare("hpm3", 3, 3, Bin),
      Declare("ir", 2, 2, Bin),
      Declare("tm", 1, 1, Bin),
      Declare("cy", 0, 0, Bin)
    ])

  /** `sstatus`: `spp` shows User or Supervisor. */
  lemma SstatusSppLine(raw: U64)
    ensures Lines(SSTATUS, raw)[5] == "spp: " + if Window(raw, 8, 1) == 0 then "User" else "Supervisor"
  {
    FieldText(SSTATUS, raw, 3);
    assert SSTATUS.fields[3] == FieldSpec("spp", 8, 8, Priv);
    assert Pow2(1) == 2;
  }

  /** `sstatus`: `uxl` shows an architecture. */
  lemma SstatusUxlLine(raw: U64)
    ensures Lines(SSTATUS, raw)[11] == "uxl: " + ArchText(Window(raw, 32, 2))
  {
    FieldText(SSTATUS, raw, 9);
    assert SSTATUS.fields[9] == FieldSpec("uxl", 32, 33, Arch);
  }

  /** `sie` and `sip` have the same fields: bits 1, 5 and 9. */
  lemma SieSipSame()
    ensures SIE.fields == SIP.fields
    ensures Spans(SIE) == [(1, 1), (5, 5), (9, 9)]
  {
  }

  /** `satp`: the mode, the address-space id and the page number, printed
      from the top down, show every bit of the register exactly once. */
  lemma SatpTiles(raw: U64)
    ensures Spans(SATP) == [(60, 63), (44, 59), (0, 43)]
    ensures [SATP.fields[0].decoder, SATP.fields[1].decoder, SATP.fields[2].decoder] == [Atp, Hex, Hex]
    ensures EachBitOnce(SATP, 63)
    ensures Reassemble(Spans(SATP), raw) == raw
  {
    assert Tiles(SpansFrom(SATP, false));
    TiledEachBitOnce(SATP, 63, false);
    TiledReassemble(SATP, raw, 63, false);
    Pow2Word();
  }

  /** `satp`: the mode line is the translation scheme of the top four bits. */
  lemma SatpModeLine(raw: U64)
    ensures Lines(SATP, raw)[2] == "mode: " + AtpText(raw / Pow2(60))
  {
    FieldText(SATP, raw, 0);
    Pow2Word();
    TopWindow(raw, 60);
  }

  /** `stvec` has the fields of `mtvec`; a mode of 2 or 3 is a warning. */
  lemma StvecLikeMtvec(raw: U64)
    ensures STVEC.fields == MTVEC.fields
    ensures !IsWarning(TvecText(raw % 4)) <==> raw % 4 < 2
    ensures raw % 4 == 2 ==> Lines(STVEC, raw)[3] == "mode: " + Warn("Invalid (0b10)")
    ensures raw % 4 == 3 ==> Lines(STVEC, raw)[3] == "mode: " + Warn("Invalid (0b11)")
  {
    FieldText(STVEC, raw, 1);
    LowWindow(raw, 2);
    assert Pow2(2) == 4;
    EnumeratedMeaning(Tvec, raw % 4, 2);
    assert Binary(2) == "10" && Binary(3) == "11";
  }

  /** One-field registers over the whole word: the line is the register in hex. */
  lemma WholeWordLines(raw: U64)
    ensures Lines(STVAL, raw)[2] == "stval: 0x" + LowerHex(raw)
    ensures Lines(SSCRATCH, raw)[2] == "sscratch: 0x" + LowerHex(raw)
    ensures Lines(SEPC, raw)[2] == "sepc: 0x" + LowerHex(raw)
  {
    WholeWord(raw);
    FieldText(STVAL, raw, 0);
    FieldText(SSCRATCH, raw, 0);
    FieldText(SEPC, raw, 0);
  }

  /** `scause`: the interrupt flag is bit 63, and the code field is the
      whole word, so the cause it names is looked up with that same flag. */
  lemma ScauseLines(raw: U64)
    ensures Lines(SCAUSE, raw)[2] == "interrupt: " + if raw / Pow2(63) == 1 then "true" else "false"
    ensures Lines(SCAUSE, raw)[3] == "code: " + ExcCause(raw / Pow2(63), raw % Pow2(63))
  {
    assert SCAUSE.fields[0] == FieldSpec("interrupt", 63, 63, Bool);
    assert SCAUSE.fields[1] == FieldSpec("code", 0, 63, ExcCode);
    TopFlagLine(SCAUSE, 0, raw);
    CauseCodeLine(SCAUSE, 1, raw);
  }

  /** A `Bool` field on bit 63 prints whether the top bit is set. */
  lemma TopFlagLine(l: Layout, i: nat, raw: U64)
    requires i < |l.fields| && l.fields[i].start == 63 && l.fields[i].end == 63 && l.fields[i].decoder == Bool
    ensures Lines(l, raw)[2 + i] == l.fields[i].ident + ": " + if raw / Pow2(63) == 1 then "true" else "false"
  {
    FieldText(l, raw, i);
    TopWindow(raw, 63);
    assert Pow2(1) == 2;
  }

  /** An `ExcCode` field over the whole word looks up the top bit and the
      other 63 bits as a pair. */
  lemma CauseCodeLine(l: Layout, i: nat, raw: U64)
    requires i < |l.fields| && l.fields[i].start == 0 && l.fields[i].end == 63 && l.fields[i].decoder == ExcCode
    ensures Lines(l, raw)[2 + i] == l.fields[i].ident + ": " + ExcCause(raw / Pow2(63), raw % Pow2(63))
  {
    FieldText(l, raw, i);
    WholeWord(raw);
    ExcCodeSplit(raw);
  }

  /** `scounteren`: one bit per counter, printed from bit 31 down to bit 0. */
  lemma ScounterenShape()
    ensures |SCOUNTEREN.fields| == 32
    ensures forall i :: 0 <= i < 32 ==> Spans(SCOUNTEREN)[i] == (31 - i, 31 - i) && SCOUNTEREN.fields[i].decoder == Bin
  {
  }

  /** So every bit of the low word is shown once. */
  lemma ScounterenTiles()
    ensures EachBitOnce(SCOUNTEREN, 31)
  {
    ScounterenShape();
    assert Tiles(SpansFrom(SCOUNTEREN, false));
    TiledEachBitOnce(SCOUNTEREN, 31, false);
  }
}
