/** The hypervisor registers of `csr::h_level` (`Hideleg` is not part of this model: it needs the `Reserved` decoder, which the source has commented out). */
module HLevel {
  import opened Arith
  import opened BitOps
  import opened Fmt
  import opened Decoders
  import opened Fields
  import opened Registers
  import opened SLevel

  /** Hypervisor status register. */
  const HSTATUS: Layout := Layout("Hstatus", [
      Declare("vsbe", 5, 5, Bin),
      Declare("gva", 6, 6, Bin),
      Declare("spv", 7, 7, Bin),
      Declare("spvp", 8, 8, Bin),
      Declare("hu", 9, 9, Bin),
      Declare("vgein", 12, 17, Bin),
      Declare("vtvm", 20, 20, Bin),
      Declare("vtw", 21, 21, Bin),
      Declare("vtsr", 22, 22, Bin),
      Declare("vsxl", 32, 33, Arch)
    ])

  /** Hypervisor exception delegation register: one bit per delegable exception code. */
  const HEDELEG: Layout := Layout("Hedeleg", [
      Declare("misaligned_fetch", 0, 0, Bin),
      Declare("fetch_access", 1, 1, Bin),
      Declare("illegal_instruction", 2, 2, Bin),
      Declare("breakpoint", 3, 3, Bin),
      Declare("misaligned_load", 4, 4, Bin),
      Declare("load_access", 5, 5, Bin),
      Declare("misaligned_store", 6, 6, Bin),
      Declare("store_access", 7, 7, Bin),
      Declare("user_ecall", 8, 8, Bin),
      Declare("supervisor_ecall", 9, 9, Bin),
      Declare("virtual_supervisor_ecall", 10, 10, Bin),
      Declare("machine_ecall", 11, 11, Bin),
      Declare("fetch_page_fault", 12, 12, Bin),
      Declare("load_page_fault", 13, 13, Bin),
      Declare("store_page_fault", 15, 15, Bin),
      Declare("fetch_guest_page_fault", 20, 20, Bin),
      Declare("load_guest_page_fault", 21, 21, Bin),
      Declare("virtual_instruction", 22, 22, Bin),
      Declare("store_guest_page_fault", 23, 23, Bin)
    ])

  /** Hypervisor counter-enable register, listed from hpm31 down to cy. */
  const HCOUNTEREN: Layout := Layout("Hcounteren", [
      Declare("hpm31", 31, 31, Bin),
      Declare("hpm30", 30, 30, Bin),
      Declare("hpm29", 29, 29, Bin),
      Declare("hpm28", 28, 28, Bin),
      Declare("hpm27", 27, 27, Bin),
      Declare("hpm26", 26, 26, Bin),
      Declare("hpm25", 25, 25, Bin),
      Declare("hpm24", 24, 24, Bin),
      Declare("hpm23", 23, 23, Bin),
      Declare("hpm22", 22, 22, Bin),
      Declare("hpm21", 21, 21, Bin),
      Declare("hpm20", 20, 20, Bin),
      Declare("hpm19", 19, 19, Bin),
      Declare("hpm18", 18, 18, Bin),
      Declare("hpm17", 17, 17, Bin),
      Declare("hpm16", 16, 16, Bin),
      Declare("hpm15", 15, 15, Bin),
      Declare("hpm14", 14, 14, Bin),
      Declare("hpm13", 13, 13, Bin),
      Declare("hpm12", 12, 12, Bin),
      Declare("hpm11", 11, 11, Bin),
      Declare("hpm10", 10, 10, Bin),
      Declare("hpm9", 9, 9, Bin),
      Declare("hpm8", 8, 8, Bin),
      Declare("hpm7", 7, 7, Bin),
      Declare("hpm6", 6, 6, Bin),
      Declare("hpm5", 5, 5, Bin),
      Declare("hpm4", 4, 4, Bin),
      Declare("hpm3", 3, 3, Bin),
      Declare("ir", 2, 2, Bin),
      Declare("tm", 1, 1, Bin),
      Declare("cy", 0, 0, Bin)
    ])

  /** Hypervisor trap value register. */
  const HTVAL: Layout := Layout("Htval", [
      Declare("val", 0, 63, Hex)
    ])

  /** Hypervisor trap instruction register. */
  const HTINST: Layout := Layout("Htinst", [
      Declare("inst", 0, 63, Hex)
    ])

  /** Hypervisor environment configuration register. */
  const HENVCFG: Layout := Layout("Henvcfg", [
      Declare("stce", 63, 63, Bin),
      Declare("pbmte", 62, 62, Bin),
      Declare("cbze", 7, 7, Bin),
      Declare("cbcfe", 6, 6, Bin),
      Declare("cbie", 4, 5, Bin),
      Declare("fiom", 0, 0, Bin)
    ])

  /** Hypervisor guest address translation and protection register. */
  const HGATP: Layout := Layout("Hgatp", [
      Declare("mode", 60, 63, Atp),
      Declare("vmid", 44, 57, Hex),
      Declare("ppn", 0, 43, Hex)
    ])

  /** `hstatus`: `vgein` (bits 12..17) prints "0b" and six binary digits
      that read back as the field. */
  lemma HstatusVgeinLine(raw: U64)
    ensures |Binary(Window(raw, 12, 6))| <= 6
    ensures var t := BinText(Window(raw, 12, 6), 6);
      Lines(HSTATUS, raw)[7] == "vgein: " + t &&
      |t| == 8 && t[..2] == "0b" && IsNumeral(t[2..], 2) && ValueOf(t[2..], 2) == Window(raw, 12, 6)
  {
    FieldText(HSTATUS, raw, 5);
    assert HSTATUS.fields[5] == FieldSpec("vgein", 12, 17, Bin);
    BinTextMeaning(Window(raw, 12, 6), 6);
  }

  /** `hstatus`: `vsxl` shows an architecture. */
  lemma HstatusVsxlLine(raw: U64)
    ensures Lines(HSTATUS, raw)[11] == "vsxl: " + ArchText(Window(raw, 32, 2))
  {
    FieldText(HSTATUS, raw, 9);
    assert HSTATUS.fields[9] == FieldSpec("vsxl", 32, 33, Arch);
  }

  /** `hedeleg`: one binary bit per delegable exception code, in
      increasing order. */
  lemma HedelegSpans()
    ensures Spans(HEDELEG) == [(0, 0), (1, 1), (2, 2), (3, 3), (4, 4), (5, 5), (6, 6), (7, 7), (8, 8), (9, 9),
      (10, 10), (11, 11), (12, 12), (13, 13), (15, 15), (20, 20), (21, 21), (22, 22), (23, 23)]
    ensures forall i :: 0 <= i < |HEDELEG.fields| ==> HEDELEG.fields[i].decoder == Bin
  {
  }

  /** The position in `hedeleg` of the field of an exception code. */
  function HedelegIndex(code: nat): nat
  {
    if code <= 13 then code else if code == 15 then 14 else code - 5
  }

  /** Each field of `hedeleg` is the bit of a synchronous exception code the
      cause decoder names, and each such code has the field `HedelegIndex`. */
  lemma HedelegFieldsAreCodes()
    ensures forall i :: 0 <= i < |Spans(HEDELEG)| ==>
      Spans(HEDELEG)[i].0 == Spans(HEDELEG)[i].1 && Spans(HEDELEG)[i].0 in EXCEPTION_CODES
    ensures forall c :: c in EXCEPTION_CODES ==> HedelegIndex(c) < |Spans(HEDELEG)| && Spans(HEDELEG)[HedelegIndex(c)] == (c, c)
  {
    HedelegSpans();
  }

  /** `hedeleg` shows exactly the bits of the synchronous exception codes
      the cause decoder names. */
  lemma HedelegShown(b: nat)
    ensures Shown(HEDELEG, b) <==> b in EXCEPTION_CODES
  {
    if b in EXCEPTION_CODES {
      HedelegCodeShown(b);
    }
    if Shown(HEDELEG, b) {
      var i: nat :| Covers(HEDELEG, i, b);
      HedelegFieldIsCode(i, b);
    }
  }

  lemma HedelegCodeShown(b: nat)
    requires b in EXCEPTION_CODES
    ensures Covers(HEDELEG, HedelegIndex(b), b)
  {
    HedelegFieldsAreCodes();
    var sp := Spans(HEDELEG);
    assert sp[HedelegIndex(b)] == (b, b);
  }

  lemma HedelegFieldIsCode(i: nat, b: nat)
    requires Covers(HEDELEG, i, b)
    ensures b in EXCEPTION_CODES
  {
    var sp := Spans(HEDELEG);
    assert i < |sp| && sp[i] == (HEDELEG.fields[i].start, HEDELEG.fields[i].end);
    HedelegFieldsAreCodes();
    assert sp[i].0 == sp[i].1 && sp[i].0 in EXCEPTION_CODES;
    assert sp[i].0 == b;
  }

  /** So every bit `hedeleg` shows is a cause the decoder names, and every
      such cause has a bit. */
  lemma HedelegNamesCauses(b: nat)
    ensures Shown(HEDELEG, b) <==> !IsWarning(ExcCause(0, b))
  {
    HedelegShown(b);
    ExcCauseMeaning(0, b);
  }

  /** `hcounteren`: one bit per counter, printed from bit 31 down to bit 0. */
  lemma HcounterenShape()
    ensures |HCOUNTEREN.fields| == 32
    ensures forall i :: 0 <= i < 32 ==> Spans(HCOUNTEREN)[i] == (31 - i, 31 - i) && HCOUNTEREN.fields[i].decoder == Bin
  {
  }

  /** So `hcounteren` has the spans, in the same order, of `scounteren`. */
  lemma HcounterenLikeScounteren()
    ensures Spans(HCOUNTEREN) == Spans(SCOUNTEREN)
  {
    HcounterenShape();
    ScounterenShape();
  }

  /** `htval` and `htinst` are the whole register in hex. */
  lemma HtvalHtinstLines(raw: U64)
    ensures Lines(HTVAL, raw)[2] == "val: 0x" + LowerHex(raw)
    ensures Lines(HTINST, raw)[2] == "inst: 0x" + LowerHex(raw)
  {
    WholeWord(raw);
    FieldText(HTVAL, raw, 0);
    FieldText(HTINST, raw, 0);
  }

  /** `henvcfg` prints stce, pbmte, cbze, cbcfe, cbie and fiom, from the top
      bit down. */
  lemma HenvcfgOrder()
    ensures Spans(HENVCFG) == [(63, 63), (62, 62), (7, 7), (6, 6), (4, 5), (0, 0)]
    ensures forall i :: 0 <= i < |HENVCFG.fields| ==> HENVCFG.fields[i].decoder == Bin
  {
  }

  /** `hgatp`: mode, vmid and page number from the top down; bits 58 and 59
      belong to no field. */
  lemma HgatpShape()
    ensures Spans(HGATP) == [(60, 63), (44, 57), (0, 43)]
    ensures forall b :: 0 <= b < 64 ==> (Shown(HGATP, b) <==> b != 58 && b != 59)
  {
    var sp := Spans(HGATP);
    assert sp[0] == (60, 63) && sp[1] == (44, 57) && sp[2] == (0, 43);
    forall b | 0 <= b < 64 ensures Shown(HGATP, b) <==> b != 58 && b != 59 {
      if Shown(HGATP, b) {
        var i: nat :| Covers(HGATP, i, b);
        assert sp[i] == (HGATP.fields[i].start, HGATP.fields[i].end);
      }
      if b >= 60 {
        assert Covers(HGATP, 0, b);
      } else if 44 <= b <= 57 {
        assert Covers(HGATP, 1, b);
      } else if b <= 43 {
        assert Covers(HGATP, 2, b);
      }
    }
  }
}
