/** The machine-level registers of `csr::m_level`. */
module MLevel {
  import opened Arith
  import opened BitOps
  import opened Fmt
  import opened Decoders
  import opened Fields
  import opened Registers

  /** Machine ISA register: one bit per extension letter, then MXL. */
  const MISA: Layout := Layout("Misa", [
      Declare("a", 0, 0, Bin),
      Declare("b", 1, 1, Bin),
      Declare("c", 2, 2, Bin),
      Declare("d", 3, 3, Bin),
      Declare("e", 4, 4, Bin),
      Declare("f", 5, 5, Bin),
      Declare("g", 6, 6, Bin),
      Declare("h", 7, 7, Bin),
      Declare("i", 8, 8, Bin),
      Declare("j", 9, 9, Bin),
      Declare("k", 10, 10, Bin),
      Declare("l", 11, 11, Bin),
      Declare("m", 12, 12, Bin),
      Declare("n", 13, 13, Bin),
      Declare("o", 14, 14, Bin),
      Declare("p", 15, 15, Bin),
      Declare("q", 16, 16, Bin),
      Declare("r", 17, 17, Bin),
      Declare("s", 18, 18, Bin),
      Declare("t", 19, 19, Bin),
      Declare("u", 20, 20, Bin),
      Declare("v", 21, 21, Bin),
      Declare("w", 22, 22, Bin),
      Declare("x", 23, 23, Bin),
      Declare("y", 24, 24, Bin),
      Declare("z", 25, 25, Bin),
      Declare("mxl", 62, 63, Arch)
    ])

  /** Machine vendor ID register. */
  const MVENDORID: Layout := Layout("Mvendorid", [
      Declare("offset", 0, 6, Hex),
      Declare("bank", 7, 31, Hex)
    ])

  /** Machine architecture ID register. */
  const MARCHID: Layout := Layout("Marchid", [
      Declare("id", 0, 63, Hex)
    ])

  /** Machine implementation ID register. */
  const MIMPID: Layout := Layout("Mimpid", [
      Declare("id", 0, 63, Hex)
    ])

  /** Hart ID register. */
  const MHARTID: Layout := Layout("Mhartid", [
      Declare("id", 0, 63, Hex)
    ])

  /** Machine status register. */
  const MSTATUS: Layout := Layout("Mstatus", [
      Declare("sie", 1, 1, Bin),
      Declare("mie", 3, 3, Bin),
      Declare("spie", 5, 5, Bin),
      Declare("ube", 6, 6, Bin),
      Declare("mpie", 7, 7, Bin),
      Declare("spp", 8, 8, Priv),
      Declare("vs", 9, 10, Bin),
      Declare("mpp", 11, 12, Priv),
      Declare("fs", 13, 14, Bin),
      Declare("xs", 15, 16, Bin),
      Declare("mprv", 17, 17, Bin),
      Declare("sum", 18, 18, Bin),
      Declare("mxr", 19, 19, Bin),
      Declare("tvm", 20, 20, Bin),
      Declare("tw", 21, 21, Bin),
      Declare("tsr", 22, 22, Bin),
      Declare("uxl", 32, 33, Arch),
      Declare("sxl", 34, 35, Arch),
      Declare("sbe", 36, 36, Bin),
      Declare("mbe", 37, 37, Bin),
      Declare("gva", 38, 38, Bin),
      Declare("mpv", 39, 39, Bin),
      Declare("sd", 63, 63, Bin)
    ])

  /** Machine trap-vector base-address register: base printed before mode. */
  const MTVEC: Layout := Layout("Mtvec", [
      Declare("base", 2, 63, Hex),
      Declare("mode", 0, 1, Tvec)
    ])

  /** The extension letter at position `k` of the alphabet. */
  function Letter(k: nat): char
    requires k < 26
  {
    ('a' as int + k) as char
  }

  /** `misa`: the 26 extension letters in alphabetical order, letter `k` at
      bit `k` in binary, then `mxl` at bits 62..63 as an architecture. */
  lemma MisaShape()
    ensures |MISA.fields| == 27
    ensures forall k :: 0 <= k < 26 ==> MISA.fields[k] == FieldSpec([Letter(k)], k, k, Bin)
    ensures MISA.fields[26] == FieldSpec("mxl", 62, 63, Arch)
  {
  }

  /** The line of extension letter `k` shows the letter and the bit. */
  lemma MisaLetterLine(raw: U64, k: nat)
    requires k < 26
    ensures Lines(MISA, raw)[2 + k] == [Letter(k)] + ": 0b" + (if Window(raw, k, 1) == 1 then "1" else "0")
  {
    MisaShape();
    FieldText(MISA, raw, k);
    assert Pow2(1) == 2;
    var b := Window(raw, k, 1);
    assert Binary(b) == [DigitChar(b)];
  }

  /** The `misa` of an RV64 hart with the A, I, M, S and U extensions. */
  const MISA_RV64IMASU: U64 := 0x8000000000141101

  /** The bits 0..25 of that value are those of the letters a, i, m, s, u. */
  lemma MisaExampleBits()
    ensures forall k :: 0 <= k < 26 ==> Window(MISA_RV64IMASU, k, 1) == if k in {0, 8, 12, 18, 20} then 1 else 0
  {
    forall k | 0 <= k < 26 ensures Window(MISA_RV64IMASU, k, 1) == if k in {0, 8, 12, 18, 20} then 1 else 0 {
      if k == 0 { assert Pow2(0) == 1 && (MISA_RV64IMASU / 1) % 2 == 1; }
      else if k == 1 { assert Pow2(1) == 2 && (MISA_RV64IMASU / 2) % 2 == 0; }
      else if k == 2 { assert Pow2(2) == 4 && (MISA_RV64IMASU / 4) % 2 == 0; }
      else if k == 3 { assert Pow2(3) == 8 && (MISA_RV64IMASU / 8) % 2 == 0; }
      else if k == 4 { assert Pow2(4) == 16 && (MISA_RV64IMASU / 16) % 2 == 0; }
      else if k == 5 { assert Pow2(5) == 32 && (MISA_RV64IMASU / 32) % 2 == 0; }
      else if k == 6 { assert Pow2(6) == 64 && (MISA_RV64IMASU / 64) % 2 == 0; }
      else if k == 7 { assert Pow2(7) == 128 && (MISA_RV64IMASU / 128) % 2 == 0; }
      else if k == 8 { assert Pow2(8) == 256 && (MISA_RV64IMASU / 256) % 2 == 1; }
      else if k == 9 { assert Pow2(9) == 512 && (MISA_RV64IMASU / 512) % 2 == 0; }
      else if k == 10 { assert Pow2(10) == 1024 && (MISA_RV64IMASU / 1024) % 2 == 0; }
      else if k == 11 { assert Pow2(11) == 2048 && (MISA_RV64IMASU / 2048) % 2 == 0; }
      else if k == 12 { assert Pow2(12) == 4096 && (MISA_RV64IMASU / 4096) % 2 == 1; }
      else if k == 13 { assert Pow2(13) == 8192 && (MISA_RV64IMASU / 8192) % 2 == 0; }
      else if k == 14 { assert Pow2(14) == 16384 && (MISA_RV64IMASU / 16384) % 2 == 0; }
      else if k == 15 { assert Pow2(15) == 32768 && (MISA_RV64IMASU / 32768) % 2 == 0; }
      else if k == 16 { assert Pow2(16) == 65536 && (MISA_RV64IMASU / 65536) % 2 == 0; }
      else if k == 17 { assert Pow2(17) == 131072 && (MISA_RV64IMASU / 131072) % 2 == 0; }
      else if k == 18 { assert Pow2(18) == 262144 && (MISA_RV64IMASU / 262144) % 2 == 1; }
      else if k == 19 { assert Pow2(19) == 524288 && (MISA_RV64IMASU / 524288) % 2 == 0; }
      else if k == 20 { assert Pow2(20) == 1048576 && (MISA_RV64IMASU / 1048576) % 2 == 1; }
      else if k == 21 { assert Pow2(21) == 2097152 && (MISA_RV64IMASU / 2097152) % 2 == 0; }
      else if k == 22 { assert Pow2(22) == 4194304 && (MISA_RV64IMASU / 4194304) % 2 == 0; }
      else if k == 23 { assert Pow2(23) == 8388608 && (MISA_RV64IMASU / 8388608) % 2 == 0; }
      else if k == 24 { assert Pow2(24) == 16777216 && (MISA_RV64IMASU / 16777216) % 2 == 0; }
      else if k == 25 { assert Pow2(25) == 33554432 && (MISA_RV64IMASU / 33554432) % 2 == 0; }
    }
  }

  /** Printing that value shows "0b1" exactly for the letters a, i, m, s
      and u. */
  lemma MisaExampleLetters()
    ensures forall k :: 0 <= k < 26 ==>
      Lines(MISA, MISA_RV64IMASU)[2 + k] == [Letter(k)] + ": 0b" + if k in {0, 8, 12, 18, 20} then "1" else "0"
  {
    MisaExampleBits();
    forall k | 0 <= k < 26
      ensures Lines(MISA, MISA_RV64IMASU)[2 + k] == [Letter(k)] + ": 0b" + if k in {0, 8, 12, 18, 20} then "1" else "0"
    {
      MisaLetterLine(MISA_RV64IMASU, k);
    }
  }

  /** The title is "misa". */
  lemma MisaTitle(raw: U64)
    ensures Lines(MISA, raw)[0] == "misa"
  {
    var t := Lines(MISA, raw)[0];
    assert t == Lower("Misa");
    assert t[0] == 'm' && t[1] == 'i' && t[2] == 's' && t[3] == 'a';
  }

  /** The line of the last letter of that value is "z: 0b0". */
  lemma MisaExampleLast()
    ensures Lines(MISA, MISA_RV64IMASU)[27] == "z: 0b0"
  {
    MisaExampleLetters();
    assert Lines(MISA, MISA_RV64IMASU)[27] == [Letter(25)] + ": 0b" + "0";
  }

  /** The line of `mxl` names the architecture of bits 62..63. */
  lemma MisaMxlLine(raw: U64)
    ensures Lines(MISA, raw)[28] == "mxl: " + ArchText(Window(raw, 62, 2))
  {
    MisaMxlField();
    FieldText(MISA, raw, 26);
  }

  /** The last field of `misa` is `mxl`. */
  lemma MisaMxlField()
    ensures |MISA.fields| == 27 && MISA.fields[26] == FieldSpec("mxl", 62, 63, Arch)
  {
  }

  /** The last line of that value is "mxl: RV64". */
  lemma MisaExampleMxl()
    ensures Lines(MISA, MISA_RV64IMASU)[28] == "mxl: RV64"
  {
    MisaMxlLine(MISA_RV64IMASU);
    assert Pow2(62) == 0x4000000000000000 && Pow2(2) == 4;
    assert Window(MISA_RV64IMASU, 62, 2) == 2;
  }

  /** `mvendorid`: the offset (bits 0..6) and the bank (bits 7..31) in hex;
      together they are the low 32 bits of the register. */
  lemma MvendoridLines(raw: U64)
    ensures |Lines(MVENDORID, raw)| == 4
    ensures Lines(MVENDORID, raw)[2] == "offset: 0x" + LowerHex(Window(raw, 0, 7))
    ensures Lines(MVENDORID, raw)[3] == "bank: 0x" + LowerHex(Window(raw, 7, 25))
    ensures Window(raw, 7, 25) * 128 + Window(raw, 0, 7) == raw % Pow2(32)
  {
    FieldText(MVENDORID, raw, 0);
    FieldText(MVENDORID, raw, 1);
    SplitAt(raw, 7, 25);
    LowWindow(raw, 7);
    assert Pow2(7) == 128;
  }

  /** `marchid`, `mimpid` and `mhartid`: one line "id: 0x" followed by the
      whole register in hex. */
  lemma IdLines(raw: U64)
    ensures |Lines(MARCHID, raw)| == 3 && Lines(MARCHID, raw)[2] == "id: 0x" + LowerHex(raw)
    ensures |Lines(MIMPID, raw)| == 3 && Lines(MIMPID, raw)[2] == "id: 0x" + LowerHex(raw)
    ensures |Lines(MHARTID, raw)| == 3 && Lines(MHARTID, raw)[2] == "id: 0x" + LowerHex(raw)
  {
    WholeWord(raw);
    FieldText(MARCHID, raw, 0);
    FieldText(MIMPID, raw, 0);
    FieldText(MHARTID, raw, 0);
  }

  /** `mstatus`: `spp` is one bit, so it shows User or Supervisor and
      never a warning. */
  lemma MstatusSppLine(raw: U64)
    ensures Lines(MSTATUS, raw)[7] == "spp: " + if Window(raw, 8, 1) == 0 then "User" else "Supervisor"
  {
    FieldText(MSTATUS, raw, 5);
    assert MSTATUS.fields[5] == FieldSpec("spp", 8, 8, Priv);
    assert Pow2(1) == 2;
  }

  /** `mstatus`: `mpp` is printed as a privilege. */
  lemma MstatusMppLine(raw: U64)
    ensures Lines(MSTATUS, raw)[9] == "mpp: " + PrivText(Window(raw, 11, 2))
  {
    FieldText(MSTATUS, raw, 7);
    assert MSTATUS.fields[7] == FieldSpec("mpp", 11, 12, Priv);
  }

  /** `mpp` is two bits, and only the value 0b10 names no privilege. */
  lemma MppWarning(raw: U64)
    ensures IsWarning(PrivText(Window(raw, 11, 2))) <==> Window(raw, 11, 2) == 2
    ensures Window(raw, 11, 2) == 2 ==> PrivText(Window(raw, 11, 2)) == Warn("Invalid privilege (0b10)")
  {
    var v := Window(raw, 11, 2);
    assert Pow2(2) == 4;
    EnumeratedMeaning(Priv, v, 2);
    assert Binary(2) == "10";
  }

  /** `mtvec`: the base (the register shifted right by two) is printed before
      the mode (its low two bits), and the two give the register back. */
  lemma MtvecLines(raw: U64)
    ensures |Lines(MTVEC, raw)| == 4
    ensures Lines(MTVEC, raw)[2] == "base: 0x" + LowerHex(raw / 4)
    ensures Lines(MTVEC, raw)[3] == "mode: " + TvecText(raw % 4)
    ensures raw == 4 * (raw / 4) + raw % 4
  {
    FieldText(MTVEC, raw, 0);
    FieldText(MTVEC, raw, 1);
    Pow2Word();
    TopWindow(raw, 2);
    LowWindow(raw, 2);
    assert Pow2(2) == 4;
  }
}
