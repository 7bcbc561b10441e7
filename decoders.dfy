/** The decoders a bit field is printed with: one datatype for the family
    of `BitFieldType` implementations, and `Decode` for their `decode`. */
module Decoders {
  import opened Arith
  import opened BitOps
  import opened Fmt
  import opened Opcodes

  /** The address-translation scheme a physical page number is split for. */
  datatype Scheme = Sv32 | Sv39 | Sv48 | Sv57

  datatype Decoder =
    | Bin | Bool | Hex | Dec | Arch | Priv | Atp | Ppn(scheme: Scheme) | Tvec | ExcCode
    | RSh(shift: nat, inner: Decoder)
    | Opcode

  /** What `decode` needs in order not to panic: `Bin` subtracts the length
      of the numeral from the field size, and `RSh` shifts a `u64` by its
      constant, which must be below 64. */
  predicate Decodable(d: Decoder, value: U64, size: nat)
    decreases d
  {
    match d
    case Bin => |Binary(value)| <= size
    case RSh(n, inner) =>
      n < 64 && Decodable(inner, value, size) && Decodable(inner, Shl(value, n, 64), size)
    case _ => true
  }

  /** `T::decode(value, size)` for each decoder `T`. */
  function Decode(d: Decoder, value: U64, size: nat): string
    requires Decodable(d, value, size)
    decreases d
  {
    match d
    case Bin => BinText(value, size)
    case Bool => BoolText(value)
    case Hex => HexText(value)
    case Dec => Decimal(value)
    case Arch => ArchText(value)
    case Priv => PrivText(value)
    case Atp => AtpText(value)
    case Ppn(s) => PpnText(s, value)
    case Tvec => TvecText(value)
    case ExcCode => ExcCodeText(value)
    case RSh(n, inner) => Decode(inner, value, size) + " -> " + Decode(inner, Shl(value, n, 64), size)
    case Opcode => OpcodeText(value)
  }

  /** `Bin`: the binary numeral, padded with zeros to the field size. */
  function BinText(value: nat, size: nat): string
    requires |Binary(value)| <= size
  {
    var bits := Binary(value);
    "0b" + Repeat('0', size - |bits|) + bits
  }

  function HexText(value: nat): string
  {
    "0x" + LowerHex(value)
  }

  function BoolText(value: nat): string
  {
    match value
    case 0 => "false"
    case 1 => "true"
    case _ => Warn("Could not represent 0b" + Binary(value) + " as boolean")
  }

  function ArchText(value: nat): string
  {
    match value
    case 1 => "RV32"
    case 2 => "RV64"
    case 3 => "RV128"
    case _ => Warn("Invalid architecture (0b" + Binary(value) + ")")
  }

  function PrivText(value: nat): string
  {
    match value
    case 0 => "User"
    case 1 => "Supervisor"
    case 3 => "Machine"
    case _ => Warn("Invalid privilege (0b" + Binary(value) + ")")
  }

  function AtpText(value: nat): string
  {
    match value
    case 0x0 => "Bare"
    case 0x1 => "Sv32"
    case 0x8 => "Sv39"
    case 0x9 => "Sv48"
    case 0xa => "Sv57"
    case _ => Warn("Invalid address translation mode (0b" + Binary(value) + ")")
  }

  function TvecText(value: nat): string
  {
    match value
    case 0 => "Direct"
    case 1 => "Vectored"
    case _ => Warn("Invalid (0b" + Binary(value) + ")")
  }

  /** `Ppn<N>`: the page-number groups of the scheme, most significant
      first, then the page address the number denotes (a wrapping `u64`
      shift by 12). */
  function PpnText(s: Scheme, value: U64): string
  {
    var page := " -> 0x" + LowerHex(Shl(value, 12, 64));
    match s
    case Sv32 =>
      "0x" + LowerHex(GetBits(value, 10, 21, 64)) + " 0x" + LowerHex(GetBits(value, 0, 9, 64)) + page
    case Sv39 =>
      "0x" + LowerHex(GetBits(value, 18, 43, 64)) + " 0x" + LowerHex(GetBits(value, 9, 17, 64))
      + " 0x" + LowerHex(GetBits(value, 0, 8, 64)) + page
    case Sv48 =>
      "0x" + LowerHex(GetBits(value, 27, 43, 64)) + " 0x" + LowerHex(GetBits(value, 18, 26, 64))
      + " 0x" + LowerHex(GetBits(value, 9, 17, 64)) + " 0x" + LowerHex(GetBits(value, 0, 8, 64)) + page
    case Sv57 =>
      "0x" + LowerHex(GetBits(value, 36, 43, 64)) + " 0x" + LowerHex(GetBits(value, 27, 35, 64))
      + " 0x" + LowerHex(GetBits(value, 18, 26, 64)) + " 0x" + LowerHex(GetBits(value, 9, 17, 64))
      + " 0x" + LowerHex(GetBits(value, 0, 8, 64)) + page
  }

  /** `ExcCode`: bit 63 is the interrupt flag and bits 0..62 the code; the
      pair is looked up in the interrupt and the synchronous-exception
      tables (the misspelt "interrrupt" is the source's). */
  function ExcCodeText(value: U64): string
  {
    ExcCause(GetBit(value, 63, 64), GetBits(value, 0, 62, 64))
  }

  /** The lookup of an (interrupt flag, code) pair in the two tables. */
  function ExcCause(interrupt: nat, code: nat): string
  {
    match (interrupt, code)
    case (1, 1) => "Supervisor software interrupt"
    case (1, 2) => "Virtual supervisor software interrupt"
    case (1, 3) => "Machine software interrupt"
    case (1, 5) => "Supervisor timer interrupt"
    case (1, 6) => "Virtual supervisor timer interrupt"
    case (1, 7) => "Machine timer interrupt"
    case (1, 9) => "Supervisor external interrupt"
    case (1, 10) => "Virtual supervisor external interrupt"
    case (1, 11) => "Machine external interrupt"
    case (1, 12) => "Supervisor guest external interrrupt"
    case (0, 0) => "Instruction address misaligned"
    case (0, 1) => "Instruction access fault"
    case (0, 2) => "Illegal instruction"
    case (0, 3) => "Breakpoint"
    case (0, 4) => "Load address misaligned"
    case (0, 5) => "Load access fault"
    case (0, 6) => "Store/AMO address misaligned"
    case (0, 7) => "Store/AMO access fault"
    case (0, 8) => "Environment call from U-mode"
    case (0, 9) => "Environment call from HS-mode"
    case (0, 10) => "Environment call from VS-mode"
    case (0, 11) => "Environment call from M-mode"
    case (0, 12) => "Instruction page fault"
    case (0, 13) => "Load page fault"
    case (0, 15) => "Store/AMO page fault"
    case (0, 20) => "Instruction guest-page fault"
    case (0, 21) => "Load guest-page fault"
    case (0, 22) => "Virtual instruction"
    case (0, 23) => "Store/AMO guest-page fault"
    case _ => Warn("Unknown exception code (" + Decimal(code) + ")")
  }

  /** `Bin` can print a value exactly when it fits in the field, and then
      prints "0b" and `size` binary digits that read back as the value. */
  lemma BinTextMeaning(value: nat, size: nat)
    requires size >= 1
    ensures |Binary(value)| <= size <==> value < Pow2(size)
    ensures value < Pow2(size) ==>
      var r := BinText(value, size);
      |r| == size + 2 && r[..2] == "0b" && IsNumeral(r[2..], 2) && ValueOf(r[2..], 2) == value
  {
    BinaryLength(value, size);
    if value < Pow2(size) {
      var bits := Binary(value);
      var padded := ZeroPad(bits, size);
      BinTextPadded(value, size);
      PrefixParts("0b", padded);
      DigitsAreDigits(value, 2);
      DigitsRoundTrip(value, 2);
      ZeroPadNumeral(bits, size, 2);
    }
  }

  lemma BinTextPadded(value: nat, size: nat)
    requires |Binary(value)| <= size
    ensures BinText(value, size) == "0b" + ZeroPad(Binary(value), size)
  {
    var bits := Binary(value);
    if |bits| == size {
      assert Repeat('0', 0) + bits == bits;
    }
  }

  /** `Hex` prints "0x" and the unpadded lower-case hex numeral of the value. */
  lemma HexTextMeaning(value: nat)
    ensures var r := HexText(value);
      r[..2] == "0x" && IsNumeral(r[2..], 16) && ValueOf(r[2..], 16) == value &&
      |r| >= 3 && (r[2] == '0' <==> value == 0)
  {
    var r := HexText(value);
    assert r[2..] == LowerHex(value);
    DigitsAreDigits(value, 16);
    DigitsRoundTrip(value, 16);
    DigitsCanonical(value, 16);
  }

  /** `Dec` prints the unpadded decimal numeral of the value. */
  lemma DecTextMeaning(value: U64, size: nat)
    ensures var r := Decode(Dec, value, size);
      IsNumeral(r, 10) && ValueOf(r, 10) == value && |r| >= 1 && (r[0] == '0' <==> value == 0)
  {
    DigitsAreDigits(value, 10);
    DigitsRoundTrip(value, 10);
    DigitsCanonical(value, 10);
  }

  /** The formatting test of the source: bits 0..5 of 5 print "0b000101". */
  lemma BinTextExample()
    ensures BinText(5, 6) == "0b000101"
  {
    assert Binary(5) == "101";
  }

  /** The decoders that name a few values and warn about the rest. */
  predicate IsEnumerated(d: Decoder)
  {
    d == Bool || d == Arch || d == Priv || d == Atp || d == Tvec
  }

  /** The values an enumerated decoder has a name for. */
  function Recognised(d: Decoder): set<nat>
  {
    match d
    case Bool => {0, 1}
    case Arch => {1, 2, 3}
    case Priv => {0, 1, 3}
    case Atp => {0, 1, 8, 9, 10}
    case Tvec => {0, 1}
    case _ => {}
  }

  /** The warning message of an enumerated decoder around the binary numeral. */
  function WarnBefore(d: Decoder): string
  {
    match d
    case Bool => "Could not represent 0b"
    case Arch => "Invalid architecture (0b"
    case Priv => "Invalid privilege (0b"
    case Atp => "Invalid address translation mode (0b"
    case _ => "Invalid (0b"
  }

  function WarnAfter(d: Decoder): string
  {
    if d == Bool then " as boolean" else ")"
  }

  /** An enumerated decoder names exactly its recognised values; every other
      value gets a warning holding the value's binary numeral. */
  lemma EnumeratedMeaning(d: Decoder, v: U64, size: nat)
    requires IsEnumerated(d)
    ensures !IsWarning(Decode(d, v, size)) <==> v in Recognised(d)
    ensures v !in Recognised(d) ==>
      Decode(d, v, size) == Warn(WarnBefore(d) + Binary(v) + WarnAfter(d))
  {
    if v in Recognised(d) {
      NotWarning(Decode(d, v, size));
    } else {
      WarnInjective(WarnBefore(d) + Binary(v) + WarnAfter(d), "");
    }
  }

  lemma InfixInjective(p: string, a: string, b: string, s: string)
    requires p + a + s == p + b + s
    ensures a == b
  {
    assert |a| == |b|;
    assert a == (p + a + s)[|p|..|p| + |a|];
    assert b == (p + b + s)[|p|..|p| + |b|];
  }

  /** Different values print differently under an enumerated decoder: the
      names are distinct and a warning determines its value. */
  lemma EnumeratedInjective(d: Decoder, v1: U64, v2: U64, size: nat)
    requires IsEnumerated(d)
    ensures Decode(d, v1, size) == Decode(d, v2, size) <==> v1 == v2
  {
    if Decode(d, v1, size) == Decode(d, v2, size) {
      EnumeratedMeaning(d, v1, size);
      EnumeratedMeaning(d, v2, size);
      if v1 in Recognised(d) && v2 in Recognised(d) {
        NamesDistinct(d, v1, v2, size);
      } else if v1 !in Recognised(d) && v2 !in Recognised(d) {
        var m1 := WarnBefore(d) + Binary(v1) + WarnAfter(d);
        var m2 := WarnBefore(d) + Binary(v2) + WarnAfter(d);
        WarnInjective(m1, m2);
        InfixInjective(WarnBefore(d), Binary(v1), Binary(v2), WarnAfter(d));
        DigitsInjective(v1, v2, 2);
      }
    }
  }

  /** An enumerated decoder gives its recognised values distinct names. */
  lemma NamesDistinct(d: Decoder, v1: U64, v2: U64, size: nat)
    requires IsEnumerated(d) && v1 in Recognised(d) && v2 in Recognised(d)
    requires Decode(d, v1, size) == Decode(d, v2, size)
    ensures v1 == v2
  {
  }

  /** The source's example: `Atp` of 3 is the invalid-mode warning "(0b11)". */
  lemma AtpExample()
    ensures AtpText(3) == Warn("Invalid address translation mode (0b11)")
  {
    assert Binary(3) == "11";
  }

  /** The interrupt codes of the `mcause`/`scause` table (section 3.1.15 of
      the RISC-V Privileged Architecture, with the hypervisor codes of its
      chapter 8) that the decoder names. */
  const INTERRUPT_CODES: set<nat> := {1, 2, 3, 5, 6, 7, 9, 10, 11, 12}

  /** The synchronous exception codes the decoder names: 0..13, 15, 20..23. */
  const EXCEPTION_CODES: set<nat> := {0, 1, 2, 3, 4, 5, 6, 7, 8, 9, 10, 11, 12, 13, 15, 20, 21, 22, 23}

  /** The flag is the top bit of the word and the code all the bits below it. */
  lemma ExcCodeSplit(v: U64)
    ensures GetBit(v, 63, 64) == v / Pow2(63)
    ensures GetBits(v, 0, 62, 64) == v % Pow2(63)
    ensures v == (v / Pow2(63)) * Pow2(63) + v % Pow2(63)
  {
    GetBitIsGetBits(v, 63, 64);
    GetBitsIsWindow(v, 0, 62, 64);
    assert Pow2(1) == 2 && Pow2(0) == 1;
    Pow2Add(63, 1);
    DivBelow(v, Pow2(63), 2);
    DivModParts(v, Pow2(63));
  }

  /** A pair is named exactly when its code is in the table of its kind;
      otherwise the warning shows the code alone. */
  lemma ExcCauseMeaning(flag: nat, code: nat)
    requires flag < 2
    ensures !IsWarning(ExcCause(flag, code)) <==>
      (if flag == 1 then code in INTERRUPT_CODES else code in EXCEPTION_CODES)
    ensures IsWarning(ExcCause(flag, code)) ==>
      ExcCause(flag, code) == Warn("Unknown exception code (" + Decimal(code) + ")")
  {
    if (flag == 1 && code in INTERRUPT_CODES) || (flag == 0 && code in EXCEPTION_CODES) {
      CauseNamed(flag, code);
    } else {
      CauseUnknown(flag, code);
      WarnInjective("Unknown exception code (" + Decimal(code) + ")", "");
    }
  }

  /** A pair outside both tables falls through to the warning. */
  lemma CauseUnknown(flag: nat, code: nat)
    requires !(flag == 1 && code in INTERRUPT_CODES) && !(flag == 0 && code in EXCEPTION_CODES)
    ensures ExcCause(flag, code) == Warn("Unknown exception code (" + Decimal(code) + ")")
  {
  }

  /** A cause word is named exactly when its code is in the table of the kind
      its top bit selects; otherwise the warning shows the code without the
      interrupt flag. */
  lemma ExcCodeMeaning(v: U64)
    ensures var flag, code := v / Pow2(63), v % Pow2(63);
      (!IsWarning(ExcCodeText(v)) <==>
        (if flag == 1 then code in INTERRUPT_CODES else code in EXCEPTION_CODES)) &&
      (IsWarning(ExcCodeText(v)) ==>
        ExcCodeText(v) == Warn("Unknown exception code (" + Decimal(code) + ")"))
  {
    ExcCodeSplit(v);
    ExcCauseMeaning(v / Pow2(63), v % Pow2(63));
  }

  /** The word with flag `flag` and code `code` is looked up as that pair. */
  lemma ExcCodeOfPair(flag: nat, code: nat)
    requires flag < 2 && code < Pow2(63)
    ensures Pow2(63) * 2 == WORD
    ensures ExcCodeText(flag * Pow2(63) + code) == ExcCause(flag, code)
  {
    Pow2Succ(63);
    var v := flag * Pow2(63) + code;
    assert v < WORD;
    ExcCodeSplit(v);
    DivModUnique(v, Pow2(63), flag, code);
  }

  /** The example interrupt: code 11 with the flag set. */
  lemma ExcCodeInterruptExample()
    ensures ExcCodeText(0x8000_0000_0000_000b) == "Machine external interrupt"
  {
    assert Pow2(63) == 0x8000_0000_0000_0000;
    ExcCodeOfPair(1, 11);
  }

  /** The example exception: code 12 with the flag clear. */
  lemma ExcCodeExceptionExample()
    ensures ExcCodeText(12) == "Instruction page fault"
  {
    assert Pow2(63) == 0x8000_0000_0000_0000;
    ExcCodeOfPair(0, 12);
  }

  /** The unnamed code 14 is reported by its number whatever the flag. */
  lemma ExcCodeUnknownExample()
    ensures ExcCodeText(14) == Warn("Unknown exception code (14)")
  {
    ExcCodeOfPair(0, 14);
    CauseUnknown(0, 14);
    assert Decimal(14) == "14";
  }

  lemma ExcCodeUnknownInterruptExample()
    ensures ExcCodeText(0x8000_0000_0000_000e) == Warn("Unknown exception code (14)")
  {
    assert Pow2(63) == 0x8000_0000_0000_0000;
    ExcCodeOfPair(1, 14);
    CauseUnknown(1, 14);
    assert Decimal(14) == "14";
  }

  /** The page-number groups of a scheme as (start, end) spans of the
      number, most significant first (sections 4.3 to 4.6 of the RISC-V
      Privileged Architecture). */
  function Groups(s: Scheme): seq<(nat, nat)>
  {
    match s
    case Sv32 => [(10, 21), (0, 9)]
    case Sv39 => [(18, 43), (9, 17), (0, 8)]
    case Sv48 => [(27, 43), (18, 26), (9, 17), (0, 8)]
    case Sv57 => [(36, 43), (27, 35), (18, 26), (9, 17), (0, 8)]
  }

  predicate SpansInWord(gs: seq<(nat, nat)>)
  {
    forall i :: 0 <= i < |gs| ==> gs[i].0 <= gs[i].1 <= 63
  }

  /** Spans that tile the bits from the end of the first down to bit 0:
      each starts one above where the next ends. */
  predicate Tiles(gs: seq<(nat, nat)>)
  {
    |gs| >= 1 && SpansInWord(gs) && gs[|gs| - 1].0 == 0 &&
    forall i :: 1 <= i < |gs| ==> gs[i].1 + 1 == gs[i - 1].0
  }

  /** The groups printed in order, each as "0x<hex> ". */
  function GroupsText(gs: seq<(nat, nat)>, v: U64): string
    requires SpansInWord(gs)
  {
    if gs == [] then ""
    else "0x" + LowerHex(GetBits(v, gs[0].0, gs[0].1, 64)) + " " + GroupsText(gs[1..], v)
  }

  /** The sum of the groups put back at their positions. */
  function Reassemble(gs: seq<(nat, nat)>, v: U64): nat
    requires SpansInWord(gs)
  {
    if gs == [] then 0
    else
      assert SpansInWord(gs[1..]) by {
        forall i | 0 <= i < |gs| - 1 ensures gs[1..][i].0 <= gs[1..][i].1 <= 63 {
          assert gs[1..][i] == gs[i + 1];
        }
      }
      var g := GetBits(v, gs[0].0, gs[0].1, 64);
      MulNonneg(g, Pow2(gs[0].0));
      g * Pow2(gs[0].0) + Reassemble(gs[1..], v)
  }

  /** Tiling groups lose and repeat no bit: put back together they are the
      value's bits from the top of the first group down. */
  lemma {:induction false} ReassembleTiles(gs: seq<(nat, nat)>, v: U64)
    requires Tiles(gs)
    ensures Reassemble(gs, v) == v % Pow2(gs[0].1 + 1)
    decreases |gs|
  {
    var s, e := gs[0].0, gs[0].1;
    GetBitsIsWindow(v, s, e, 64);
    SplitAt(v, s, e - s + 1);
    var rest := gs[1..];
    if |gs| == 1 {
      assert s == 0;
      assert Pow2(0) == 1;
    } else {
      assert Tiles(rest) by {
        forall i | 1 <= i < |rest| ensures rest[i].1 + 1 == rest[i - 1].0 {
          assert rest[i] == gs[i + 1] && rest[i - 1] == gs[i];
        }
      }
      ReassembleTiles(rest, v);
      assert rest[0].1 + 1 == s;
    }
  }

  /** In a tiling every span lies wholly below the spans before it. */
  lemma {:induction false} TilesOrdered(gs: seq<(nat, nat)>, i: nat, j: nat)
    requires Tiles(gs) && i < j < |gs|
    ensures gs[j].1 < gs[i].0
    decreases j - i
  {
    if j > i + 1 {
      TilesOrdered(gs, i, j - 1);
    }
  }

  /** A tiling covers each bit from the top of its first span down to 0
      with exactly one span, and no bit above it. */
  lemma {:induction false} TilesPartition(gs: seq<(nat, nat)>, b: nat)
    requires Tiles(gs)
    ensures b <= gs[0].1 ==> exists i :: 0 <= i < |gs| && gs[i].0 <= b <= gs[i].1
    ensures forall i, j :: 0 <= i < |gs| && 0 <= j < |gs| && gs[i].0 <= b <= gs[i].1 && gs[j].0 <= b <= gs[j].1 ==> i == j
    ensures forall i :: 0 <= i < |gs| && gs[i].0 <= b <= gs[i].1 ==> b <= gs[0].1
    decreases |gs|
  {
    forall i, j | 0 <= i < |gs| && 0 <= j < |gs| && gs[i].0 <= b <= gs[i].1 && gs[j].0 <= b <= gs[j].1
      ensures i == j
    {
      if i < j {
        TilesOrdered(gs, i, j);
      } else if j < i {
        TilesOrdered(gs, j, i);
      }
    }
    forall i | 0 <= i < |gs| && gs[i].0 <= b <= gs[i].1 ensures b <= gs[0].1 {
      if i > 0 {
        TilesOrdered(gs, 0, i);
      }
    }
    if b <= gs[0].1 && b < gs[0].0 {
      var rest := gs[1..];
      assert Tiles(rest) by {
        forall i | 1 <= i < |rest| ensures rest[i].1 + 1 == rest[i - 1].0 {
          assert rest[i] == gs[i + 1] && rest[i - 1] == gs[i];
        }
      }
      TilesPartition(rest, b);
      var k :| 0 <= k < |rest| && rest[k].0 <= b <= rest[k].1;
      assert gs[k + 1] == rest[k];
    }
  }

  /** The highest bit of the page number a scheme's groups cover. */
  function PpnTop(s: Scheme): nat
  {
    if s == Sv32 then 21 else 43
  }

  /** One group per page-table level, the lower groups one level index
      wide (10 bits for Sv32, 9 otherwise), together tiling the page number:
      printing the groups loses no bit of it. */
  lemma PpnGroupsTile(s: Scheme, v: U64)
    ensures var gs := Groups(s);
      Tiles(gs) && gs[0].1 == PpnTop(s) &&
      |gs| == (match s case Sv32 => 2 case Sv39 => 3 case Sv48 => 4 case Sv57 => 5) &&
      (forall i :: 1 <= i < |gs| ==> gs[i].1 - gs[i].0 + 1 == (if s == Sv32 then 10 else 9)) &&
      Reassemble(gs, v) == v % Pow2(PpnTop(s) + 1)
  {
    GroupsShape(s);
    ReassembleTiles(Groups(s), v);
  }

  lemma GroupsShape(s: Scheme)
    ensures var gs := Groups(s);
      Tiles(gs) && gs[0].1 == PpnTop(s) &&
      |gs| == (match s case Sv32 => 2 case Sv39 => 3 case Sv48 => 4 case Sv57 => 5) &&
      (forall i :: 1 <= i < |gs| ==> gs[i].1 - gs[i].0 + 1 == (if s == Sv32 then 10 else 9))
  {
  }

  /** `Ppn` prints the scheme's groups in order, then the page address. */
  lemma PpnTextGroups(s: Scheme, v: U64)
    ensures PpnText(s, v) == GroupsText(Groups(s), v) + "-> 0x" + LowerHex(Shl(v, 12, 64))
  {
    match s
    case Sv32 => PpnTextSv32(v);
    case Sv39 => PpnTextSv39(v);
    case Sv48 => PpnTextSv48(v);
    case Sv57 => PpnTextSv57(v);
  }

  lemma PpnTextSv32(v: U64)
    ensures PpnText(Sv32, v) == GroupsText(Groups(Sv32), v) + "-> 0x" + LowerHex(Shl(v, 12, 64))
  {
    var gs := Groups(Sv32);
    var a, b := LowerHex(GetBits(v, 10, 21, 64)), LowerHex(GetBits(v, 0, 9, 64));
    var z := LowerHex(Shl(v, 12, 64));
    assert PpnText(Sv32, v) == "0x" + a + " 0x" + b + " -> 0x" + z;
    GroupsTextUnfold(gs, v, 0);
    GroupsTextUnfold(gs, v, 1);
    assert gs[0..] == gs;
    assert gs[2..] == [];
    Concat2(a, b, z);
  }

  lemma PpnTextSv39(v: U64)
    ensures PpnText(Sv39, v) == GroupsText(Groups(Sv39), v) + "-> 0x" + LowerHex(Shl(v, 12, 64))
  {
    var gs := Groups(Sv39);
    var a, b, c := LowerHex(GetBits(v, 18, 43, 64)), LowerHex(GetBits(v, 9, 17, 64)), LowerHex(GetBits(v, 0, 8, 64));
    var z := LowerHex(Shl(v, 12, 64));
    assert PpnText(Sv39, v) == "0x" + a + " 0x" + b + " 0x" + c + " -> 0x" + z;
    GroupsTextUnfold(gs, v, 0);
    GroupsTextUnfold(gs, v, 1);
    GroupsTextUnfold(gs, v, 2);
    assert gs[0..] == gs;
    assert gs[3..] == [];
    Concat3(a, b, c, z);
  }

  lemma PpnTextSv48(v: U64)
    ensures PpnText(Sv48, v) == GroupsText(Groups(Sv48), v) + "-> 0x" + LowerHex(Shl(v, 12, 64))
  {
    var gs := Groups(Sv48);
    var a, b := LowerHex(GetBits(v, 27, 43, 64)), LowerHex(GetBits(v, 18, 26, 64));
    var c, d := LowerHex(GetBits(v, 9, 17, 64)), LowerHex(GetBits(v, 0, 8, 64));
    var z := LowerHex(Shl(v, 12, 64));
    assert PpnText(Sv48, v) == "0x" + a + " 0x" + b + " 0x" + c + " 0x" + d + " -> 0x" + z;
    GroupsTextUnfold(gs, v, 0);
    GroupsTextUnfold(gs, v, 1);
    GroupsTextUnfold(gs, v, 2);
    GroupsTextUnfold(gs, v, 3);
    assert gs[0..] == gs;
    assert gs[4..] == [];
    Concat4(a, b, c, d, z);
  }

  lemma PpnTextSv57(v: U64)
    ensures PpnText(Sv57, v) == GroupsText(Groups(Sv57), v) + "-> 0x" + LowerHex(Shl(v, 12, 64))
  {
    var a, b, c := LowerHex(GetBits(v, 36, 43, 64)), LowerHex(GetBits(v, 27, 35, 64)), LowerHex(GetBits(v, 18, 26, 64));
    var d, e := LowerHex(GetBits(v, 9, 17, 64)), LowerHex(GetBits(v, 0, 8, 64));
    var z := LowerHex(Shl(v, 12, 64));
    assert PpnText(Sv57, v) == "0x" + a + " 0x" + b + " 0x" + c + " 0x" + d + " 0x" + e + " -> 0x" + z;
    GroupsSv57(v);
    Concat5(a, b, c, d, e, z);
  }

  lemma GroupsSv57(v: U64)
    ensures GroupsText(Groups(Sv57), v) ==
      "0x" + LowerHex(GetBits(v, 36, 43, 64)) + " " + ("0x" + LowerHex(GetBits(v, 27, 35, 64)) + " " +
      ("0x" + LowerHex(GetBits(v, 18, 26, 64)) + " " + ("0x" + LowerHex(GetBits(v, 9, 17, 64)) + " " +
      ("0x" + LowerHex(GetBits(v, 0, 8, 64)) + " " + ""))))
  {
    var gs := Groups(Sv57);
    GroupsTextUnfold(gs, v, 0);
    GroupsTextUnfold(gs, v, 1);
    GroupsTextUnfold(gs, v, 2);
    GroupsTextUnfold(gs, v, 3);
    GroupsTextUnfold(gs, v, 4);
    assert gs[0..] == gs;
    assert gs[5..] == [];
  }

  lemma GroupsTextUnfold(gs: seq<(nat, nat)>, v: U64, i: nat)
    requires SpansInWord(gs) && i < |gs|
    ensures GroupsText(gs[i..], v) == "0x" + LowerHex(GetBits(v, gs[i].0, gs[i].1, 64)) + " " + GroupsText(gs[i + 1..], v)
  {
    assert gs[i..][1..] == gs[i + 1..];
  }

  lemma Concat2(a: string, b: string, z: string)
    ensures "0x" + a + " 0x" + b + " -> 0x" + z == "0x" + a + " " + ("0x" + b + " " + "") + "-> 0x" + z
  {
  }

  lemma Concat3(a: string, b: string, c: string, z: string)
    ensures "0x" + a + " 0x" + b + " 0x" + c + " -> 0x" + z
         == "0x" + a + " " + ("0x" + b + " " + ("0x" + c + " " + "")) + "-> 0x" + z
  {
  }

  lemma Concat4(a: string, b: string, c: string, d: string, z: string)
    ensures "0x" + a + " 0x" + b + " 0x" + c + " 0x" + d + " -> 0x" + z
         == "0x" + a + " " + ("0x" + b + " " + ("0x" + c + " " + ("0x" + d + " " + ""))) + "-> 0x" + z
  {
  }

  lemma Concat5(a: string, b: string, c: string, d: string, e: string, z: string)
    ensures "0x" + a + " 0x" + b + " 0x" + c + " 0x" + d + " 0x" + e + " -> 0x" + z
         == "0x" + a + " " + ("0x" + b + " " + ("0x" + c + " " + ("0x" + d + " " + ("0x" + e + " " + "")))) + "-> 0x" + z
  {
  }

  /** `RSh` prints the value, then the value moved back up by its shift;
      when no set bit crosses the top of the word, that is the value times
      2^shift. */
  lemma RShMeaning(n: nat, inner: Decoder, v: U64, size: nat)
    requires Decodable(RSh(n, inner), v, size)
    ensures v * Pow2(n) < WORD ==>
      Shl(v, n, 64) == v * Pow2(n) &&
      Decode(RSh(n, inner), v, size) == Decode(inner, v, size) + " -> " + Decode(inner, v * Pow2(n), size)
  {
    if v * Pow2(n) < WORD {
      ShlNoWrap(v, n, 64);
    }
  }

  /** The page address after "->" is the page number times 4096, for every
      page number of the schemes (at most 44 bits). */
  lemma PpnPageAddress(v: U64)
    requires v < Pow2(44)
    ensures Shl(v, 12, 64) == v * 4096
  {
    assert Pow2(12) == 4096 && Pow2(44) == 0x1000_0000_0000;
    ShlNoWrap(v, 12, 64);
  }

  /** A page number below 2^44 prints as its groups, "-> 0x" and the page
      address, the number times the 4096-byte page size. */
  lemma PpnTextPage(s: Scheme, v: U64)
    requires v < Pow2(44)
    ensures PpnText(s, v) == GroupsText(Groups(s), v) + "-> 0x" + LowerHex(v * 4096)
  {
    PpnTextGroups(s, v);
    PpnPageAddress(v);
  }

  /** Decoders that print every value of their field: an `RSh` holds a
      shift below 64 and never pads, since its shifted value need not fit. */
  predicate Total(d: Decoder)
    decreases d
  {
    match d
    case RSh(n, inner) => n < 64 && inner != Bin && Total(inner)
    case _ => true
  }

  /** A total decoder accepts every value that fits in the field. */
  lemma {:induction false} TotalDecodable(d: Decoder, v: U64, size: nat)
    requires Total(d) && (d == Bin ==> 1 <= size && v < Pow2(size))
    ensures Decodable(d, v, size)
    decreases d
  {
    match d
    case Bin => BinaryLength(v, size);
    case RSh(n, inner) =>
      TotalDecodable(inner, v, size);
      TotalDecodable(inner, Shl(v, n, 64), size);
    case _ =>
  }

  /** Decoded text fits on one line, so a register prints one line per field. */
  lemma {:induction false} DecodeSingleLine(d: Decoder, v: U64, size: nat)
    requires Decodable(d, v, size)
    ensures SingleLine(Decode(d, v, size))
    decreases d
  {
    match d
    case Bin => DigitsSingleLine(v, 2);
    case Hex => DigitsSingleLine(v, 16);
    case Dec => DigitsSingleLine(v, 10);
    case Bool => EnumSingleLineBool(v);
    case Arch => EnumSingleLineArch(v);
    case Priv => EnumSingleLinePriv(v);
    case Atp => EnumSingleLineAtp(v);
    case Tvec => EnumSingleLineTvec(v);
    case Ppn(s) => PpnSingleLine(s, v);
    case ExcCode => ExcCodeSingleLine(v);
    case RSh(n, inner) =>
      DecodeSingleLine(inner, v, size);
      DecodeSingleLine(inner, Shl(v, n, 64), size);
    case Opcode => OpcodeSingleLine(v);
  }

  lemma EnumSingleLineBool(v: nat)
    ensures SingleLine(BoolText(v))
  {
    if v !in Recognised(Bool) {
      FramedSingleLine("Could not represent 0b", v, 2, " as boolean");
      WarnSingleLine("Could not represent 0b" + Binary(v) + " as boolean");
    }
  }

  lemma EnumSingleLineArch(v: nat)
    ensures SingleLine(ArchText(v))
  {
    if v !in Recognised(Arch) {
      FramedSingleLine("Invalid architecture (0b", v, 2, ")");
      WarnSingleLine("Invalid architecture (0b" + Binary(v) + ")");
    }
  }

  lemma EnumSingleLinePriv(v: nat)
    ensures SingleLine(PrivText(v))
  {
    if v !in Recognised(Priv) {
      FramedSingleLine("Invalid privilege (0b", v, 2, ")");
      WarnSingleLine("Invalid privilege (0b" + Binary(v) + ")");
    }
  }

  lemma EnumSingleLineAtp(v: nat)
    ensures SingleLine(AtpText(v))
  {
    if v !in Recognised(Atp) {
      FramedSingleLine("Invalid address translation mode (0b", v, 2, ")");
      WarnSingleLine("Invalid address translation mode (0b" + Binary(v) + ")");
    }
  }

  lemma EnumSingleLineTvec(v: nat)
    ensures SingleLine(TvecText(v))
  {
    if v !in Recognised(Tvec) {
      FramedSingleLine("Invalid (0b", v, 2, ")");
      WarnSingleLine("Invalid (0b" + Binary(v) + ")");
    }
  }

  lemma PpnSingleLine(s: Scheme, v: U64)
    ensures SingleLine(PpnText(s, v))
  {
    PpnTextGroups(s, v);
    GroupsSingleLine(Groups(s), v);
    DigitsSingleLine(Shl(v, 12, 64), 16);
  }

  lemma {:induction false} GroupsSingleLine(gs: seq<(nat, nat)>, v: U64)
    requires SpansInWord(gs)
    ensures SingleLine(GroupsText(gs, v))
    decreases |gs|
  {
    if gs != [] {
      DigitsSingleLine(GetBits(v, gs[0].0, gs[0].1, 64), 16);
      GroupsSingleLine(gs[1..], v);
    }
  }

  lemma ExcCodeSingleLine(v: U64)
    ensures SingleLine(ExcCodeText(v))
  {
    var code := GetBits(v, 0, 62, 64);
    DigitsSingleLine(code, 10);
    ExcCauseSingleLine(GetBit(v, 63, 64), code);
  }

  /** Every named cause is a plain one-line text; the names are checked a
      few at a time. */
  lemma CauseNamed(flag: nat, code: nat)
    requires (flag == 1 && code in INTERRUPT_CODES) || (flag == 0 && code in EXCEPTION_CODES)
    ensures SingleLine(ExcCause(flag, code)) && !IsWarning(ExcCause(flag, code))
  {
    match (flag, code)
    case (1, 1) => Named1x1();
    case (1, 2) => Named1x2();
    case (1, 3) => Named1x3();
    case (1, 5) => Named1x5();
    case (1, 6) => Named1x6();
    case (1, 7) => Named1x7();
    case (1, 9) => Named1x9();
    case (1, 10) => Named1x10();
    case (1, 11) => Named1x11();
    case (1, 12) => Named1x12();
    case (0, 0) => Named0x0();
    case (0, 1) => Named0x1();
    case (0, 2) => Named0x2();
    case (0, 3) => Named0x3();
    case (0, 4) => Named0x4();
    case (0, 5) => Named0x5();
    case (0, 6) => Named0x6();
    case (0, 7) => Named0x7();
    case (0, 8) => Named0x8();
    case (0, 9) => Named0x9();
    case (0, 10) => Named0x10();
    case (0, 11) => Named0x11();
    case (0, 12) => Named0x12();
    case (0, 13) => Named0x13();
    case (0, 15) => Named0x15();
    case (0, 20) => Named0x20();
    case (0, 21) => Named0x21();
    case (0, 22) => Named0x22();
    case (0, 23) => Named0x23();
    case _ => assert false;
  }

  lemma ExcCauseSingleLine(flag: nat, code: nat)
    ensures SingleLine(ExcCause(flag, code))
  {
    if (flag == 1 && code in INTERRUPT_CODES) || (flag == 0 && code in EXCEPTION_CODES) {
      CauseNamed(flag, code);
    } else {
      CauseUnknown(flag, code);
      FramedSingleLine("Unknown exception code (", code, 10, ")");
      WarnSingleLine("Unknown exception code (" + Decimal(code) + ")");
    }
  }

  // One lemma per named cause: checking several names together costs the
  // verifier far more than checking each alone.
  lemma Named1x1() ensures SingleLine(ExcCause(1, 1)) && !IsWarning(ExcCause(1, 1)) {}
  lemma Named1x2() ensures SingleLine(ExcCause(1, 2)) && !IsWarning(ExcCause(1, 2)) {}
  lemma Named1x3() ensures SingleLine(ExcCause(1, 3)) && !IsWarning(ExcCause(1, 3)) {}
  lemma Named1x5() ensures SingleLine(ExcCause(1, 5)) && !IsWarning(ExcCause(1, 5)) {}
  lemma Named1x6() ensures SingleLine(ExcCause(1, 6)) && !IsWarning(ExcCause(1, 6)) {}
  lemma Named1x7() ensures SingleLine(ExcCause(1, 7)) && !IsWarning(ExcCause(1, 7)) {}
  lemma Named1x9() ensures SingleLine(ExcCause(1, 9)) && !IsWarning(ExcCause(1, 9)) {}
  lemma Named1x10() ensures SingleLine(ExcCause(1, 10)) && !IsWarning(ExcCause(1, 10)) {}
  lemma Named1x11() ensures SingleLine(ExcCause(1, 11)) && !IsWarning(ExcCause(1, 11)) {}
  lemma Named1x12() ensures SingleLine(ExcCause(1, 12)) && !IsWarning(ExcCause(1, 12)) {}
  lemma Named0x0() ensures SingleLine(ExcCause(0, 0)) && !IsWarning(ExcCause(0, 0)) {}
  lemma Named0x1() ensures SingleLine(ExcCause(0, 1)) && !IsWarning(ExcCause(0, 1)) {}
  lemma Named0x2() ensures SingleLine(ExcCause(0, 2)) && !IsWarning(ExcCause(0, 2)) {}
  lemma Named0x3() ensures SingleLine(ExcCause(0, 3)) && !IsWarning(ExcCause(0, 3)) {}
  lemma Named0x4() ensures SingleLine(ExcCause(0, 4)) && !IsWarning(ExcCause(0, 4)) {}
  lemma Named0x5() ensures SingleLine(ExcCause(0, 5)) && !IsWarning(ExcCause(0, 5)) {}
  lemma Named0x6() ensures SingleLine(ExcCause(0, 6)) && !IsWarning(ExcCause(0, 6)) {}
  lemma Named0x7() ensures SingleLine(ExcCause(0, 7)) && !IsWarning(ExcCause(0, 7)) {}
  lemma Named0x8() ensures SingleLine(ExcCause(0, 8)) && !IsWarning(ExcCause(0, 8)) {}
  lemma Named0x9() ensures SingleLine(ExcCause(0, 9)) && !IsWarning(ExcCause(0, 9)) {}
  lemma Named0x10() ensures SingleLine(ExcCause(0, 10)) && !IsWarning(ExcCause(0, 10)) {}
  lemma Named0x11() ensures SingleLine(ExcCause(0, 11)) && !IsWarning(ExcCause(0, 11)) {}
  lemma Named0x12() ensures SingleLine(ExcCause(0, 12)) && !IsWarning(ExcCause(0, 12)) {}
  lemma Named0x13() ensures SingleLine(ExcCause(0, 13)) && !IsWarning(ExcCause(0, 13)) {}
  lemma Named0x15() ensures SingleLine(ExcCause(0, 15)) && !IsWarning(ExcCause(0, 15)) {}
  lemma Named0x20() ensures SingleLine(ExcCause(0, 20)) && !IsWarning(ExcCause(0, 20)) {}
  lemma Named0x21() ensures SingleLine(ExcCause(0, 21)) && !IsWarning(ExcCause(0, 21)) {}
  lemma Named0x22() ensures SingleLine(ExcCause(0, 22)) && !IsWarning(ExcCause(0, 22)) {}
  lemma Named0x23() ensures SingleLine(ExcCause(0, 23)) && !IsWarning(ExcCause(0, 23)) {}

  lemma OpcodeSingleLine(v: U64)
    ensures SingleLine(OpcodeText(v))
  {
    if IsOpcodeValue(v) {
      OpcodeTextValid(v);
      MnemonicSingleLine(TryFrom(v).value);
    } else {
      InvalidOpcodeSingleLine(v);
    }
  }

  lemma InvalidOpcodeSingleLine(v: U64)
    requires !IsOpcodeValue(v)
    ensures SingleLine(OpcodeText(v))
  {
    TryFromExact(v);
    assert OpcodeText(v) == InvalidOpcode(v);
    InvalidOpcodeText(v);
  }

  lemma InvalidOpcodeText(v: nat)
    ensures SingleLine(InvalidOpcode(v))
  {
    var h := ZeroPad(LowerHex(v), 2);
    DigitsAreDigits(v, 16);
    ZeroPadNumeral(LowerHex(v), 2, 16);
    NumeralSingleLine(h, 16);
    BetweenSingleLine("Invalid base opcode (0x", h, ")");
    WarnSingleLine("Invalid base opcode (0x" + h + ")");
  }

  lemma MnemonicSingleLine(o: OpcodeType)
    ensures SingleLine(Mnemonic(o))
  {
  }
}
