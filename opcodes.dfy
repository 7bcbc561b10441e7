/** The base opcodes of the RISC-V unprivileged ISA (Table 24.1 of the
    RISC-V Unprivileged ISA, version 20191213): the `OpcodeType` enum, its
    conversion from an integer and the mnemonic the decoder prints. */
module Opcodes {
  import opened Arith
  import opened Fmt
  import opened Results

  /** The errors of instruction decoding. `UnknownOpcode` is raised by the
      opcode conversion; the source's `InstrError` declares only
      `UnknownInstruction`, so the constructor is the model's own. */
  datatype InstrError = UnknownInstruction(value: U64) | UnknownOpcode(value: U64)

  /** The 28 opcodes of the base map, in declaration order. */
  datatype OpcodeType =
    | Load | LoadFp | Custom0 | MiscMem | OpImm | Auipc | OpImm32
    | Store | StoreFp | Custom1 | Amo | Op | Lui | Op32
    | MAdd | MSub | NMSub | NMAdd | OpFp | Reserved0 | Custom2
    | Branch | Jalr | Reserved1 | Jal | System | Reserved2 | Custom3

  /** The discriminant each variant is declared with. */
  function Discriminant(o: OpcodeType): nat
  {
    match o
    case Load => 0x03       case LoadFp => 0x07    case Custom0 => 0x0b
    case MiscMem => 0x0f    case OpImm => 0x13     case Auipc => 0x17
    case OpImm32 => 0x1b    case Store => 0x23     case StoreFp => 0x27
    case Custom1 => 0x2b    case Amo => 0x2f       case Op => 0x33
    case Lui => 0x37        case Op32 => 0x3b      case MAdd => 0x43
    case MSub => 0x47       case NMSub => 0x4b     case NMAdd => 0x4f
    case OpFp => 0x53       case Reserved0 => 0x57 case Custom2 => 0x5b
    case Branch => 0x63     case Jalr => 0x67      case Reserved1 => 0x6b
    case Jal => 0x6f        case System => 0x73    case Reserved2 => 0x77
    case Custom3 => 0x7b
  }

  /** `OpcodeType::try_from`: the guarded arms compare the value with each
      discriminant in declaration order; anything else is an error that
      carries the value. */
  function TryFrom(value: U64): Result<OpcodeType, InstrError>
  {
    if value == Discriminant(Load) then Ok(Load)
    else if value == Discriminant(LoadFp) then Ok(LoadFp)
    else if value == Discriminant(Custom0) then Ok(Custom0)
    else if value == Discriminant(MiscMem) then Ok(MiscMem)
    else if value == Discriminant(OpImm) then Ok(OpImm)
    else if value == Discriminant(Auipc) then Ok(Auipc)
    else if value == Discriminant(OpImm32) then Ok(OpImm32)
    else if value == Discriminant(Store) then Ok(Store)
    else if value == Discriminant(StoreFp) then Ok(StoreFp)
    else if value == Discriminant(Custom1) then Ok(Custom1)
    else if value == Discriminant(Amo) then Ok(Amo)
    else if value == Discriminant(Op) then Ok(Op)
    else if value == Discriminant(Lui) then Ok(Lui)
    else if value == Discriminant(Op32) then Ok(Op32)
    else if value == Discriminant(MAdd) then Ok(MAdd)
    else if value == Discriminant(MSub) then Ok(MSub)
    else if value == Discriminant(NMSub) then Ok(NMSub)
    else if value == Discriminant(NMAdd) then Ok(NMAdd)
    else if value == Discriminant(OpFp) then Ok(OpFp)
    else if value == Discriminant(Reserved0) then Ok(Reserved0)
    else if value == Discriminant(Custom2) then Ok(Custom2)
    else if value == Discriminant(Branch) then Ok(Branch)
    else if value == Discriminant(Jalr) then Ok(Jalr)
    else if value == Discriminant(Reserved1) then Ok(Reserved1)
    else if value == Discriminant(Jal) then Ok(Jal)
    else if value == Discriminant(System) then Ok(System)
    else if value == Discriminant(Reserved2) then Ok(Reserved2)
    else if value == Discriminant(Custom3) then Ok(Custom3)
    else Err(UnknownOpcode(value))
  }

  /** The printed name of each opcode. */
  function Mnemonic(o: OpcodeType): string
  {
    match o
    case Load => "LOAD"           case LoadFp => "LOAD-FP"     case Custom0 => "custom-0"
    case MiscMem => "MISC-MEM"    case OpImm => "OP-IMM"       case Auipc => "AUIPC"
    case OpImm32 => "OP-IMM-32"   case Store => "STORE"        case StoreFp => "STORE-FP"
    case Custom1 => "custom-1"    case Amo => "AMO"            case Op => "OP"
    case Lui => "LUI"             case Op32 => "OP-32"         case MAdd => "MADD"
    case MSub => "MSUB"           case NMSub => "NMSUB"        case NMAdd => "NMADD"
    case OpFp => "OP-FP"          case Reserved0 => "reserved" case Custom2 => "custom-2"
    case Branch => "BRANCH"       case Jalr => "JALR"          case Reserved1 => "reserved"
    case Jal => "JAL"             case System => "SYSTEM"      case Reserved2 => "reserved"
    case Custom3 => "custom-3"
  }

  /** `OpcodeType::decode`: the mnemonic of a recognised value, otherwise
      a warning with the value as (at least) two lower-case hex digits. */
  function OpcodeText(value: U64): string
  {
    match TryFrom(value)
    case Ok(o) => Mnemonic(o)
    case Err(_) => InvalidOpcode(value)
  }

  /** The warning for a value outside the opcode map. */
  function InvalidOpcode(value: nat): string
  {
    Warn("Invalid base opcode (0x" + ZeroPad(LowerHex(value), 2) + ")")
  }

  predicate IsReserved(o: OpcodeType)
  {
    o == Reserved0 || o == Reserved1 || o == Reserved2
  }

  /** The values Table 24.1 assigns a base opcode: seven bits ending in 0b11
      whose bits 4:2 are not 0b111 (those are the longer encodings). */
  predicate IsOpcodeValue(v: nat)
  {
    v < 128 && v % 4 == 3 && (v / 4) % 8 != 7
  }

  /** Table 24.1 as a grid: `row` is inst[6:5] and `col` is inst[4:2]. */
  function MapEntry(row: nat, col: nat): OpcodeType
    requires row < 4 && col < 7
  {
    match (row, col)
    case (0, 0) => Load    case (0, 1) => LoadFp  case (0, 2) => Custom0   case (0, 3) => MiscMem
    case (0, 4) => OpImm   case (0, 5) => Auipc   case (0, 6) => OpImm32
    case (1, 0) => Store   case (1, 1) => StoreFp case (1, 2) => Custom1   case (1, 3) => Amo
    case (1, 4) => Op      case (1, 5) => Lui     case (1, 6) => Op32
    case (2, 0) => MAdd    case (2, 1) => MSub    case (2, 2) => NMSub     case (2, 3) => NMAdd
    case (2, 4) => OpFp    case (2, 5) => Reserved0 case (2, 6) => Custom2
    case (3, 0) => Branch  case (3, 1) => Jalr    case (3, 2) => Reserved1 case (3, 3) => Jal
    case (3, 4) => System  case (3, 5) => Reserved2 case (3, 6) => Custom3
  }

  /** Each discriminant is `(row << 5) | (col << 2) | 0b11` for the variant's
      place in the opcode map. */
  lemma GridDiscriminant(row: nat, col: nat)
    requires row < 4 && col < 7
    ensures Discriminant(MapEntry(row, col)) == row * 32 + col * 4 + 3
  {
  }

  /** Every variant has its place in the opcode map, and every discriminant
      is an opcode value of the table. */
  lemma VariantInGrid(o: OpcodeType)
    ensures IsOpcodeValue(Discriminant(o))
    ensures MapEntry(Discriminant(o) / 32, (Discriminant(o) / 4) % 8) == o
  {
    if Discriminant(o) < 0x40 { GridLow(o); } else { GridHigh(o); }
  }

  lemma GridLow(o: OpcodeType)
    requires Discriminant(o) < 0x40
    ensures IsOpcodeValue(Discriminant(o))
    ensures MapEntry(Discriminant(o) / 32, (Discriminant(o) / 4) % 8) == o
  {
  }

  lemma GridHigh(o: OpcodeType)
    requires Discriminant(o) >= 0x40
    ensures IsOpcodeValue(Discriminant(o))
    ensures MapEntry(Discriminant(o) / 32, (Discriminant(o) / 4) % 8) == o
  {
  }

  /** Round trip: converting a variant's discriminant gives the variant back. */
  lemma TryFromDiscriminant(o: OpcodeType)
    ensures TryFrom(Discriminant(o)) == Ok(o)
  {
    var d := Discriminant(o);
    if d < 0x20 { TryFromRow0(o); }
    else if d < 0x40 { TryFromRow1(o); }
    else if d < 0x60 { TryFromRow2(o); }
    else if d < 0x70 { TryFromRow3(o); }
    else { TryFromRow3High(o); }
  }

  // The rows of the map are checked apart: together they cost the verifier
  // several times as much.
  lemma TryFromRow0(o: OpcodeType)
    requires Discriminant(o) < 0x20
    ensures TryFrom(Discriminant(o)) == Ok(o)
  {
  }

  lemma TryFromRow1(o: OpcodeType)
    requires 0x20 <= Discriminant(o) < 0x40
    ensures TryFrom(Discriminant(o)) == Ok(o)
  {
  }

  lemma TryFromRow2(o: OpcodeType)
    requires 0x40 <= Discriminant(o) < 0x60
    ensures TryFrom(Discriminant(o)) == Ok(o)
  {
  }

  lemma TryFromRow3(o: OpcodeType)
    requires 0x60 <= Discriminant(o) < 0x70
    ensures TryFrom(Discriminant(o)) == Ok(o)
  {
  }

  lemma TryFromRow3High(o: OpcodeType)
    requires 0x70 <= Discriminant(o)
    ensures TryFrom(Discriminant(o)) == Ok(o)
  {
  }

  /** A successful conversion returns the variant with that discriminant,
      and a failed one carries the value. */
  lemma TryFromOk(v: U64)
    ensures TryFrom(v).Ok? ==> Discriminant(TryFrom(v).value) == v
    ensures TryFrom(v).Err? ==> TryFrom(v) == Err(UnknownOpcode(v))
  {
  }

  /** The conversion succeeds exactly on the values of the opcode map, it
      returns the variant with that discriminant, and it fails with the value
      itself otherwise. */
  lemma TryFromExact(v: U64)
    ensures TryFrom(v).Ok? <==> IsOpcodeValue(v)
    ensures TryFrom(v).Ok? ==> Discriminant(TryFrom(v).value) == v
    ensures TryFrom(v).Err? ==> TryFrom(v) == Err(UnknownOpcode(v))
  {
    TryFromOk(v);
    if IsOpcodeValue(v) {
      var row, col := v / 32, (v / 4) % 8;
      OpcodeValueGrid(v);
      GridDiscriminant(row, col);
      TryFromDiscriminant(MapEntry(row, col));
    } else if TryFrom(v).Ok? {
      VariantInGrid(TryFrom(v).value);
    }
  }

  /** An opcode value is `(row << 5) | (col << 2) | 0b11` for its own row
      and column. */
  lemma OpcodeValueGrid(v: nat)
    requires IsOpcodeValue(v)
    ensures v / 32 < 4 && (v / 4) % 8 < 7
    ensures v == (v / 32) * 32 + ((v / 4) % 8) * 4 + 3
  {
    DivModParts(v, 32);
    DivModParts(v, 4);
    DivModParts(v / 4, 8);
  }

  /** The inverse of `Mnemonic` on the variants whose name is their own. */
  function MnemonicOpcode(s: string): Option<OpcodeType>
  {
    match s
    case "LOAD" => Some(Load)           case "LOAD-FP" => Some(LoadFp)
    case "custom-0" => Some(Custom0)    case "MISC-MEM" => Some(MiscMem)
    case "OP-IMM" => Some(OpImm)        case "AUIPC" => Some(Auipc)
    case "OP-IMM-32" => Some(OpImm32)   case "STORE" => Some(Store)
    case "STORE-FP" => Some(StoreFp)    case "custom-1" => Some(Custom1)
    case "AMO" => Some(Amo)             case "OP" => Some(Op)
    case "LUI" => Some(Lui)             case "OP-32" => Some(Op32)
    case "MADD" => Some(MAdd)           case "MSUB" => Some(MSub)
    case "NMSUB" => Some(NMSub)         case "NMADD" => Some(NMAdd)
    case "OP-FP" => Some(OpFp)          case "custom-2" => Some(Custom2)
    case "BRANCH" => Some(Branch)       case "JALR" => Some(Jalr)
    case "JAL" => Some(Jal)             case "SYSTEM" => Some(System)
    case "custom-3" => Some(Custom3)
    case _ => None
  }

  /** The mnemonic names the variant, except that the three reserved slots
      all print "reserved". */
  lemma MnemonicNames(o: OpcodeType)
    ensures IsReserved(o) <==> Mnemonic(o) == "reserved"
    ensures !IsReserved(o) ==> MnemonicOpcode(Mnemonic(o)) == Some(o)
  {
    if Discriminant(o) < 0x40 { MnemonicLow(o); } else { MnemonicHigh(o); }
  }

  lemma MnemonicLow(o: OpcodeType)
    requires Discriminant(o) < 0x40
    ensures !IsReserved(o) && MnemonicOpcode(Mnemonic(o)) == Some(o)
  {
  }

  lemma MnemonicHigh(o: OpcodeType)
    requires Discriminant(o) >= 0x40
    ensures IsReserved(o) <==> Mnemonic(o) == "reserved"
    ensures !IsReserved(o) ==> MnemonicOpcode(Mnemonic(o)) == Some(o)
  {
  }

  /** Every mnemonic starts with a letter, so none reads as a warning. */
  lemma MnemonicShape(o: OpcodeType)
    ensures |Mnemonic(o)| >= 2 && ('A' <= Mnemonic(o)[0] <= 'Z' || 'a' <= Mnemonic(o)[0] <= 'z')
  {
  }

  /** Two variants print the same name only when both are reserved, and the
      reserved ones do collide, so the decoder is not injective. */
  lemma MnemonicInjective(o1: OpcodeType, o2: OpcodeType)
    ensures Mnemonic(o1) == Mnemonic(o2) <==> o1 == o2 || (IsReserved(o1) && IsReserved(o2))
  {
    MnemonicNames(o1);
    MnemonicNames(o2);
    if Mnemonic(o1) == Mnemonic(o2) && !IsReserved(o1) {
      assert MnemonicOpcode(Mnemonic(o2)) == Some(o1);
    }
  }

  /** A value of the opcode map prints the mnemonic of its variant. */
  lemma OpcodeTextValid(v: U64)
    requires IsOpcodeValue(v)
    ensures TryFrom(v).Ok? && Discriminant(TryFrom(v).value) == v
    ensures OpcodeText(v) == Mnemonic(TryFrom(v).value) && !IsWarning(OpcodeText(v))
  {
    TryFromExact(v);
    var o := TryFrom(v).value;
    assert OpcodeText(v) == Mnemonic(o);
    MnemonicShape(o);
    NotWarning(Mnemonic(o));
  }

  /** Any other value prints a warning holding its hex numeral, zero-padded
      to two lower-case digits. */
  lemma OpcodeTextInvalid(v: U64)
    requires !IsOpcodeValue(v)
    ensures var h := ZeroPad(LowerHex(v), 2);
      OpcodeText(v) == Warn("Invalid base opcode (0x" + h + ")") &&
      |h| >= 2 && IsNumeral(h, 16) && ValueOf(h, 16) == v
  {
    TryFromExact(v);
    DigitsAreDigits(v, 16);
    DigitsRoundTrip(v, 16);
    ZeroPadNumeral(LowerHex(v), 2, 16);
    DigitsCanonical(v, 16);
  }
}
