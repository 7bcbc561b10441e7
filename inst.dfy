/** `inst::format`, the dispatch from an instruction format's name to the
    format built from the raw word, the classification of the opcode in
    `format_instr`, and the `Opcode` format of `inst::base_opcodes`. */
module Inst {
  import opened Arith
  import opened BitOps
  import opened Results
  import opened Fmt
  import opened Decoders
  import opened Fields
  import opened Registers
  import opened Opcodes
  import opened BaseTypes

  /** A built instruction format: `RTypeInst::new(value)` is
      `Inst(RType, value)`, and so on for the six structs. */
  datatype Inst = Inst(format: InstFormat, value: U64)

  /** The name `format` knows each format by. */
  function FormatName(f: InstFormat): string
  {
    match f
    case RType => "rtype"
    case IType => "itype"
    case SType => "stype"
    case BType => "btype"
    case UType => "utype"
    case JType => "jtype"
  }

  /** `format(name, value)`: exact, case-sensitive matching. The "opcode"
      arm is `todo!()`, which panics, so that name is excluded. */
  function Format(name: string, value: U64): Result<Inst, InstrError>
    requires name != "opcode"
  {
    match name
    case "rtype" => Ok(Inst(RType, value))
    case "itype" => Ok(Inst(IType, value))
    case "stype" => Ok(Inst(SType, value))
    case "btype" => Ok(Inst(BType, value))
    case "utype" => Ok(Inst(UType, value))
    case "jtype" => Ok(Inst(JType, value))
    case _ => Err(UnknownInstruction(value))
  }

  /** `Display` of a built instruction format. */
  function Show(i: Inst): string
  {
    Render(TypeLayout(i.format), i.value)
  }

  /** Each format's name resolves to it, built from the given value. */
  lemma FormatNames(f: InstFormat, v: U64)
    ensures FormatName(f) != "opcode" && Format(FormatName(f), v) == Ok(Inst(f, v))
  {
  }

  /** Every name `format` accepts is the name of the format it builds, and
      that format holds the given value; any other name is an error that
      carries the value and not the name. */
  lemma FormatOnlyNames(name: string, v: U64)
    requires name != "opcode"
    ensures Format(name, v).Ok? ==> Format(name, v).value.value == v && name == FormatName(Format(name, v).value.format)
    ensures Format(name, v).Err? ==> Format(name, v) == Err(UnknownInstruction(v))
  {
  }

  /** The names are exact: no case folding, no other separator. */
  lemma UnknownNames(v: U64)
    ensures Format("RTYPE", v) == Err(UnknownInstruction(v))
    ensures Format("r-type", v) == Err(UnknownInstruction(v))
    ensures Format("rtype ", v) == Err(UnknownInstruction(v))
    ensures Format("ktype", v) == Err(UnknownInstruction(v))
    ensures Format("", v) == Err(UnknownInstruction(v))
  {
  }

  /** The printed text of a built instruction splits into the lines of its
      format. */
  lemma ShowLines(i: Inst)
    ensures SplitLines(Show(i)) == Lines(TypeLayout(i.format), i.value)
  {
    TypeIdents(i.format);
    RenderLines(TypeLayout(i.format), i.value);
  }

  /** No name in the formats holds a line break. */
  lemma TypeIdents(f: InstFormat)
    ensures IdentsOk(TypeLayout(f))
  {
    match f
    case RType => RTypeIdents();
    case IType => ITypeIdents();
    case SType => STypeIdents();
    case BType => BTypeIdents();
    case UType => UTypeIdents();
    case JType => JTypeIdents();
  }

  lemma RTypeIdents()
    ensures IdentsOk(RTYPE_INST)
  {
  }

  lemma ITypeIdents()
    ensures IdentsOk(ITYPE_INST)
  {
  }

  lemma STypeIdents()
    ensures IdentsOk(STYPE_INST)
  {
  }

  lemma BTypeIdents()
    ensures IdentsOk(BTYPE_INST)
  {
  }

  lemma UTypeIdents()
    ensures IdentsOk(UTYPE_INST)
  {
  }

  lemma JTypeIdents()
    ensures IdentsOk(JTYPE_INST)
  {
  }

  /** The opcode as `format_instr` reads it: `BitField<Bin, 0, 6>`. */
  function OpcodeBits(value: U64): (op: nat)
    ensures op == value % 128
  {
    NewMeaning(0, 6, Bin, value);
    LowWindow(value, 7);
    assert Pow2(7) == 128;
    New(0, 6, Bin, value).val
  }

  /** The classification table of `format_instr`: nine of the base opcodes
      by name, every other value an `UnknownInstruction` error. */
  function ClassifyOpcode(value: U64): Result<string, InstrError>
  {
    match OpcodeBits(value)
    case 0x03 => Ok("LOAD")
    case 0x07 => Ok("LOAD-FP")
    case 0x0f => Ok("MISC-MEM")
    case 0x13 => Ok("OP-IMM")
    case 0x17 => Ok("AUIPC")
    case 0x1b => Ok("OP-IMM-32")
    case 0x23 => Ok("STORE")
    case 0x43 => Ok("MADD")
    case 0x63 => Ok("BRANCH")
    case _ => Err(UnknownInstruction(value))
  }

  /** The opcodes the table names. */
  predicate Classified(o: OpcodeType)
  {
    o == Load || o == LoadFp || o == MiscMem || o == OpImm || o == Auipc ||
    o == OpImm32 || o == Store || o == MAdd || o == Branch
  }

  /** The values the table lists. */
  predicate InTable(op: nat)
  {
    op == 0x03 || op == 0x07 || op == 0x0f || op == 0x13 || op == 0x17 ||
    op == 0x1b || op == 0x23 || op == 0x43 || op == 0x63
  }

  /** The opcode each listed value stands for in Table 24.1. */
  function TableOpcode(op: nat): (o: OpcodeType)
    requires InTable(op)
    ensures Classified(o) && Discriminant(o) == op
  {
    match op
    case 0x03 => Load
    case 0x07 => LoadFp
    case 0x0f => MiscMem
    case 0x13 => OpImm
    case 0x17 => Auipc
    case 0x1b => OpImm32
    case 0x23 => Store
    case 0x43 => MAdd
    case 0x63 => Branch
  }

  /** The table recognises exactly the low seven bits that convert to one
      of its nine opcodes, and names each as the opcode decoder does; any
      other value is an error that carries the whole raw value. */
  lemma ClassifyAgrees(value: U64)
    ensures var op := value % 128;
      ClassifyOpcode(value).Ok? <==> (TryFrom(op).Ok? && Classified(TryFrom(op).value))
    ensures var op := value % 128;
      ClassifyOpcode(value).Ok? ==> ClassifyOpcode(value).value == Mnemonic(TryFrom(op).value) == OpcodeText(op)
    ensures ClassifyOpcode(value).Err? ==> ClassifyOpcode(value) == Err(UnknownInstruction(value))
  {
    var op := OpcodeBits(value);
    ClassifyTable(value);
    if InTable(op) {
      ClassifiedOf(TableOpcode(op));
    } else if TryFrom(op).Ok? && Classified(TryFrom(op).value) {
      ClassifiedDiscriminant(TryFrom(op).value);
      TryFromOk(op);
    }
  }

  /** The table's own shape: it names the listed values' opcodes. */
  lemma ClassifyTable(value: U64)
    ensures var op := OpcodeBits(value);
      (ClassifyOpcode(value).Ok? <==> InTable(op)) &&
      (InTable(op) ==> ClassifyOpcode(value) == Ok(Mnemonic(TableOpcode(op)))) &&
      (!InTable(op) ==> ClassifyOpcode(value) == Err(UnknownInstruction(value)))
  {
  }

  /** Each of the nine opcodes converts back from its discriminant and the
      decoder prints its mnemonic. */
  lemma ClassifiedOf(o: OpcodeType)
    requires Classified(o)
    ensures Discriminant(o) < WORD && TryFrom(Discriminant(o)) == Ok(o)
    ensures Mnemonic(o) == OpcodeText(Discriminant(o))
  {
    TryFromDiscriminant(o);
  }

  /** The nine opcodes' discriminants are the table's values. */
  lemma ClassifiedDiscriminant(o: OpcodeType)
    requires Classified(o)
    ensures var d := Discriminant(o);
      d == 0x03 || d == 0x07 || d == 0x0f || d == 0x13 || d == 0x17 ||
      d == 0x1b || d == 0x23 || d == 0x43 || d == 0x63
  {
  }

  /** The `Opcode` format: one 7-bit field decoded by `OpcodeType`. */
  const OPCODE: Layout := Layout("Opcode", [Declare("opcode", 0, 6, Opcode)])

  /** Its one line is the opcode decoder's text for the low seven bits: the
      mnemonic for a value of the opcode map, the warning otherwise. */
  lemma OpcodeFormatLine(raw: U64)
    ensures Lines(OPCODE, raw)[2] == "opcode: " + OpcodeText(raw % 128)
    ensures IsOpcodeValue(raw % 128) ==>
      TryFrom(raw % 128).Ok? && Lines(OPCODE, raw)[2] == "opcode: " + Mnemonic(TryFrom(raw % 128).value)
  {
    FieldText(OPCODE, raw, 0);
    LowWindow(raw, 7);
    assert Pow2(7) == 128;
    if IsOpcodeValue(raw % 128) {
      OpcodeTextValid(raw % 128);
    }
  }

  /** The `Opcode` format shows bits 0..6, each once. */
  lemma OpcodeEachBitOnce()
    ensures EachBitOnce(OPCODE, 6)
  {
    assert Tiles(SpansFrom(OPCODE, true));
    TiledEachBitOnce(OPCODE, 6, true);
  }
}
