# riscv-bitfield-formats, modelled in Dafny

The repository turns raw 64-bit RISC-V words into named, readable fields. The words are control and status registers (CSRs), page table entries, virtual and physical addresses, and base instruction formats. Each format is a struct of
`BitField<Decoder, START, END>` fields. A derive macro gives every one the
same constructor (each field takes its bits from the one raw word) and the same
`Display` (the lower-cased struct name, a line of dashes as long as the name,
then one `ident: decoded` line per field). Three dispatchers build a format from
a name: `csr::to_csr`, `vmem::format` and `inst::format`.

The model is pure Dafny except for `set_value`, the one mutation, which is a method
on a class:

- `Arith`, `BitOps`: unbounded `nat` arithmetic with explicit widths. `Shl` and
  `Shr` are the u8/u16/u32/u64 shifts, with loss at the top. `GetBit` and `GetBits`
  are the two-shift extractors, and `Window` is their reference meaning.
- `Fields`: the field value `Field`, `New`, `SpanSize`, `Display`, and the class
  `BitField` with `SetValue`. `LegacyBit` is the earlier, decoder-less
  `BitField<S, E>`.
- `Fmt`: `{:b}`, `{:x}` and `{}` numerals (`Digits`, read back by `ValueOf`), zero
  padding, ASCII lower-casing and the coloured warning wrapper.
- `Decoders`: one datatype `Decoder` for every `BitFieldType`, including
  `RSh(n, inner)` and the base `Opcode` decoder. `Decode` interprets it.
- `Registers`: a format is a `Layout` (name plus field declarations).
  - `Build` is the generated `new`; `Lines` and `Render` are the generated `Display`.
  - `SplitLines` reads the rendered text back into lines.
  - A set of generic lemmas covers tiling layouts and single field lines.
- `MLevel`, `SLevel`, `HLevel`, `Pte`, `VAddr`, `PAddr`, `BaseTypes`: the layout
  tables, as constants, with the facts each table promises.
- `Opcodes`: `OpcodeType`, its discriminants, `try_from` and the mnemonic decoder.
- `Csr`, `Vmem`, `Inst`: the three dispatchers. Each returns a `Result` whose
  value records which format was built and the raw value it was built from.

Panicking operations have `requires` clauses: `assert!`s, and `"0".repeat(n)` when asked for a negative count. Error returns are `Result` values.

## Model

| member | source | states |
|---|---|---|
| BitOps.GetBitsIsWindow | src/bitfield.rs:288-300 | the shift pair returns exactly the bits start..end of the value, right-aligned, so the result is below 2^(end-start+1) |
| BitOps.GetBitIsGetBits | src/bitfield.rs:274-285 | `get_bit` is the one-bit `get_bits`: the bit at the index, always 0 or 1 |
| BitOps.GetBitsExtracts | src/bitfield.rs:288-300 | a word built as high part, pattern and low part gives back exactly the pattern |
| BitOps.UnitTestValues | src/bitfield.rs:331-347 | the unit tests' u8 and u16 extractions (1, 0, 1, 0, 3, 0xf) |
| Fields.SpanSize | src/bitfield.rs:239-241 | `size()` is at least 1 and the span ends `size - 1` bits after its start |
| Fields.NewMeaning | src/bitfield.rs:229-236 | `new` stores the span's bits of the raw word; the one-bit shortcut through `get_bit` stores the same value; it fits in `size()` bits |
| Fields.NewPrintable | src/bitfield.rs:267-271 | a field built by `new` with a decoder that accepts every fitting value can be displayed, on one line |
| BitOps.ShlWrapping | src/bitfield.rs:247 | a u64 `<<` without overflow checks: the plain shift below 64, and a shift by 64 leaves the value unchanged, because the amount is taken modulo 64 |
| BitOps.ShlChecked | src/bitfield.rs:247 | a u64 `<<` with overflow checks: it panics exactly when the amount is 64 or more, and otherwise agrees with the release shift |
| Fields.SetGuardsAgree | src/bitfield.rs:246-249 | below 64 bits, the guard `x < 1 << size()` means exactly "x fits in size bits", with or without overflow checks |
| Fields.SetGuardWholeWord | src/bitfield.rs:247 | at 64 bits every u64 fits, yet the guard as written panics for every value with overflow checks and passes only 0 without them (see Findings, src/bitfield.rs:247) |
| Fields.UnitTestNew | src/bitfield.rs:312-323 | `size()` of 4..7 is 4; bits 2..5 of 0x4756 are 5 |
| Fields.UnitTestFormat | src/bitfield.rs:325-330 | bits 0..5 of 5 display as "0b000101" |
| Fields.BitField.constructor | src/bitfield.rs:229-236 | the object holds what `new` computes, and its value fits its span |
| Fields.BitField.Size | src/bitfield.rs:239-241 | `size()` is E - S + 1 |
| Fields.BitField.SetValue | src/bitfield.rs:246-249 | with the intended guard, the value becomes x, the span and decoder stay unchanged, and the value still fits |
| LegacyBit.New | src/bit.rs:10-17 | the earlier `new` stores the span's bits, right-aligned and fitting the span |
| LegacyBit.NewAgrees | src/bit.rs:10-17 | both generations of `BitField::new` store the same bits |
| LegacyBit.UnitTests | src/bit.rs:84-95 | `size()` of `<4, 7>` is 4; `<2, 5>` of 0x4756 holds 5 |
| LegacyBit.BitField.constructor | src/bit.rs:10-17 | the object keeps its span and the bits `new` computes |
| LegacyBit.BitField.Size | src/bit.rs:20-22 | `size()` is E - S + 1 |
| LegacyBit.BitField.SetValue | src/bit.rs:27-30 | with the intended guard, the value becomes x and still fits |
| Fmt.DigitsRoundTrip | src/bitfield.rs:26-36 | reading a `{:b}`/`{}`/`{:x}` numeral back gives the value it was written from |
| Fmt.DigitsCanonical | src/bitfield.rs:26-36 | a numeral is never empty and starts with '0' only when it is "0" |
| Fmt.DigitsInjective | src/bitfield.rs:26-36 | two values have the same numeral exactly when they are equal |
| Fmt.BinaryLength | src/bitfield.rs:7-11 | the binary numeral fits in n digits exactly when the value is below 2^n |
| Fmt.ZeroPadNumeral | src/bitfield.rs:9-10 | zero padding reaches the width, keeps the value and uses only digits |
| Fmt.LowerIsLower | lib/csr-macro/src/lib.rs:29 | the lower-cased name has no upper-case letter, and lower-casing is idempotent |
| Fmt.WarnInjective | src/bitfield.rs:20 | a warning is recognisable and its message can be recovered from it |
| Decoders.BinTextMeaning | src/bitfield.rs:7-11 | `Bin` accepts exactly values below 2^size and prints "0b" and exactly size binary digits denoting the value |
| Decoders.BinTextPadded | src/bitfield.rs:7-11 | `Bin` is "0b" followed by the numeral padded with zeros to the field size |
| Decoders.HexTextMeaning | src/bitfield.rs:26-30 | `Hex` prints "0x" and unpadded lower-case hex digits denoting the value |
| Decoders.DecTextMeaning | src/bitfield.rs:33-37 | `Dec` prints unpadded decimal digits denoting the value |
| Decoders.BinTextExample | src/bitfield.rs:325-330 | 5 in six bits prints as "0b000101" |
| Decoders.EnumeratedMeaning | src/bitfield.rs:15-151 | `Bool`, `Arch`, `Priv`, `Atp` and `Tvec` give a non-warning text exactly for their recognised codes; any other value gives the warning with the value in binary |
| Decoders.EnumeratedInjective | src/bitfield.rs:15-151 | distinct values of an enumerated decoder print differently |
| Decoders.NamesDistinct | src/bitfield.rs:15-151 | the recognised codes of an enumerated decoder have distinct names |
| Decoders.AtpExample | src/bitfield.rs:85-88 | `Atp` of 3 is the warning "Invalid address translation mode (0b11)" |
| Decoders.ExcCodeSplit | src/bitfield.rs:156-157 | the interrupt flag is bit 63 and the code is bits 0..62, which together make up the word |
| Decoders.ExcCauseMeaning | src/bitfield.rs:158-191 | a (flag, code) pair is named exactly when it appears in the interrupt or exception table for its flag; otherwise the warning shows the code in decimal |
| Decoders.ExcCodeMeaning | src/bitfield.rs:155-192 | the same for a whole cause word, with the code excluding the flag |
| Decoders.ExcCodeOfPair | src/bitfield.rs:155-158 | a word made from a flag and a code decodes as that pair |
| Decoders.ExcCodeInterruptExample | src/bitfield.rs:168 | (1, 11) is "Machine external interrupt" |
| Decoders.ExcCodeExceptionExample | src/bitfield.rs:183 | (0, 12) is "Instruction page fault" |
| Decoders.ExcCodeUnknownExample | src/bitfield.rs:190 | code 14 is unknown and shows as "(14)" |
| Decoders.ExcCodeUnknownInterruptExample | src/bitfield.rs:190 | interrupt 14 shows the code without the flag: "(14)" |
| Decoders.ReassembleTiles | src/bitfield.rs:94-139 | spans that tile the bits below a top bit, put back in place, rebuild the word modulo 2^(top+1) |
| Decoders.TilesPartition | src/bitfield.rs:94-139 | in a tiling, every bit up to the top lies in exactly one span |
| Decoders.PpnGroupsTile | src/bitfield.rs:94-139 | each `Ppn<N>` prints 2/3/4/5 groups, most significant first; they tile bits 0..21 (Sv32) or 0..43, and the lower groups are 10 or 9 bits wide |
| Decoders.PpnTextGroups | src/bitfield.rs:94-139 | `Ppn<N>` text is its groups in hex, then "-> 0x" and the value shifted left by 12 with u64 wrap-around |
| Decoders.PpnTextSv32 | src/bitfield.rs:94-103 | the Sv32 text is groups 21..10 and 9..0, then the page address |
| Decoders.PpnTextSv39 | src/bitfield.rs:104-114 | the Sv39 text is groups 43..18, 17..9 and 8..0, then the page address |
| Decoders.PpnTextSv48 | src/bitfield.rs:115-126 | the Sv48 text is groups 43..27, 26..18, 17..9 and 8..0, then the page address |
| Decoders.PpnTextSv57 | src/bitfield.rs:127-139 | the Sv57 text is groups 43..36 down to 8..0, then the page address |
| Decoders.RShMeaning | src/bitfield.rs:202-208 | `RSh<N, T>` prints T of the value, " -> ", then T of the value times 2^N when the shift does not wrap |
| Decoders.PpnPageAddress | src/bitfield.rs:100 | for a 44-bit PPN the `<< 12` does not wrap: it is the page address, PPN times 4096 |
| Decoders.PpnTextPage | src/bitfield.rs:94-139 | a 44-bit PPN prints its groups, then the page address PPN times 4096 |
| Decoders.TotalDecodable | src/bitfield.rs:7-11 | every decoder prints every value, except `Bin`, which needs the value to fit the field |
| Decoders.DecodeSingleLine | lib/csr-macro/src/lib.rs:40-42 | no decoder output contains a line break |
| Registers.BuildMeaning | lib/csr-macro/src/lib.rs:48-54 | the generated `new` builds field i from the same raw word: span, decoder and bits of declaration i |
| Registers.Lines | lib/csr-macro/src/lib.rs:36-45 | a format prints 2 + (number of fields) lines |
| Registers.SplitUnlines | lib/csr-macro/src/lib.rs:38-42 | newline-terminated one-line texts split back into exactly those lines |
| Registers.RenderLines | lib/csr-macro/src/lib.rs:36-45 | the printed text splits into the title, the underline and the field lines |
| Registers.RenderShape | lib/csr-macro/src/lib.rs:29-42 | line 0 is the lower-cased name, line 1 is as many dashes, and line 2+i is field i's identifier, ": " and its display, in declaration order |
| Registers.AscendingTiles | src/inst/base_types.rs:10-68 | a layout whose fields follow each other from bit 0 upwards tiles bits 0 up to its last field's end |
| Registers.TiledEachBitOnce | src/inst/base_types.rs:10-68 | a tiling layout shows every bit up to its top in exactly one field |
| Registers.TiledReassemble | src/inst/base_types.rs:10-68 | a tiling layout's fields, put back in place, rebuild the word below its top bit |
| Registers.FieldText | lib/csr-macro/src/lib.rs:40-42 | line 2+i is the identifier of field i, ": ", and its decoder applied to the span's bits |
| Registers.HexLine | src/bitfield.rs:26-30 | a `Hex` field's line is its identifier, ": 0x" and the span's bits in hex |
| Registers.BinLine | src/bitfield.rs:7-11 | a `Bin` field's line is its identifier and the span's bits, zero-padded to the span |
| Registers.DecLine | src/bitfield.rs:33-37 | a `Dec` field's line is its identifier and the span's bits in decimal |
| Registers.PageOffsetLine | src/vmem/va.rs:12 | a `page_offset` field at 0..11 prints the low 12 bits of the word in hex |
| Registers.RShHexLine | src/bitfield.rs:202-208 | an `RSh<N, Hex>` field prints "0xv -> 0x(v * 2^N)" for the span's bits v |
| Registers.PpnLine | src/bitfield.rs:94-139 | a `ppn` field of at most 44 bits prints the `Ppn` text of the span's bits |
| Registers.WholeWord | src/csr/m_level.rs:57 | a span over bits 0..63 is the whole word |
| Opcodes.GridDiscriminant | src/inst/base_opcodes.rs:17-57 | the variant at row hi and column mid has discriminant hi * 32 + mid * 4 + 3 |
| Opcodes.VariantInGrid | src/inst/base_opcodes.rs:17-57 | every variant sits in the grid at the position its discriminant names |
| Opcodes.OpcodeValueGrid | src/inst/base_opcodes.rs:17-57 | every opcode value is hi * 32 + mid * 4 + 3 with hi < 4 and mid < 7 |
| Opcodes.TryFromDiscriminant | src/inst/base_opcodes.rs:62-91 | `try_from(o as u64) == Ok(o)` for every variant |
| Opcodes.TryFromOk | src/inst/base_opcodes.rs:62-94 | a successful conversion returns the variant with that discriminant; a failure is `UnknownOpcode(value)` |
| Opcodes.TryFromExact | src/inst/base_opcodes.rs:62-94 | conversion succeeds exactly on the 28 grid values; anything else is `UnknownOpcode(value)` |
| Opcodes.MnemonicNames | src/inst/base_opcodes.rs:101-130 | a variant's mnemonic is "reserved" exactly for the three reserved variants; every other mnemonic names its variant uniquely |
| Opcodes.MnemonicInjective | src/inst/base_opcodes.rs:101-130 | two variants print the same mnemonic exactly when they are equal or both reserved |
| Opcodes.OpcodeTextValid | src/inst/base_opcodes.rs:97-130 | a grid value decodes to the mnemonic of the variant it converts to, never a warning |
| Opcodes.OpcodeTextInvalid | src/inst/base_opcodes.rs:131-133 | any other value is the warning "Invalid base opcode (0x..)" with at least two lower-case hex digits denoting the value |
| Csr.ToCsrByName | src/csr/mod.rs:14-106 | the result kind and the register depend on the name alone; the value reaches only the constructor; an error carries the text looked up |
| Csr.SupervisorResolve | src/csr/mod.rs:26-39 | each supervisor register resolves from its address and from its name to the same register, built from the value |
| Csr.HypervisorResolve | src/csr/mod.rs:43-58 | the same for hstatus, hedeleg, hcounteren, htval, henvcfg and hgatp |
| Csr.VirtualSupervisorResolve | src/csr/mod.rs:64-72 | the virtual-supervisor names and addresses yield the supervisor formats |
| Csr.MachineInformationResolve | src/csr/mod.rs:74-77 | mvendorid, marchid, mimpid and mhartid resolve from address and name |
| Csr.MachineTrapResolve | src/csr/mod.rs:80-92 | the machine trap registers, and mip, resolve from address and name |
| Csr.UnsupportedResolve | src/csr/mod.rs:17-102 | each of the 67 catalogued names and addresses without a format is `UnsupportedCsr` of the exact text |
| Csr.UnsupportedExactly | src/csr/mod.rs:14-105 | `to_csr` gives `UnsupportedCsr(name)` exactly for the texts of that table |
| Csr.UnknownExactly | src/csr/mod.rs:104 | `to_csr` gives `UnkownCsr(name)` exactly for the texts no arm names |
| Csr.BuiltListed | src/csr/mod.rs:26-92 | every register `to_csr` builds is built from the given value and is the one a table entry for that text names |
| Csr.ListedBuilt | src/csr/mod.rs:26-92 | every name and address of the five tables builds the register its entry names |
| Csr.BuiltExactly | src/csr/mod.rs:26-92 | `to_csr` builds register id exactly for the names and addresses the tables list with id |
| Csr.UnsupportedMcause | src/csr/mod.rs:90 | "mcause" is `UnsupportedCsr("mcause")` |
| Csr.UnsupportedHideleg | src/csr/mod.rs:45 | "hideleg" is `UnsupportedCsr("hideleg")` |
| Csr.UnsupportedHtinst | src/csr/mod.rs:53 | "htinst" is unsupported although its format exists |
| Csr.UnsupportedUpperAddress | src/csr/mod.rs:93 | the upper-case address "0x34A" is unsupported |
| Csr.UnknownName | src/csr/mod.rs:104 | "notareg" is `UnkownCsr("notareg")` |
| Csr.UnknownUpperName | src/csr/mod.rs:104 | "MISA" is unknown: matching is case-sensitive |
| Csr.UnknownLowerAddress | src/csr/mod.rs:93 | "0x34a" is unknown: addresses match only as written |
| Csr.UnknownDecimal | src/csr/mod.rs:104 | the decimal "769" is unknown: addresses are not parsed |
| MLevel.MisaShape | src/csr/m_level.rs:13-41 | misa is the 26 one-bit `Bin` fields a..z at bits 0..25, then mxl at 62..63 decoded by `Arch` |
| MLevel.MisaLetterLine | src/csr/m_level.rs:14-39 | letter k's line is "<letter>: 0b1" when bit k is set and "<letter>: 0b0" otherwise |
| MLevel.MisaTitle | lib/csr-macro/src/lib.rs:29 | the title of misa is "misa" |
| MLevel.MisaMxlLine | src/csr/m_level.rs:40 | the last line is "mxl: " and the `Arch` name of bits 62..63 |
| MLevel.MisaExampleBits | src/csr/m_level.rs:14-39 | 0x8000000000141101 has exactly a, i, m, s and u set among the letters |
| MLevel.MisaExampleLetters | src/csr/m_level.rs:14-39 | for that word a, i, m, s and u print "0b1" and the other letters "0b0" |
| MLevel.MisaExampleLast | src/csr/m_level.rs:39 | for that word the z line is "z: 0b0" |
| MLevel.MisaExampleMxl | src/csr/m_level.rs:40 | for that word the mxl line is "mxl: RV64" |
| MLevel.MvendoridLines | src/csr/m_level.rs:47-50 | offset (0..6) and bank (7..31) print in hex and together make up the low 32 bits |
| MLevel.IdLines | src/csr/m_level.rs:56-74 | marchid, mimpid and mhartid print "id: 0x" and the whole word |
| MLevel.MstatusSppLine | src/csr/m_level.rs:86 | spp can only show User or Supervisor |
| MLevel.MstatusMppLine | src/csr/m_level.rs:88 | mpp prints the `Priv` name of bits 11..12 |
| MLevel.MppWarning | src/csr/m_level.rs:88 | mpp is a warning exactly when bits 11..12 are 0b10, the invalid-privilege warning |
| MLevel.MtvecLines | src/csr/m_level.rs:110-113 | base (the word shifted right by 2) prints before mode (low two bits), in declaration and not bit order |
| SLevel.SstatusSppLine | src/csr/s_level.rs:15 | spp can only show User or Supervisor |
| SLevel.SstatusUxlLine | src/csr/s_level.rs:21 | uxl prints the `Arch` name of bits 32..33 |
| SLevel.SieSipSame | src/csr/s_level.rs:27-39 | sie and sip have the same fields, single bits 1, 5 and 9 |
| SLevel.SatpTiles | src/csr/s_level.rs:57-61 | satp prints mode (60..63, `Atp`), asid (44..59) and ppn (0..43), which show every bit once and rebuild the word |
| SLevel.SatpModeLine | src/csr/s_level.rs:58 | the mode line is the `Atp` name of the top four bits |
| SLevel.StvecLikeMtvec | src/csr/s_level.rs:65-68 | stvec has mtvec's fields; modes 2 and 3 print the invalid warning, and only they do |
| SLevel.WholeWordLines | src/csr/s_level.rs:51-80 | stval, sscratch and sepc print the whole word in hex |
| SLevel.ScauseLines | src/csr/s_level.rs:84-88 | interrupt prints bit 63 as true/false, and code sees the whole word, so it names the (flag, code) pair |
| SLevel.ScounterenShape | src/csr/s_level.rs:92-125 | 32 one-bit `Bin` fields from bit 31 down to bit 0 |
| SLevel.ScounterenTiles | src/csr/s_level.rs:92-125 | scounteren shows each bit 0..31 exactly once |
| HLevel.HstatusVgeinLine | src/csr/h_level.rs:17 | vgein prints "0b" and exactly six binary digits denoting bits 12..17 |
| HLevel.HstatusVsxlLine | src/csr/h_level.rs:21 | vsxl prints the `Arch` name of bits 32..33 |
| HLevel.HedelegSpans | src/csr/h_level.rs:26-46 | hedeleg is one-bit `Bin` fields at 0..13, 15 and 20..23 |
| HLevel.HedelegFieldsAreCodes | src/csr/h_level.rs:26-46 | the fields sit exactly at the synchronous exception codes, one field per code |
| HLevel.HedelegShown | src/csr/h_level.rs:26-46 | a bit is shown exactly when it is a synchronous exception code |
| HLevel.HedelegNamesCauses | src/csr/h_level.rs:26-46 | a bit is shown exactly when `ExcCode` names that exception, so 14 and 16..19 are missing from both |
| HLevel.HcounterenShape | src/csr/h_level.rs:66-99 | 32 one-bit `Bin` fields from bit 31 down to bit 0 |
| HLevel.HcounterenLikeScounteren | src/csr/h_level.rs:66-99 | hcounteren has scounteren's spans, in the same order |
| HLevel.HtvalHtinstLines | src/csr/h_level.rs:103-111 | htval and htinst print the whole word in hex |
| HLevel.HenvcfgOrder | src/csr/h_level.rs:115-122 | stce, pbmte, cbze, cbcfe, cbie, fiom at 63, 62, 7, 6, 4..5 and 0, in that order, all `Bin` |
| HLevel.HgatpShape | src/csr/h_level.rs:126-130 | mode, vmid and ppn at 60..63, 44..57 and 0..43; of bits 0..63 exactly 58 and 59 are not shown |
| Pte.PteFlags | src/vmem/pte.rs:12-21 | every PTE starts with the flags valid..dirty at bits 0..7, then rsw at 8..9, then ppn from bit 10 with its scheme's `Ppn` decoder |
| Pte.Pte32Shape | src/vmem/pte.rs:11-22 | Pte32 has ten fields, ppn ends at 31, and every bit 0..31 is shown once |
| Pte.PteWideShape | src/vmem/pte.rs:26-73 | the Sv39/48/57 entries have ppn up to 53, then pbmt at 61..62 and n at 63 |
| Pte.PteWideHidden | src/vmem/pte.rs:36-38 | bits 54..60 are never shown |
| Pte.Pte48Pte57 | src/vmem/pte.rs:42-73 | Pte48 and Pte57 share every span and field and differ only in the PPN decoder |
| Pte.PtePpnLine | src/vmem/pte.rs:21-70 | the ppn line is the `Ppn` text of bits 10 up, a value of at most 44 bits |
| VAddr.VaShape | src/vmem/va.rs:11-45 | page_offset (0..11, `Hex`) first, then vpn0.. of 10 bits (Sv32) or 9 bits, contiguous from bit 12, decoded by `RSh<2/3, Hex>` |
| VAddr.VaSpansTile | src/vmem/va.rs:11-45 | the fields tile bits 0 up to the top VPN bit |
| VAddr.VaEachBitOnce | src/vmem/va.rs:11-45 | each bit up to the top VPN bit is shown once, and nothing above it |
| VAddr.VaReassemble | src/vmem/va.rs:11-45 | the fields rebuild the address below the top VPN bit |
| VAddr.VaOffsetLine | src/vmem/va.rs:12-39 | the first field line is the page offset, the low 12 bits in hex |
| VAddr.VaVpnLine | src/vmem/va.rs:13-44 | vpn k prints "0xv -> 0x(v * 4)" (Sv32) or "0xv -> 0x(v * 8)" for its bits v |
| PAddr.PaShape | src/vmem/pa.rs:11-35 | page_offset at 0..11, then ppn from 12 up to 33 (Sv32) or 55 with the scheme's `Ppn` decoder |
| PAddr.PaEachBitOnce | src/vmem/pa.rs:11-35 | each bit up to the ppn's top is shown once |
| PAddr.PaOffsetLine | src/vmem/pa.rs:12-33 | the first field line is the page offset in hex |
| PAddr.PaPpnLine | src/vmem/pa.rs:13-34 | the ppn line is the `Ppn` text of bits 12 up, a value of at most 44 bits |
| PAddr.PaPageAddress | src/vmem/pa.rs:20 | the ppn times 4096 is the address with its page offset cleared, and is the raw address minus its offset when no bit above the ppn is set |
| PAddr.PAddr48PAddr57 | src/vmem/pa.rs:25-35 | PAddr48 and PAddr57 have the same spans and differ only in the PPN decoder |
| Vmem.FormatByName | src/vmem/mod.rs:25-41 | the result depends on the name alone; the value reaches only the constructor; an error is `Unknown(name)` |
| Vmem.PteSpellings | src/vmem/mod.rs:27-30 | the two PTE aliases are "pte_svNN" and "svNN_pte" |
| Vmem.VAddrSpellings | src/vmem/mod.rs:31-34 | the two virtual address aliases are "vaddr_svNN" and "svNN_vaddr" |
| Vmem.PAddrSpellings | src/vmem/mod.rs:35-38 | the two physical address aliases are "paddr_svNN" and "svNN_paddr" |
| Vmem.FormatAliases | src/vmem/mod.rs:27-38 | both aliases of each of the 12 formats build that format from the value |
| Vmem.FormatOnlyAliases | src/vmem/mod.rs:25-41 | every accepted name is one of the two aliases of the format it builds, with the same scheme |
| Vmem.UnknownNames | src/vmem/mod.rs:39 | upper-case, hyphenated, wrong-scheme, bare and empty names are `Unknown` with the text as given |
| Vmem.ShowLines | src/vmem/mod.rs:25-41 | the printed text of a built word splits into its format's lines |
| BaseTypes.TypeSpansTile | src/inst/base_types.rs:10-68 | each instruction format's fields tile bits 0..31 |
| BaseTypes.TypeEachBitOnce | src/inst/base_types.rs:10-68 | each instruction format shows every bit 0..31 in exactly one field |
| BaseTypes.TypeReassemble | src/inst/base_types.rs:10-68 | the fields rebuild the low 32 bits of the word |
| BaseTypes.OpcodeFirst | src/inst/base_types.rs:12-62 | every format begins with opcode at 0..6 in `Bin`, printed as seven binary digits of the low bits |
| BaseTypes.RdField | src/inst/base_types.rs:13-63 | R, I, U and J have rd at 7..11 in `Dec` |
| BaseTypes.Rs1Field | src/inst/base_types.rs:14-47 | R, I, S and B have func3 at 12..14 in `Bin` followed by rs1 at 15..19 in `Dec` |
| BaseTypes.Rs2Field | src/inst/base_types.rs:16-48 | R, S and B have rs2 at 20..24 in `Dec` |
| BaseTypes.Func7Field | src/inst/base_types.rs:17 | R has func7 at 25..31 in `Bin` |
| BaseTypes.RegisterLine | src/inst/base_types.rs:13-16 | a five-bit `Dec` operand prints a register number below 32 in decimal |
| BaseTypes.UImmLine | src/inst/base_types.rs:57 | the U immediate prints "0xv -> 0x(v * 4096)", and v * 4096 is the word's bits 12..31 in place |
| BaseTypes.ImmediatesTile | src/inst/base_types.rs:21-68 | R has no immediate; the pieces of I, S, U and J, moved by their shifts, cover immediate bits 0..11, 0..11, 12..31 and 1..20 exactly once; the B-type pieces as declared cover no range of immediate bits exactly once |
| BaseTypes.ITypeImm | src/inst/base_types.rs:26 | I-type's immediate covers bits 0..11 once |
| BaseTypes.STypeImm | src/inst/base_types.rs:33-37 | S-type's two pieces cover immediate bits 0..11 once |
| BaseTypes.BTypeImm | src/inst/base_types.rs:44-50 | with imm1_4 moved by 1, B-type's four pieces cover immediate bits 1..12 once |
| BaseTypes.UTypeImm | src/inst/base_types.rs:57 | U-type's immediate covers bits 12..31 |
| BaseTypes.JTypeImm | src/inst/base_types.rs:64-67 | J-type's four pieces, moved by 12, 11, 1 and 20, cover immediate bits 1..20 once |
| BaseTypes.BTypeImmAsWritten | src/inst/base_types.rs:44-50 | as written, the pieces place bits 0 and 12 but no piece places bit 4, so they cover no range of immediate bits exactly once (see Findings, src/inst/base_types.rs:45) |
| BaseTypes.BTypeImmLineAsWritten | src/inst/base_types.rs:45 | as written, 0x100 prints "imm1_4: 0x1" with no shifted value (see Findings, src/inst/base_types.rs:45) |
| BaseTypes.BTypeImmLine | src/inst/base_types.rs:45 | corrected, imm1_4 prints "0xv -> 0x(v * 2)", so 0x100 gives "0x1 -> 0x2" |
| Inst.FormatNames | src/inst/mod.rs:44-49 | each of the six names builds its format from the value |
| Inst.FormatOnlyNames | src/inst/mod.rs:41-52 | every accepted name is its format's name and keeps the value; any other name is `UnknownInstruction(value)` |
| Inst.UnknownNames | src/inst/mod.rs:50 | upper-case, hyphenated, padded, unknown and empty names give `UnknownInstruction` with the value |
| Inst.ShowLines | src/inst/mod.rs:41-52 | the printed text of a built instruction splits into its format's lines |
| Inst.OpcodeBits | src/inst/mod.rs:20 | the opcode field `format_instr` reads is the low seven bits |
| Inst.ClassifyTable | src/inst/mod.rs:21-36 | the table names exactly its nine listed values; everything else is `UnknownInstruction(value)` |
| Inst.ClassifyAgrees | src/inst/mod.rs:20-36 | the table accepts exactly the low seven bits that convert to one of its nine opcodes, names each as the opcode decoder does, and otherwise errs with the whole value |
| Inst.OpcodeFormatLine | src/inst/base_opcodes.rs:11-13 | the `Opcode` format's line is the opcode decoder's text of the low seven bits: the mnemonic for a grid value |
| Inst.OpcodeEachBitOnce | src/inst/base_opcodes.rs:11-13 | the `Opcode` format shows bits 0..6 once |

## Left out

- The command line and I/O (`src/main.rs`), the build script (`build.rs`), `src/print.rs` and the `println!` in `format_instr` (src/inst/mod.rs:37): they are printing and process side effects with no decoding logic.
- `src/format.rs` is not part of this model. It declares the trait only, and `Registers.Render` gives the behaviour that trait promises.
- Code the crate does not compile into the binary is not part of this model: `src/csr/base.rs`, `src/csr/h_ext.rs`, `lib/bits` and `lib/bits_macro`.
- `Hideleg`, `src/csr/pmp.rs` and `src/csr/vmem.rs` are left out. They need the `Reserved`, `Vpn` and `PmpXCfg` decoders, which are commented out or defined nowhere. `to_csr` reports hideleg as unsupported in any case.
- Paths that end in `todo!()` are left out:
  - The tail of `format_instr` (src/inst/mod.rs:38). Only its classification table is modelled, as `Inst.ClassifyOpcode`.
  - `src/inst/instructions.rs`.
  - Inst.Format: the "opcode" arm (src/inst/mod.rs:43) is excluded by a `requires`.
- `InstrError::UnknownOpcode` is used by `try_from` (src/inst/base_opcodes.rs:92) but missing from the enum (src/inst/mod.rs:13-16). The model adds it to its own `InstrError`.
- The proc-macro token handling (lib/csr-macro/src/lib.rs:6-27) is left out; only the code it generates is modelled.
  - The generated `name()` returns the literal "#name_p" and is not modelled.
- `Box<dyn Csr>` is modelled as a value naming the format together with the raw word; `Show` is its `Display`.
- `Medeleg`, `Mideleg`, `Mie` and `Mip` are named by `to_csr` but defined nowhere in the source. `Csr.LayoutOf` gives them no format, and `Csr.Show` requires one.
- The colour escapes of warnings are kept as literal prefix and suffix strings (`Fmt.WARN_START`, `Fmt.WARN_END`). The escapes inside the `CsrError` messages are left out, because their text is not modelled.
- `to_csr` matches names exactly and case-sensitively, parses no numbers (no decimal, no 0b) and knows no address ranges for register families; the model does the same. The generated `Display` always prints the title, also for single-field registers.
- Csr.Show: the printed text is tied to `Lines` only through the generic `Registers.RenderLines`, which needs the struct and field names to have no line break. That is proved per format for the vmem and instruction formats but not for the CSR formats, because the long CSR field names make the proof too costly.
- Fields.BitField.SetValue: takes the corrected guard `Fits` (the value fits in `size()` bits). For a whole-word field it therefore accepts calls that the source's `set_value` panics on (debug build) or refuses unless the value is 0 (release build); see Findings, src/bitfield.rs:247.
- LegacyBit.BitField.SetValue: takes the same corrected guard as `Fields.BitField.SetValue`, and differs from src/bit.rs:28 at size 64 in the same way.
- There is no floating point and no concurrency in the modelled code.

## Findings

| source | as written | input that shows it | evidently intended | confidence | as-written member | corrected member |
|---|---|---|---|---|---|---|
| src/bitfield.rs:247 | `assert!(value < (1 << Self::size()))` computes `1 << 64` on a u64 for a whole-word field; with overflow checks (a debug build) the shift panics, so such a field accepts no value | a field over bits 0..63 and value 5 | the value fits in `size()` bits, as the doc comment says, which every u64 does at size 64 | not executed | Fields.SetGuardWholeWord | Fields.BitField.SetValue |
| src/bitfield.rs:247 | without overflow checks (a release build) the shift amount 64 wraps to 0, so `1 << 64` is 1 and a whole-word field accepts only the value 0 | a field over bits 0..63 and value 5 | the value fits in `size()` bits, which every u64 does at size 64 | not executed | Fields.SetGuardWholeWord | Fields.BitField.SetValue |
| src/bit.rs:28 | the earlier `BitField<S, E>` has the same assertion, with the same overflow at size 64 in either build | a field `<0, 63>` and value 5 | the value fits in `size()` bits | not executed | Fields.SetGuardWholeWord | LegacyBit.BitField.SetValue |
| src/inst/base_types.rs:45 | `imm1_4: BitField<Hex, 8, 11>` prints immediate bits 1..4 unshifted, unlike every other immediate piece, which is shown moved to its position | raw 0x100 prints "imm1_4: 0x1", although its contribution to the immediate is 2 | `RSh<1, Hex>`, so that the pieces cover immediate bits 1..12 exactly once | not executed | BaseTypes.BTypeImmAsWritten | BaseTypes.BTypeImm |
