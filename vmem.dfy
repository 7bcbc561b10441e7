/** `vmem::format`: the dispatch from a format name to the page table
    entry, virtual address or physical address format of one of the four
    translation schemes, built from the raw word. */
module Vmem {
  import opened Arith
  import opened Results
  import opened Fmt
  import opened Decoders
  import opened Registers
  import opened VAddr
  import opened PAddr
  import opened Pte

  /** The three kinds of memory word. */
  datatype Kind = PteWord | VAddrWord | PAddrWord

  /** `VmemError`: the unknown name, as it was given. */
  datatype VmemError = Unknown(name: string)

  /** A built format: `Pte32` is `Vmem(PteWord, Sv32, value)`, `VAddr39` is
      `Vmem(VAddrWord, Sv39, value)`, and so on for the twelve structs. */
  datatype Vmem = Vmem(kind: Kind, scheme: Scheme, value: U64)

  /** `format(name, value)`: exact, case-sensitive matching of both
      aliases of each format. */
  function Format(name: string, value: U64): Result<Vmem, VmemError>
  {
    match name
    case "pte_sv32" | "sv32_pte" => Ok(Vmem(PteWord, Sv32, value))
    case "pte_sv39" | "sv39_pte" => Ok(Vmem(PteWord, Sv39, value))
    case "pte_sv48" | "sv48_pte" => Ok(Vmem(PteWord, Sv48, value))
    case "pte_sv57" | "sv57_pte" => Ok(Vmem(PteWord, Sv57, value))
    case "vaddr_sv32" | "sv32_vaddr" => Ok(Vmem(VAddrWord, Sv32, value))
    case "vaddr_sv39" | "sv39_vaddr" => Ok(Vmem(VAddrWord, Sv39, value))
    case "vaddr_sv48" | "sv48_vaddr" => Ok(Vmem(VAddrWord, Sv48, value))
    case "vaddr_sv57" | "sv57_vaddr" => Ok(Vmem(VAddrWord, Sv57, value))
    case "paddr_sv32" | "sv32_paddr" => Ok(Vmem(PAddrWord, Sv32, value))
    case "paddr_sv39" | "sv39_paddr" => Ok(Vmem(PAddrWord, Sv39, value))
    case "paddr_sv48" | "sv48_paddr" => Ok(Vmem(PAddrWord, Sv48, value))
    case "paddr_sv57" | "sv57_paddr" => Ok(Vmem(PAddrWord, Sv57, value))
    case _ => Err(Unknown(name))
  }

  /** The format of each built word. */
  function LayoutOf(kind: Kind, s: Scheme): Layout
  {
    match kind
    case PteWord => PteOf(s)
    case VAddrWord => VaOf(s)
    case PAddrWord => PaOf(s)
  }

  /** `Display` of a built word. */
  function Show(w: Vmem): string
  {
    Render(LayoutOf(w.kind, w.scheme), w.value)
  }

  /** The name part of each kind. */
  function KindName(kind: Kind): string
  {
    match kind
    case PteWord => "pte"
    case VAddrWord => "vaddr"
    case PAddrWord => "paddr"
  }

  /** The name part of each scheme. */
  function SchemeName(s: Scheme): string
  {
    match s
    case Sv32 => "sv32"
    case Sv39 => "sv39"
    case Sv48 => "sv48"
    case Sv57 => "sv57"
  }

  /** The two aliases of a format: kind first, and scheme first. */
  function KindFirst(kind: Kind, s: Scheme): string
  {
    KindName(kind) + "_" + SchemeName(s)
  }

  function SchemeFirst(kind: Kind, s: Scheme): string
  {
    SchemeName(s) + "_" + KindName(kind)
  }

  /** The result kind depends on the name alone; the value only reaches the
      constructor, and the error carries the text that was looked up. */
  lemma FormatByName(name: string, v1: U64, v2: U64)
    ensures Format(name, v1).Ok? <==> Format(name, v2).Ok?
    ensures Format(name, v1).Ok? ==> Format(name, v1).value == Format(name, v2).value.(value := v1)
    ensures Format(name, v1).Err? ==> Format(name, v1) == Err(Unknown(name))
  {
  }

  /** The aliases of the pte formats, spelled out. */
  lemma PteSpellings()
    ensures KindFirst(PteWord, Sv32) == "pte_sv32" && SchemeFirst(PteWord, Sv32) == "sv32_pte"
    ensures KindFirst(PteWord, Sv39) == "pte_sv39" && SchemeFirst(PteWord, Sv39) == "sv39_pte"
    ensures KindFirst(PteWord, Sv48) == "pte_sv48" && SchemeFirst(PteWord, Sv48) == "sv48_pte"
    ensures KindFirst(PteWord, Sv57) == "pte_sv57" && SchemeFirst(PteWord, Sv57) == "sv57_pte"
  {
  }

  /** The aliases of the vaddr formats, spelled out. */
  lemma VAddrSpellings()
    ensures KindFirst(VAddrWord, Sv32) == "vaddr_sv32" && SchemeFirst(VAddrWord, Sv32) == "sv32_vaddr"
    ensures KindFirst(VAddrWord, Sv39) == "vaddr_sv39" && SchemeFirst(VAddrWord, Sv39) == "sv39_vaddr"
    ensures KindFirst(VAddrWord, Sv48) == "vaddr_sv48" && SchemeFirst(VAddrWord, Sv48) == "sv48_vaddr"
    ensures KindFirst(VAddrWord, Sv57) == "vaddr_sv57" && SchemeFirst(VAddrWord, Sv57) == "sv57_vaddr"
  {
  }

  /** The aliases of the paddr formats, spelled out. */
  lemma PAddrSpellings()
    ensures KindFirst(PAddrWord, Sv32) == "paddr_sv32" && SchemeFirst(PAddrWord, Sv32) == "sv32_paddr"
    ensures KindFirst(PAddrWord, Sv39) == "paddr_sv39" && SchemeFirst(PAddrWord, Sv39) == "sv39_paddr"
    ensures KindFirst(PAddrWord, Sv48) == "paddr_sv48" && SchemeFirst(PAddrWord, Sv48) == "sv48_paddr"
    ensures KindFirst(PAddrWord, Sv57) == "paddr_sv57" && SchemeFirst(PAddrWord, Sv57) == "sv57_paddr"
  {
  }

  /** Both aliases of every format resolve to it, built from the given
      value: the kind and the scheme of the name are kept. */
  lemma FormatAliases(kind: Kind, s: Scheme, v: U64)
    ensures Format(KindFirst(kind, s), v) == Ok(Vmem(kind, s, v))
    ensures Format(SchemeFirst(kind, s), v) == Ok(Vmem(kind, s, v))
  {
    match kind
    case PteWord => PteSpellings();
    case VAddrWord => VAddrSpellings();
    case PAddrWord => PAddrSpellings();
  }

  /** Every name `format` accepts is one of the two aliases of the format it
      builds, and that format holds the given value. */
  lemma FormatOnlyAliases(name: string, v: U64)
    ensures Format(name, v).Ok? ==>
      var w := Format(name, v).value;
      w.value == v && (name == KindFirst(w.kind, w.scheme) || name == SchemeFirst(w.kind, w.scheme))
  {
    PteSpellings();
    VAddrSpellings();
    PAddrSpellings();
  }

  /** Names that are not aliases are unknown, with no case folding, no
      other separator and no other scheme. */
  lemma UnknownNames(v: U64)
    ensures Format("PTE_SV32", v) == Err(Unknown("PTE_SV32"))
    ensures Format("pte-sv32", v) == Err(Unknown("pte-sv32"))
    ensures Format("pte_sv33", v) == Err(Unknown("pte_sv33"))
    ensures Format("sv32", v) == Err(Unknown("sv32"))
    ensures Format("", v) == Err(Unknown(""))
  {
  }

  /** The printed text of a built word splits into the lines of its format. */
  lemma ShowLines(w: Vmem)
    ensures SplitLines(Show(w)) == Lines(LayoutOf(w.kind, w.scheme), w.value)
  {
    IdentsOkAll(w.kind, w.scheme);
    RenderLines(LayoutOf(w.kind, w.scheme), w.value);
  }

  /** No name in the formats holds a line break. */
  lemma IdentsOkAll(kind: Kind, s: Scheme)
    ensures IdentsOk(LayoutOf(kind, s))
  {
    match kind
    case PteWord => PteIdents(s);
    case VAddrWord => VAddrIdents(s);
    case PAddrWord => PAddrIdents(s);
  }

  lemma PteIdents(s: Scheme)
    ensures IdentsOk(PteOf(s))
  {
    match s
    case Sv32 => Pte32Idents();
    case Sv39 => Pte39Idents();
    case Sv48 => Pte48Idents();
    case Sv57 => Pte57Idents();
  }

  lemma Pte32Idents() ensures IdentsOk(PTE32) {}
  lemma Pte39Idents() ensures IdentsOk(PTE39) {}
  lemma Pte48Idents() ensures IdentsOk(PTE48) {}
  lemma Pte57Idents() ensures IdentsOk(PTE57) {}

  lemma VAddrIdents(s: Scheme)
    ensures IdentsOk(VaOf(s))
  {
    match s
    case Sv32 => VAddr32Idents();
    case Sv39 => VAddr39Idents();
    case Sv48 => VAddr48Idents();
    case Sv57 => VAddr57Idents();
  }

  lemma VAddr32Idents() ensures IdentsOk(VADDR32) {}
  lemma VAddr39Idents() ensures IdentsOk(VADDR39) {}
  lemma VAddr48Idents() ensures IdentsOk(VADDR48) {}
  lemma VAddr57Idents() ensures IdentsOk(VADDR57) {}

  lemma PAddrIdents(s: Scheme)
    ensures IdentsOk(PaOf(s))
  {
    match s
    case Sv32 => PAddr32Idents();
    case Sv39 => PAddr39Idents();
    case Sv48 => PAddr48Idents();
    case Sv57 => PAddr57Idents();
  }

  lemma PAddr32Idents() ensures IdentsOk(PADDR32) {}
  lemma PAddr39Idents() ensures IdentsOk(PADDR39) {}
  lemma PAddr48Idents() ensures IdentsOk(PADDR48) {}
  lemma PAddr57Idents() ensures IdentsOk(PADDR57) {}
}
