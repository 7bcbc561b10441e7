/** `csr::to_csr`: the dispatch from a CSR name or address string to the
    register format built from the raw value, and the `CsrError` kinds. */
module Csr {
  import opened Arith
  import opened Results
  import opened Registers
  import opened MLevel
  import opened SLevel
  import opened HLevel

  /** The register types `to_csr` can build. `Medeleg`, `Mideleg`, `Mie` and
      `Mip` are named by `to_csr` but defined nowhere in the source, so
      they have no format. */
  datatype CsrId =
    | Sstatus | Sie | Stvec | Scounteren | Senvcfg | Sscratch | Sepc | Scause | Stval | Sip
    | Satp | Hstatus | Hedeleg | Hcounteren | Htval | Henvcfg | Hgatp | Mvendorid | Marchid | Mimpid
    | Mhartid | Mstatus | Misa | Medeleg | Mideleg | Mie | Mtvec | Mip

  /** `CsrError`: both kinds carry the text that was looked up. */
  datatype CsrError = UnkownCsr(name: string) | UnsupportedCsr(name: string)

  /** A built register: which format, and the raw value every field of it
      is taken from. */
  datatype Csr = Csr(id: CsrId, value: U64)

  /** `to_csr(name, value)`: exact, case-sensitive matching of the name or
      of the address written as in the table. */
  function ToCsr(name: string, value: U64): Result<Csr, CsrError>
  {
    match name
    case "0x001" | "fflags" => Err(UnsupportedCsr(name))
    case "0x002" | "frm" => Err(UnsupportedCsr(name))
    case "0x003" | "fcsr" => Err(UnsupportedCsr(name))
    case "0xc00" | "cycle" => Err(UnsupportedCsr(name))
    case "0xc01" | "time" => Err(UnsupportedCsr(name))
    case "0xc02" | "instret" => Err(UnsupportedCsr(name))
    case "hmpcounter" => Err(UnsupportedCsr(name))
    case "0x100" | "sstatus" => Ok(Csr(Sstatus, value))
    case "0x104" | "sie" => Ok(Csr(Sie, value))
    case "0x105" | "stvec" => Ok(Csr(Stvec, value))
    case "0x106" | "scounteren" => Ok(Csr(Scounteren, value))
    case "0x10a" | "senvcfg" => Ok(Csr(Senvcfg, value))
    case "0x140" | "sscratch" => Ok(Csr(Sscratch, value))
    case "0x141" | "sepc" => Ok(Csr(Sepc, value))
    case "0x142" | "scause" => Ok(Csr(Scause, value))
    case "0x143" | "stval" => Ok(Csr(Stval, value))
    case "0x144" | "sip" => Ok(Csr(Sip, value))
    case "0x180" | "satp" => Ok(Csr(Satp, value))
    case "0x5a8" | "scontext" => Err(UnsupportedCsr(name))
    case "0x600" | "hstatus" => Ok(Csr(Hstatus, value))
    case "0x602" | "hedeleg" => Ok(Csr(Hedeleg, value))
    case "0x603" | "hideleg" => Err(UnsupportedCsr(name))
    case "0x604" | "hie" => Err(UnsupportedCsr(name))
    case "0x606" | "hcounteren" => Ok(Csr(Hcounteren, value))
    case "0x607" | "hgeie" => Err(UnsupportedCsr(name))
    case "0x643" | "htval" => Ok(Csr(Htval, value))
    case "0x644" | "hip" => Err(UnsupportedCsr(name))
    case "0x645" | "hvip" => Err(UnsupportedCsr(name))
    case "0x64a" | "htinst" => Err(UnsupportedCsr(name))
    case "0xe12" | "hgeip" => Err(UnsupportedCsr(name))
    case "0x60a" | "henvcfg" => Ok(Csr(Henvcfg, value))
    case "0x680" | "hgatp" => Ok(Csr(Hgatp, value))
    case "0x6a8" | "hcontext" => Err(UnsupportedCsr(name))
    case "0x605" | "htimedelta" => Err(UnsupportedCsr(name))
    case "0x200" | "vsstatus" => Ok(Csr(Sstatus, value))
    case "0x204" | "vsie" => Err(UnsupportedCsr(name))
    case "0x205" | "vstvec" => Ok(Csr(Stvec, value))
    case "0x240" | "vsscratch" => Ok(Csr(Sscratch, value))
    case "0x241" | "vsepc" => Ok(Csr(Sepc, value))
    case "0x242" | "vscause" => Ok(Csr(Scause, value))
    case "0x243" | "vstval" => Err(UnsupportedCsr(name))
    case "0x244" | "vsip" => Err(UnsupportedCsr(name))
    case "0x280" | "vsatp" => Ok(Csr(Satp, value))
    case "0xf11" | "mvendorid" => Ok(Csr(Mvendorid, value))
    case "0xf12" | "marchid" => Ok(Csr(Marchid, value))
    case "0xf13" | "mimpid" => Ok(Csr(Mimpid, value))
    case "0xf14" | "mhartid" => Ok(Csr(Mhartid, value))
    case "0xf15" | "mconfigptr" => Err(UnsupportedCsr(name))
    case "0x300" | "mstatus" => Ok(Csr(Mstatus, value))
    case "0x301" | "misa" => Ok(Csr(Misa, value))
    case "0x302" | "medeleg" => Ok(Csr(Medeleg, value))
    case "0x303" | "mideleg" => Ok(Csr(Mideleg, value))
    case "0x304" | "mie" => Ok(Csr(Mie, value))
    case "0x305" | "mtvec" => Ok(Csr(Mtvec, value))
    case "0x306" | "mcounteren" => Err(UnsupportedCsr(name))
    case "0x340" | "mscratch" => Err(UnsupportedCsr(name))
    case "0x341" | "mepc" => Err(UnsupportedCsr(name))
    case "0x342" | "mcause" => Err(UnsupportedCsr(name))
    case "0x343" | "mtval" => Err(UnsupportedCsr(name))
    case "0x344" | "mip" => Ok(Csr(Mip, value))
    case "0x34A" | "mtinst" => Err(UnsupportedCsr(name))
    case "0x34B" | "mtval2" => Err(UnsupportedCsr(name))
    case "0x30A" | "menvcfg" => Err(UnsupportedCsr(name))
    case "0x747" | "mseccfg" => Err(UnsupportedCsr(name))
    case "0x740" | "mnscratch" => Err(UnsupportedCsr(name))
    case "0x741" | "mnepc" => Err(UnsupportedCsr(name))
    case "0x742" | "mncause" => Err(UnsupportedCsr(name))
    case "0x744" | "mnstatus" => Err(UnsupportedCsr(name))
    case _ => Err(UnkownCsr(name))
  }

  /** The format of each register type that has one. */
  function LayoutOf(id: CsrId): Option<Layout>
  {
    match id
    case Sstatus => Some(SSTATUS)
    case Sie => Some(SIE)
    case Stvec => Some(STVEC)
    case Scounteren => Some(SCOUNTEREN)
    case Senvcfg => Some(SENVCFG)
    case Sscratch => Some(SSCRATCH)
    case Sepc => Some(SEPC)
    case Scause => Some(SCAUSE)
    case Stval => Some(STVAL)
    case Sip => Some(SIP)
    case Satp => Some(SATP)
    case Hstatus => Some(HSTATUS)
    case Hedeleg => Some(HEDELEG)
    case Hcounteren => Some(HCOUNTEREN)
    case Htval => Some(HTVAL)
    case Henvcfg => Some(HENVCFG)
    case Hgatp => Some(HGATP)
    case Mvendorid => Some(MVENDORID)
    case Marchid => Some(MARCHID)
    case Mimpid => Some(MIMPID)
    case Mhartid => Some(MHARTID)
    case Mstatus => Some(MSTATUS)
    case Misa => Some(MISA)
    case Mtvec => Some(MTVEC)
    case Medeleg | Mideleg | Mie | Mip => None
  }

  /** `Display` of a built register. */
  function Show(c: Csr): string
    requires LayoutOf(c.id).Some?
  {
    Render(LayoutOf(c.id).value, c.value)
  }

  /** The result kind depends on the name alone; the value only reaches the
      constructor, and an error carries the text that was looked up. */
  lemma ToCsrByName(name: string, v1: U64, v2: U64)
    ensures ToCsr(name, v1).Ok? <==> ToCsr(name, v2).Ok?
    ensures ToCsr(name, v1).Ok? ==> ToCsr(name, v1).value == Csr(ToCsr(name, v2).value.id, v1)
    ensures ToCsr(name, v1).Err? ==> ToCsr(name, v1).error == ToCsr(name, v2).error
    ensures ToCsr(name, v1).Err? ==> ToCsr(name, v1).error.name == name
  {
  }

  /** The addresses and names of the supervisor registers, as the privileged architecture numbers them. */
  const SUPERVISOR: seq<(string, string, CsrId)> := [
    ("0x100", "sstatus", Sstatus), ("0x104", "sie", Sie), ("0x105", "stvec", Stvec),
    ("0x106", "scounteren", Scounteren), ("0x10a", "senvcfg", Senvcfg),
    ("0x140", "sscratch", Sscratch), ("0x141", "sepc", Sepc), ("0x142", "scause", Scause),
    ("0x143", "stval", Stval), ("0x144", "sip", Sip), ("0x180", "satp", Satp)
  ]

  /** Each of them resolves from its address and from its name to the same
      register, built from the given value. */
  lemma SupervisorResolve(k: nat, v: U64)
    requires k < |SUPERVISOR|
    ensures ToCsr(SUPERVISOR[k].0, v) == Ok(Csr(SUPERVISOR[k].2, v))
    ensures ToCsr(SUPERVISOR[k].1, v) == Ok(Csr(SUPERVISOR[k].2, v))
  {
    match k
    case 0 => Address0x100(v); NameSstatus(v);
    case 1 => Address0x104(v); NameSie(v);
    case 2 => Address0x105(v); NameStvec(v);
    case 3 => Address0x106(v); NameScounteren(v);
    case 4 => Address0x10a(v); NameSenvcfg(v);
    case 5 => Address0x140(v); NameSscratch(v);
    case 6 => Address0x141(v); NameSepc(v);
    case 7 => Address0x142(v); NameScause(v);
    case 8 => Address0x143(v); NameStval(v);
    case 9 => Address0x144(v); NameSip(v);
    case 10 => Address0x180(v); NameSatp(v);
  }

  /** The addresses and names of the hypervisor registers, as the privileged architecture numbers them. */
  const HYPERVISOR: seq<(string, string, CsrId)> := [
    ("0x600", "hstatus", Hstatus), ("0x602", "hedeleg", Hedeleg), ("0x606", "hcounteren", Hcounteren),
    ("0x643", "htval", Htval), ("0x60a", "henvcfg", Henvcfg), ("0x680", "hgatp", Hgatp)
  ]

  /** Each of them resolves from its address and from its name to the same
      register, built from the given value. */
  lemma HypervisorResolve(k: nat, v: U64)
    requires k < |HYPERVISOR|
    ensures ToCsr(HYPERVISOR[k].0, v) == Ok(Csr(HYPERVISOR[k].2, v))
    ensures ToCsr(HYPERVISOR[k].1, v) == Ok(Csr(HYPERVISOR[k].2, v))
  {
    match k
    case 0 => Address0x600(v); NameHstatus(v);
    case 1 => Address0x602(v); NameHedeleg(v);
    case 2 => Address0x606(v); NameHcounteren(v);
    case 3 => Address0x643(v); NameHtval(v);
    case 4 => Address0x60a(v); NameHenvcfg(v);
    case 5 => Address0x680(v); NameHgatp(v);
  }

  /** The addresses and names of the virtual-supervisor registers, which reuse the supervisor formats, as the privileged architecture numbers them. */
  const VIRTUAL_SUPERVISOR: seq<(string, string, CsrId)> := [
    ("0x200", "vsstatus", Sstatus), ("0x205", "vstvec", Stvec), ("0x240", "vsscratch", Sscratch),
    ("0x241", "vsepc", Sepc), ("0x242", "vscause", Scause), ("0x280", "vsatp", Satp)
  ]

  /** Each of them resolves from its address and from its name to the same
      register, built from the given value. */
  lemma VirtualSupervisorResolve(k: nat, v: U64)
    requires k < |VIRTUAL_SUPERVISOR|
    ensures ToCsr(VIRTUAL_SUPERVISOR[k].0, v) == Ok(Csr(VIRTUAL_SUPERVISOR[k].2, v))
    ensures ToCsr(VIRTUAL_SUPERVISOR[k].1, v) == Ok(Csr(VIRTUAL_SUPERVISOR[k].2, v))
  {
    match k
    case 0 => Address0x200(v); NameVsstatus(v);
    case 1 => Address0x205(v); NameVstvec(v);
    case 2 => Address0x240(v); NameVsscratch(v);
    case 3 => Address0x241(v); NameVsepc(v);
    case 4 => Address0x242(v); NameVscause(v);
    case 5 => Address0x280(v); NameVsatp(v);
  }

  /** The addresses and names of the machine information registers, as the
      privileged architecture numbers them. */
  const MACHINE_INFORMATION: seq<(string, string, CsrId)> := [
    ("0xf11", "mvendorid", Mvendorid), ("0xf12", "marchid", Marchid), ("0xf13", "mimpid", Mimpid),
    ("0xf14", "mhartid", Mhartid)
  ]

  /** Each of them resolves from its address and from its name to the same
      register, built from the given value. */
  lemma MachineInformationResolve(k: nat, v: U64)
    requires k < |MACHINE_INFORMATION|
    ensures ToCsr(MACHINE_INFORMATION[k].0, v) == Ok(Csr(MACHINE_INFORMATION[k].2, v))
    ensures ToCsr(MACHINE_INFORMATION[k].1, v) == Ok(Csr(MACHINE_INFORMATION[k].2, v))
  {
    match k
    case 0 => Address0xf11(v); NameMvendorid(v);
    case 1 => Address0xf12(v); NameMarchid(v);
    case 2 => Address0xf13(v); NameMimpid(v);
    case 3 => Address0xf14(v); NameMhartid(v);
  }

  /** The addresses and names of the machine trap setup and handling
      registers that `to_csr` builds. */
  const MACHINE_TRAP: seq<(string, string, CsrId)> := [
    ("0x300", "mstatus", Mstatus), ("0x301", "misa", Misa), ("0x302", "medeleg", Medeleg),
    ("0x303", "mideleg", Mideleg), ("0x304", "mie", Mie), ("0x305", "mtvec", Mtvec),
    ("0x344", "mip", Mip)
  ]

  /** Each of them resolves from its address and from its name to the same
      register, built from the given value. */
  lemma MachineTrapResolve(k: nat, v: U64)
    requires k < |MACHINE_TRAP|
    ensures ToCsr(MACHINE_TRAP[k].0, v) == Ok(Csr(MACHINE_TRAP[k].2, v))
    ensures ToCsr(MACHINE_TRAP[k].1, v) == Ok(Csr(MACHINE_TRAP[k].2, v))
  {
    match k
    case 0 => Address0x300(v); NameMstatus(v);
    case 1 => Address0x301(v); NameMisa(v);
    case 2 => Address0x302(v); NameMedeleg(v);
    case 3 => Address0x303(v); NameMideleg(v);
    case 4 => Address0x304(v); NameMie(v);
    case 5 => Address0x305(v); NameMtvec(v);
    case 6 => Address0x344(v); NameMip(v);
  }

  /** "mcause" is catalogued but not implemented: the error carries the name. */
  lemma UnsupportedMcause(v: U64)
    ensures ToCsr("mcause", v) == Err(UnsupportedCsr("mcause"))
  {
    var n := "mcause";
    assert n[0] == 'm' && n[1] == 'c' && n[2] == 'a' && n[3] == 'u' && n[4] == 's' && n[5] == 'e';
  }

  /** "hideleg" is catalogued but not implemented (its format needs a decoder the source lacks). */
  lemma UnsupportedHideleg(v: U64)
    ensures ToCsr("hideleg", v) == Err(UnsupportedCsr("hideleg"))
  {
    var n := "hideleg";
    assert n[0] == 'h' && n[1] == 'i' && n[2] == 'd' && n[3] == 'e' && n[4] == 'l' && n[5] == 'e' && n[6] == 'g';
  }

  /** "htinst" is refused as unsupported although its format is defined. */
  lemma UnsupportedHtinst(v: U64)
    ensures ToCsr("htinst", v) == Err(UnsupportedCsr("htinst"))
  {
    var n := "htinst";
    assert n[0] == 'h' && n[1] == 't' && n[2] == 'i' && n[3] == 'n' && n[4] == 's' && n[5] == 't';
  }

  /** "0x34A" is written in upper case in the table, so it matches. */
  lemma UnsupportedUpperAddress(v: U64)
    ensures ToCsr("0x34A", v) == Err(UnsupportedCsr("0x34A"))
  {
    var n := "0x34A";
    assert n[0] == '0' && n[1] == 'x' && n[2] == '3' && n[3] == '4' && n[4] == 'A';
  }

  /** Any other text is an unknown CSR, without a panic. */
  lemma UnknownName(v: U64)
    ensures ToCsr("notareg", v) == Err(UnkownCsr("notareg"))
  {
  }

  /** Matching is case-sensitive: "MISA" is unknown. */
  lemma UnknownUpperName(v: U64)
    ensures ToCsr("MISA", v) == Err(UnkownCsr("MISA"))
  {
  }

  /** "0x34a" does not match the upper-case "0x34A" of the table. */
  lemma UnknownLowerAddress(v: U64)
    ensures ToCsr("0x34a", v) == Err(UnkownCsr("0x34a"))
  {
    var n := "0x34a";
    assert n[0] == '0' && n[1] == 'x' && n[2] == '3' && n[3] == '4' && n[4] == 'a';
  }

  /** Numbers are never parsed: "769", the decimal address of misa, is unknown. */
  lemma UnknownDecimal(v: U64)
    ensures ToCsr("769", v) == Err(UnkownCsr("769"))
  {
  }

  /** The texts of the unprivileged floating-point, counter and timer registers that
      `to_csr` refuses as unsupported. */
  const UNSUPPORTED_UNPRIVILEGED: seq<string> := [
    "0x001", "fflags", "0x002", "frm", "0x003", "fcsr", "0xc00", "cycle",
    "0xc01", "time", "0xc02", "instret", "hmpcounter"
  ]

  /** The texts of the supervisor debug register that
      `to_csr` refuses as unsupported. */
  const UNSUPPORTED_SUPERVISOR: seq<string> := [
    "0x5a8", "scontext"
  ]

  /** The texts of the hypervisor registers that
      `to_csr` refuses as unsupported. */
  const UNSUPPORTED_HYPERVISOR: seq<string> := [
    "0x603", "hideleg", "0x604", "hie", "0x607", "hgeie", "0x644", "hip",
    "0x645", "hvip", "0x64a", "htinst", "0xe12", "hgeip", "0x6a8", "hcontext",
    "0x605", "htimedelta"
  ]

  /** The texts of the virtual-supervisor registers that
      `to_csr` refuses as unsupported. */
  const UNSUPPORTED_VIRTUAL_SUPERVISOR: seq<string> := [
    "0x204", "vsie", "0x243", "vstval", "0x244", "vsip"
  ]

  /** The texts of the machine information, trap setup and trap handling registers that
      `to_csr` refuses as unsupported. */
  const UNSUPPORTED_MACHINE: seq<string> := [
    "0xf15", "mconfigptr", "0x306", "mcounteren", "0x340", "mscratch", "0x341", "mepc",
    "0x342", "mcause", "0x343", "mtval", "0x34A", "mtinst", "0x34B", "mtval2"
  ]

  /** The texts of the machine configuration and non-maskable interrupt registers that
      `to_csr` refuses as unsupported. */
  const UNSUPPORTED_MACHINE_CONFIG: seq<string> := [
    "0x30A", "menvcfg", "0x747", "mseccfg", "0x740", "mnscratch", "0x741", "mnepc",
    "0x742", "mncause", "0x744", "mnstatus"
  ]

  /** Every text `to_csr` lists but refuses as unsupported, in the order
      of its arms. */
  const UNSUPPORTED: seq<string> :=
    UNSUPPORTED_UNPRIVILEGED + UNSUPPORTED_SUPERVISOR + UNSUPPORTED_HYPERVISOR +
    UNSUPPORTED_VIRTUAL_SUPERVISOR + UNSUPPORTED_MACHINE + UNSUPPORTED_MACHINE_CONFIG

  /** The entries of `SUPERVISOR`, one by one. */
  lemma SupervisorEntries()
    ensures |SUPERVISOR| == 11
    ensures SUPERVISOR[0] == ("0x100", "sstatus", Sstatus)
    ensures SUPERVISOR[1] == ("0x104", "sie", Sie)
    ensures SUPERVISOR[2] == ("0x105", "stvec", Stvec)
    ensures SUPERVISOR[3] == ("0x106", "scounteren", Scounteren)
    ensures SUPERVISOR[4] == ("0x10a", "senvcfg", Senvcfg)
    ensures SUPERVISOR[5] == ("0x140", "sscratch", Sscratch)
    ensures SUPERVISOR[6] == ("0x141", "sepc", Sepc)
    ensures SUPERVISOR[7] == ("0x142", "scause", Scause)
    ensures SUPERVISOR[8] == ("0x143", "stval", Stval)
    ensures SUPERVISOR[9] == ("0x144", "sip", Sip)
    ensures SUPERVISOR[10] == ("0x180", "satp", Satp)
  {
  }

  /** The entries of `HYPERVISOR`, one by one. */
  lemma HypervisorEntries()
    ensures |HYPERVISOR| == 6
    ensures HYPERVISOR[0] == ("0x600", "hstatus", Hstatus)
    ensures HYPERVISOR[1] == ("0x602", "hedeleg", Hedeleg)
    ensures HYPERVISOR[2] == ("0x606", "hcounteren", Hcounteren)
    ensures HYPERVISOR[3] == ("0x643", "htval", Htval)
    ensures HYPERVISOR[4] == ("0x60a", "henvcfg", Henvcfg)
    ensures HYPERVISOR[5] == ("0x680", "hgatp", Hgatp)
  {
  }

  /** The entries of `VIRTUAL_SUPERVISOR`, one by one. */
  lemma VirtualSupervisorEntries()
    ensures |VIRTUAL_SUPERVISOR| == 6
    ensures VIRTUAL_SUPERVISOR[0] == ("0x200", "vsstatus", Sstatus)
    ensures VIRTUAL_SUPERVISOR[1] == ("0x205", "vstvec", Stvec)
    ensures VIRTUAL_SUPERVISOR[2] == ("0x240", "vsscratch", Sscratch)
    ensures VIRTUAL_SUPERVISOR[3] == ("0x241", "vsepc", Sepc)
    ensures VIRTUAL_SUPERVISOR[4] == ("0x242", "vscause", Scause)
    ensures VIRTUAL_SUPERVISOR[5] == ("0x280", "vsatp", Satp)
  {
  }

  /** The entries of `MACHINE_INFORMATION`, one by one. */
  lemma MachineInformationEntries()
    ensures |MACHINE_INFORMATION| == 4
    ensures MACHINE_INFORMATION[0] == ("0xf11", "mvendorid", Mvendorid)
    ensures MACHINE_INFORMATION[1] == ("0xf12", "marchid", Marchid)
    ensures MACHINE_INFORMATION[2] == ("0xf13", "mimpid", Mimpid)
    ensures MACHINE_INFORMATION[3] == ("0xf14", "mhartid", Mhartid)
  {
  }

  /** The entries of `MACHINE_TRAP`, one by one. */
  lemma MachineTrapEntries()
    ensures |MACHINE_TRAP| == 7
    ensures MACHINE_TRAP[0] == ("0x300", "mstatus", Mstatus)
    ensures MACHINE_TRAP[1] == ("0x301", "misa", Misa)
    ensures MACHINE_TRAP[2] == ("0x302", "medeleg", Medeleg)
    ensures MACHINE_TRAP[3] == ("0x303", "mideleg", Mideleg)
    ensures MACHINE_TRAP[4] == ("0x304", "mie", Mie)
    ensures MACHINE_TRAP[5] == ("0x305", "mtvec", Mtvec)
    ensures MACHINE_TRAP[6] == ("0x344", "mip", Mip)
  {
  }

  /** The texts of `UNSUPPORTED_UNPRIVILEGED`, one by one. */
  lemma UnsupportedUnprivilegedEntries()
    ensures |UNSUPPORTED_UNPRIVILEGED| == 13
    ensures UNSUPPORTED_UNPRIVILEGED[0] == "0x001"
    ensures UNSUPPORTED_UNPRIVILEGED[1] == "fflags"
    ensures UNSUPPORTED_UNPRIVILEGED[2] == "0x002"
    ensures UNSUPPORTED_UNPRIVILEGED[3] == "frm"
    ensures UNSUPPORTED_UNPRIVILEGED[4] == "0x003"
    ensures UNSUPPORTED_UNPRIVILEGED[5] == "fcsr"
    ensures UNSUPPORTED_UNPRIVILEGED[6] == "0xc00"
    ensures UNSUPPORTED_UNPRIVILEGED[7] == "cycle"
    ensures UNSUPPORTED_UNPRIVILEGED[8] == "0xc01"
    ensures UNSUPPORTED_UNPRIVILEGED[9] == "time"
    ensures UNSUPPORTED_UNPRIVILEGED[10] == "0xc02"
    ensures UNSUPPORTED_UNPRIVILEGED[11] == "instret"
    ensures UNSUPPORTED_UNPRIVILEGED[12] == "hmpcounter"
  {
  }

  /** The texts of `UNSUPPORTED_SUPERVISOR`, one by one. */
  lemma UnsupportedSupervisorEntries()
    ensures |UNSUPPORTED_SUPERVISOR| == 2
    ensures UNSUPPORTED_SUPERVISOR[0] == "0x5a8"
    ensures UNSUPPORTED_SUPERVISOR[1] == "scontext"
  {
  }

  /** The texts of `UNSUPPORTED_HYPERVISOR`, one by one. */
  lemma UnsupportedHypervisorEntries()
    ensures |UNSUPPORTED_HYPERVISOR| == 18
    ensures UNSUPPORTED_HYPERVISOR[0] == "0x603"
    ensures UNSUPPORTED_HYPERVISOR[1] == "hideleg"
    ensures UNSUPPORTED_HYPERVISOR[2] == "0x604"
    ensures UNSUPPORTED_HYPERVISOR[3] == "hie"
    ensures UNSUPPORTED_HYPERVISOR[4] == "0x607"
    ensures UNSUPPORTED_HYPERVISOR[5] == "hgeie"
    ensures UNSUPPORTED_HYPERVISOR[6] == "0x644"
    ensures UNSUPPORTED_HYPERVISOR[7] == "hip"
    ensures UNSUPPORTED_HYPERVISOR[8] == "0x645"
    ensures UNSUPPORTED_HYPERVISOR[9] == "hvip"
    ensures UNSUPPORTED_HYPERVISOR[10] == "0x64a"
    ensures UNSUPPORTED_HYPERVISOR[11] == "htinst"
    ensures UNSUPPORTED_HYPERVISOR[12] == "0xe12"
    ensures UNSUPPORTED_HYPERVISOR[13] == "hgeip"
    ensures UNSUPPORTED_HYPERVISOR[14] == "0x6a8"
    ensures UNSUPPORTED_HYPERVISOR[15] == "hcontext"
    ensures UNSUPPORTED_HYPERVISOR[16] == "0x605"
    ensures UNSUPPORTED_HYPERVISOR[17] == "htimedelta"
  {
  }

  /** The texts of `UNSUPPORTED_VIRTUAL_SUPERVISOR`, one by one. */
  lemma UnsupportedVirtualSupervisorEntries()
    ensures |UNSUPPORTED_VIRTUAL_SUPERVISOR| == 6
    ensures UNSUPPORTED_VIRTUAL_SUPERVISOR[0] == "0x204"
    ensures UNSUPPORTED_VIRTUAL_SUPERVISOR[1] == "vsie"
    ensures UNSUPPORTED_VIRTUAL_SUPERVISOR[2] == "0x243"
    ensures UNSUPPORTED_VIRTUAL_SUPERVISOR[3] == "vstval"
    ensures UNSUPPORTED_VIRTUAL_SUPERVISOR[4] == "0x244"
    ensures UNSUPPORTED_VIRTUAL_SUPERVISOR[5] == "vsip"
  {
  }

  /** The texts of `UNSUPPORTED_MACHINE`, one by one. */
  lemma UnsupportedMachineEntries()
    ensures |UNSUPPORTED_MACHINE| == 16
    ensures UNSUPPORTED_MACHINE[0] == "0xf15"
    ensures UNSUPPORTED_MACHINE[1] == "mconfigptr"
    ensures UNSUPPORTED_MACHINE[2] == "0x306"
    ensures UNSUPPORTED_MACHINE[3] == "mcounteren"
    ensures UNSUPPORTED_MACHINE[4] == "0x340"
    ensures UNSUPPORTED_MACHINE[5] == "mscratch"
    ensures UNSUPPORTED_MACHINE[6] == "0x341"
    ensures UNSUPPORTED_MACHINE[7] == "mepc"
    ensures UNSUPPORTED_MACHINE[8] == "0x342"
    ensures UNSUPPORTED_MACHINE[9] == "mcause"
    ensures UNSUPPORTED_MACHINE[10] == "0x343"
    ensures UNSUPPORTED_MACHINE[11] == "mtval"
    ensures UNSUPPORTED_MACHINE[12] == "0x34A"
    ensures UNSUPPORTED_MACHINE[13] == "mtinst"
    ensures UNSUPPORTED_MACHINE[14] == "0x34B"
    ensures UNSUPPORTED_MACHINE[15] == "mtval2"
  {
  }

  /** The texts of `UNSUPPORTED_MACHINE_CONFIG`, one by one. */
  lemma UnsupportedMachineConfigEntries()
    ensures |UNSUPPORTED_MACHINE_CONFIG| == 12
    ensures UNSUPPORTED_MACHINE_CONFIG[0] == "0x30A"
    ensures UNSUPPORTED_MACHINE_CONFIG[1] == "menvcfg"
    ensures UNSUPPORTED_MACHINE_CONFIG[2] == "0x747"
    ensures UNSUPPORTED_MACHINE_CONFIG[3] == "mseccfg"
    ensures UNSUPPORTED_MACHINE_CONFIG[4] == "0x740"
    ensures UNSUPPORTED_MACHINE_CONFIG[5] == "mnscratch"
    ensures UNSUPPORTED_MACHINE_CONFIG[6] == "0x741"
    ensures UNSUPPORTED_MACHINE_CONFIG[7] == "mnepc"
    ensures UNSUPPORTED_MACHINE_CONFIG[8] == "0x742"
    ensures UNSUPPORTED_MACHINE_CONFIG[9] == "mncause"
    ensures UNSUPPORTED_MACHINE_CONFIG[10] == "0x744"
    ensures UNSUPPORTED_MACHINE_CONFIG[11] == "mnstatus"
  {
  }

  /** Each text of `UNSUPPORTED_UNPRIVILEGED` is refused, the error carrying the text. */
  lemma UnsupportedUnprivilegedResolve(k: nat, v: U64)
    requires k < |UNSUPPORTED_UNPRIVILEGED|
    ensures ToCsr(UNSUPPORTED_UNPRIVILEGED[k], v) == Err(UnsupportedCsr(UNSUPPORTED_UNPRIVILEGED[k]))
  {
    match k
    case 0 => Unsupported0x001(v);
    case 1 => UnsupportedFflags(v);
    case 2 => Unsupported0x002(v);
    case 3 => UnsupportedFrm(v);
    case 4 => Unsupported0x003(v);
    case 5 => UnsupportedFcsr(v);
    case 6 => Unsupported0xc00(v);
    case 7 => UnsupportedCycle(v);
    case 8 => Unsupported0xc01(v);
    case 9 => UnsupportedTime(v);
    case 10 => Unsupported0xc02(v);
    case 11 => UnsupportedInstret(v);
    case 12 => UnsupportedHmpcounter(v);
  }

  /** Each text of `UNSUPPORTED_SUPERVISOR` is refused, the error carrying the text. */
  lemma UnsupportedSupervisorResolve(k: nat, v: U64)
    requires k < |UNSUPPORTED_SUPERVISOR|
    ensures ToCsr(UNSUPPORTED_SUPERVISOR[k], v) == Err(UnsupportedCsr(UNSUPPORTED_SUPERVISOR[k]))
  {
    match k
    case 0 => Unsupported0x5a8(v);
    case 1 => UnsupportedScontext(v);
  }

  /** Each text of `UNSUPPORTED_HYPERVISOR` is refused, the error carrying the text. */
  lemma UnsupportedHypervisorResolve(k: nat, v: U64)
    requires k < |UNSUPPORTED_HYPERVISOR|
    ensures ToCsr(UNSUPPORTED_HYPERVISOR[k], v) == Err(UnsupportedCsr(UNSUPPORTED_HYPERVISOR[k]))
  {
    match k
    case 0 => Unsupported0x603(v);
    case 1 => UnsupportedHideleg(v);
    case 2 => Unsupported0x604(v);
    case 3 => UnsupportedHie(v);
    case 4 => Unsupported0x607(v);
    case 5 => UnsupportedHgeie(v);
    case 6 => Unsupported0x644(v);
    case 7 => UnsupportedHip(v);
    case 8 => Unsupported0x645(v);
    case 9 => UnsupportedHvip(v);
    case 10 => Unsupported0x64a(v);
    case 11 => UnsupportedHtinst(v);
    case 12 => Unsupported0xe12(v);
    case 13 => UnsupportedHgeip(v);
    case 14 => Unsupported0x6a8(v);
    case 15 => UnsupportedHcontext(v);
    case 16 => Unsupported0x605(v);
    case 17 => UnsupportedHtimedelta(v);
  }

  /** Each text of `UNSUPPORTED_VIRTUAL_SUPERVISOR` is refused, the error carrying the text. */
  lemma UnsupportedVirtualSupervisorResolve(k: nat, v: U64)
    requires k < |UNSUPPORTED_VIRTUAL_SUPERVISOR|
    ensures ToCsr(UNSUPPORTED_VIRTUAL_SUPERVISOR[k], v) == Err(UnsupportedCsr(UNSUPPORTED_VIRTUAL_SUPERVISOR[k]))
  {
    match k
    case 0 => Unsupported0x204(v);
    case 1 => UnsupportedVsie(v);
    case 2 => Unsupported0x243(v);
    case 3 => UnsupportedVstval(v);
    case 4 => Unsupported0x244(v);
    case 5 => UnsupportedVsip(v);
  }

  /** Each text of `UNSUPPORTED_MACHINE` is refused, the error carrying the text. */
  lemma UnsupportedMachineResolve(k: nat, v: U64)
    requires k < |UNSUPPORTED_MACHINE|
    ensures ToCsr(UNSUPPORTED_MACHINE[k], v) == Err(UnsupportedCsr(UNSUPPORTED_MACHINE[k]))
  {
    match k
    case 0 => Unsupported0xf15(v);
    case 1 => UnsupportedMconfigptr(v);
    case 2 => Unsupported0x306(v);
    case 3 => UnsupportedMcounteren(v);
    case 4 => Unsupported0x340(v);
    case 5 => UnsupportedMscratch(v);
    case 6 => Unsupported0x341(v);
    case 7 => UnsupportedMepc(v);
    case 8 => Unsupported0x342(v);
    case 9 => UnsupportedMcause(v);
    case 10 => Unsupported0x343(v);
    case 11 => UnsupportedMtval(v);
    case 12 => UnsupportedUpperAddress(v);
    case 13 => UnsupportedMtinst(v);
    case 14 => Unsupported0x34B(v);
    case 15 => UnsupportedMtval2(v);
  }

  /** Each text of `UNSUPPORTED_MACHINE_CONFIG` is refused, the error carrying the text. */
  lemma UnsupportedMachineConfigResolve(k: nat, v: U64)
    requires k < |UNSUPPORTED_MACHINE_CONFIG|
    ensures ToCsr(UNSUPPORTED_MACHINE_CONFIG[k], v) == Err(UnsupportedCsr(UNSUPPORTED_MACHINE_CONFIG[k]))
  {
    match k
    case 0 => Unsupported0x30A(v);
    case 1 => UnsupportedMenvcfg(v);
    case 2 => Unsupported0x747(v);
    case 3 => UnsupportedMseccfg(v);
    case 4 => Unsupported0x740(v);
    case 5 => UnsupportedMnscratch(v);
    case 6 => Unsupported0x741(v);
    case 7 => UnsupportedMnepc(v);
    case 8 => Unsupported0x742(v);
    case 9 => UnsupportedMncause(v);
    case 10 => Unsupported0x744(v);
    case 11 => UnsupportedMnstatus(v);
  }

  /** Each text of the unsupported table is refused, the error carrying the text. */
  lemma UnsupportedResolve(k: nat, v: U64)
    requires k < |UNSUPPORTED|
    ensures ToCsr(UNSUPPORTED[k], v) == Err(UnsupportedCsr(UNSUPPORTED[k]))
  {
    if k < 13 {
      UnsupportedUnprivilegedResolve(k, v);
    } else if k < 15 {
      UnsupportedSupervisorResolve(k - 13, v);
    } else if k < 33 {
      UnsupportedHypervisorResolve(k - 15, v);
    } else if k < 39 {
      UnsupportedVirtualSupervisorResolve(k - 33, v);
    } else if k < 55 {
      UnsupportedMachineResolve(k - 39, v);
    } else {
      UnsupportedMachineConfigResolve(k - 55, v);
    }
  }

  /** A name or address of a table entry, with the register it resolves to. */
  ghost predicate InTable(t: seq<(string, string, CsrId)>, name: string, id: CsrId)
  {
    exists k :: 0 <= k < |t| && (t[k].0 == name || t[k].1 == name) && t[k].2 == id
  }

  /** The names and addresses `to_csr` builds a register for. */
  ghost predicate Listed(name: string, id: CsrId)
  {
    InTable(SUPERVISOR, name, id) || InTable(HYPERVISOR, name, id) ||
    InTable(VIRTUAL_SUPERVISOR, name, id) || InTable(MACHINE_INFORMATION, name, id) ||
    InTable(MACHINE_TRAP, name, id)
  }

  /** Both texts of an entry of one of the five tables are listed, with the
      entry's register. */
  lemma EntryListed(t: seq<(string, string, CsrId)>, k: nat)
    requires t == SUPERVISOR || t == HYPERVISOR || t == VIRTUAL_SUPERVISOR ||
      t == MACHINE_INFORMATION || t == MACHINE_TRAP
    requires k < |t|
    ensures Listed(t[k].0, t[k].2) && Listed(t[k].1, t[k].2)
  {
    assert InTable(t, t[k].0, t[k].2) && InTable(t, t[k].1, t[k].2);
  }

  /** A text of a section of the unsupported table is in the whole table. */
  lemma RefusedIn(section: seq<string>, k: nat)
    requires section == UNSUPPORTED_UNPRIVILEGED || section == UNSUPPORTED_SUPERVISOR ||
      section == UNSUPPORTED_HYPERVISOR || section == UNSUPPORTED_VIRTUAL_SUPERVISOR ||
      section == UNSUPPORTED_MACHINE || section == UNSUPPORTED_MACHINE_CONFIG
    requires k < |section|
    ensures section[k] in UNSUPPORTED
  {
  }

  /** The texts no arm of `to_csr` names: every name and address it lists,
      built or refused, is excluded. */
  predicate Unlisted(name: string)
  {
    match name
    case "0x001" | "fflags" | "0x002" | "frm" | "0x003" | "fcsr" | "0xc00" |
      "cycle" | "0xc01" | "time" | "0xc02" | "instret" | "hmpcounter" | "0x100" |
      "sstatus" | "0x104" | "sie" | "0x105" | "stvec" | "0x106" | "scounteren" |
      "0x10a" | "senvcfg" | "0x140" | "sscratch" | "0x141" | "sepc" | "0x142" |
      "scause" | "0x143" | "stval" | "0x144" | "sip" | "0x180" | "satp" |
      "0x5a8" | "scontext" | "0x600" | "hstatus" | "0x602" | "hedeleg" | "0x603" |
      "hideleg" | "0x604" | "hie" | "0x606" | "hcounteren" | "0x607" | "hgeie" |
      "0x643" | "htval" | "0x644" | "hip" | "0x645" | "hvip" | "0x64a" |
      "htinst" | "0xe12" | "hgeip" | "0x60a" | "henvcfg" | "0x680" | "hgatp" |
      "0x6a8" | "hcontext" | "0x605" | "htimedelta" | "0x200" | "vsstatus" | "0x204" |
      "vsie" | "0x205" | "vstvec" | "0x240" | "vsscratch" | "0x241" | "vsepc" |
      "0x242" | "vscause" | "0x243" | "vstval" | "0x244" | "vsip" | "0x280" |
      "vsatp" | "0xf11" | "mvendorid" | "0xf12" | "marchid" | "0xf13" | "mimpid" |
      "0xf14" | "mhartid" | "0xf15" | "mconfigptr" | "0x300" | "mstatus" | "0x301" |
      "misa" | "0x302" | "medeleg" | "0x303" | "mideleg" | "0x304" | "mie" |
      "0x305" | "mtvec" | "0x306" | "mcounteren" | "0x340" | "mscratch" | "0x341" |
      "mepc" | "0x342" | "mcause" | "0x343" | "mtval" | "0x344" | "mip" |
      "0x34A" | "mtinst" | "0x34B" | "mtval2" | "0x30A" | "menvcfg" | "0x747" |
      "mseccfg" | "0x740" | "mnscratch" | "0x741" | "mnepc" | "0x742" | "mncause" |
      "0x744" | "mnstatus" => false
    case _ => true
  }

  /** `to_csr` reports an unknown CSR exactly for the texts no arm names. */
  lemma UnknownExactly(name: string, v: U64)
    ensures ToCsr(name, v) == Err(UnkownCsr(name)) <==> Unlisted(name)
  {
  }

  /** A register `to_csr` builds is the one the table entry of the text
      names, built from the given value. */
  lemma BuiltListed(name: string, v: U64)
    ensures ToCsr(name, v).Ok? ==> ToCsr(name, v).value.value == v && Listed(name, ToCsr(name, v).value.id)
  {
    SupervisorEntries();
    HypervisorEntries();
    VirtualSupervisorEntries();
    MachineInformationEntries();
    MachineTrapEntries();
    match name
    case "0x001" | "fflags" =>
    case "0x002" | "frm" =>
    case "0x003" | "fcsr" =>
    case "0xc00" | "cycle" =>
    case "0xc01" | "time" =>
    case "0xc02" | "instret" =>
    case "hmpcounter" =>
    case "0x100" => EntryListed(SUPERVISOR, 0);
    case "sstatus" => EntryListed(SUPERVISOR, 0);
    case "0x104" => EntryListed(SUPERVISOR, 1);
    case "sie" => EntryListed(SUPERVISOR, 1);
    case "0x105" => EntryListed(SUPERVISOR, 2);
    case "stvec" => EntryListed(SUPERVISOR, 2);
    case "0x106" => EntryListed(SUPERVISOR, 3);
    case "scounteren" => EntryListed(SUPERVISOR, 3);
    case "0x10a" => EntryListed(SUPERVISOR, 4);
    case "senvcfg" => EntryListed(SUPERVISOR, 4);
    case "0x140" => EntryListed(SUPERVISOR, 5);
    case "sscratch" => EntryListed(SUPERVISOR, 5);
    case "0x141" => EntryListed(SUPERVISOR, 6);
    case "sepc" => EntryListed(SUPERVISOR, 6);
    case "0x142" => EntryListed(SUPERVISOR, 7);
    case "scause" => EntryListed(SUPERVISOR, 7);
    case "0x143" => EntryListed(SUPERVISOR, 8);
    case "stval" => EntryListed(SUPERVISOR, 8);
    case "0x144" => EntryListed(SUPERVISOR, 9);
    case "sip" => EntryListed(SUPERVISOR, 9);
    case "0x180" => EntryListed(SUPERVISOR, 10);
    case "satp" => EntryListed(SUPERVISOR, 10);
    case "0x5a8" | "scontext" =>
    case "0x600" => EntryListed(HYPERVISOR, 0);
    case "hstatus" => EntryListed(HYPERVISOR, 0);
    case "0x602" => EntryListed(HYPERVISOR, 1);
    case "hedeleg" => EntryListed(HYPERVISOR, 1);
    case "0x603" | "hideleg" =>
    case "0x604" | "hie" =>
    case "0x606" => EntryListed(HYPERVISOR, 2);
    case "hcounteren" => EntryListed(HYPERVISOR, 2);
    case "0x607" | "hgeie" =>
    case "0x643" => EntryListed(HYPERVISOR, 3);
    case "htval" => EntryListed(HYPERVISOR, 3);
    case "0x644" | "hip" =>
    case "0x645" | "hvip" =>
    case "0x64a" | "htinst" =>
    case "0xe12" | "hgeip" =>
    case "0x60a" => EntryListed(HYPERVISOR, 4);
    case "henvcfg" => EntryListed(HYPERVISOR, 4);
    case "0x680" => EntryListed(HYPERVISOR, 5);
    case "hgatp" => EntryListed(HYPERVISOR, 5);
    case "0x6a8" | "hcontext" =>
    case "0x605" | "htimedelta" =>
    case "0x200" => EntryListed(VIRTUAL_SUPERVISOR, 0);
    case "vsstatus" => EntryListed(VIRTUAL_SUPERVISOR, 0);
    case "0x204" | "vsie" =>
    case "0x205" => EntryListed(VIRTUAL_SUPERVISOR, 1);
    case "vstvec" => EntryListed(VIRTUAL_SUPERVISOR, 1);
    case "0x240" => EntryListed(VIRTUAL_SUPERVISOR, 2);
    case "vsscratch" => EntryListed(VIRTUAL_SUPERVISOR, 2);
    case "0x241" => EntryListed(VIRTUAL_SUPERVISOR, 3);
    case "vsepc" => EntryListed(VIRTUAL_SUPERVISOR, 3);
    case "0x242" => EntryListed(VIRTUAL_SUPERVISOR, 4);
    case "vscause" => EntryListed(VIRTUAL_SUPERVISOR, 4);
    case "0x243" | "vstval" =>
    case "0x244" | "vsip" =>
    case "0x280" => EntryListed(VIRTUAL_SUPERVISOR, 5);
    case "vsatp" => EntryListed(VIRTUAL_SUPERVISOR, 5);
    case "0xf11" => EntryListed(MACHINE_INFORMATION, 0);
    case "mvendorid" => EntryListed(MACHINE_INFORMATION, 0);
    case "0xf12" => EntryListed(MACHINE_INFORMATION, 1);
    case "marchid" => EntryListed(MACHINE_INFORMATION, 1);
    case "0xf13" => EntryListed(MACHINE_INFORMATION, 2);
    case "mimpid" => EntryListed(MACHINE_INFORMATION, 2);
    case "0xf14" => EntryListed(MACHINE_INFORMATION, 3);
    case "mhartid" => EntryListed(MACHINE_INFORMATION, 3);
    case "0xf15" | "mconfigptr" =>
    case "0x300" => EntryListed(MACHINE_TRAP, 0);
    case "mstatus" => EntryListed(MACHINE_TRAP, 0);
    case "0x301" => EntryListed(MACHINE_TRAP, 1);
    case "misa" => EntryListed(MACHINE_TRAP, 1);
    case "0x302" => EntryListed(MACHINE_TRAP, 2);
    case "medeleg" => EntryListed(MACHINE_TRAP, 2);
    case "0x303" => EntryListed(MACHINE_TRAP, 3);
    case "mideleg" => EntryListed(MACHINE_TRAP, 3);
    case "0x304" => EntryListed(MACHINE_TRAP, 4);
    case "mie" => EntryListed(MACHINE_TRAP, 4);
    case "0x305" => EntryListed(MACHINE_TRAP, 5);
    case "mtvec" => EntryListed(MACHINE_TRAP, 5);
    case "0x306" | "mcounteren" =>
    case "0x340" | "mscratch" =>
    case "0x341" | "mepc" =>
    case "0x342" | "mcause" =>
    case "0x343" | "mtval" =>
    case "0x344" => EntryListed(MACHINE_TRAP, 6);
    case "mip" => EntryListed(MACHINE_TRAP, 6);
    case "0x34A" | "mtinst" =>
    case "0x34B" | "mtval2" =>
    case "0x30A" | "menvcfg" =>
    case "0x747" | "mseccfg" =>
    case "0x740" | "mnscratch" =>
    case "0x741" | "mnepc" =>
    case "0x742" | "mncause" =>
    case "0x744" | "mnstatus" =>
    case _ =>
  }

  /** A text `to_csr` refuses as unsupported is one of that table. */
  lemma RefusedListed(name: string, v: U64)
    ensures ToCsr(name, v) == Err(UnsupportedCsr(name)) ==> name in UNSUPPORTED
  {
    UnsupportedUnprivilegedEntries();
    UnsupportedSupervisorEntries();
    UnsupportedHypervisorEntries();
    UnsupportedVirtualSupervisorEntries();
    UnsupportedMachineEntries();
    UnsupportedMachineConfigEntries();
    match name
    case "0x001" => RefusedIn(UNSUPPORTED_UNPRIVILEGED, 0);
    case "fflags" => RefusedIn(UNSUPPORTED_UNPRIVILEGED, 1);
    case "0x002" => RefusedIn(UNSUPPORTED_UNPRIVILEGED, 2);
    case "frm" => RefusedIn(UNSUPPORTED_UNPRIVILEGED, 3);
    case "0x003" => RefusedIn(UNSUPPORTED_UNPRIVILEGED, 4);
    case "fcsr" => RefusedIn(UNSUPPORTED_UNPRIVILEGED, 5);
    case "0xc00" => RefusedIn(UNSUPPORTED_UNPRIVILEGED, 6);
    case "cycle" => RefusedIn(UNSUPPORTED_UNPRIVILEGED, 7);
    case "0xc01" => RefusedIn(UNSUPPORTED_UNPRIVILEGED, 8);
    case "time" => RefusedIn(UNSUPPORTED_UNPRIVILEGED, 9);
    case "0xc02" => RefusedIn(UNSUPPORTED_UNPRIVILEGED, 10);
    case "instret" => RefusedIn(UNSUPPORTED_UNPRIVILEGED, 11);
    case "hmpcounter" => RefusedIn(UNSUPPORTED_UNPRIVILEGED, 12);
    case "0x100" | "sstatus" =>
    case "0x104" | "sie" =>
    case "0x105" | "stvec" =>
    case "0x106" | "scounteren" =>
    case "0x10a" | "senvcfg" =>
    case "0x140" | "sscratch" =>
    case "0x141" | "sepc" =>
    case "0x142" | "scause" =>
    case "0x143" | "stval" =>
    case "0x144" | "sip" =>
    case "0x180" | "satp" =>
    case "0x5a8" => RefusedIn(UNSUPPORTED_SUPERVISOR, 0);
    case "scontext" => RefusedIn(UNSUPPORTED_SUPERVISOR, 1);
    case "0x600" | "hstatus" =>
    case "0x602" | "hedeleg" =>
    case "0x603" => RefusedIn(UNSUPPORTED_HYPERVISOR, 0);
    case "hideleg" => RefusedIn(UNSUPPORTED_HYPERVISOR, 1);
    case "0x604" => RefusedIn(UNSUPPORTED_HYPERVISOR, 2);
    case "hie" => RefusedIn(UNSUPPORTED_HYPERVISOR, 3);
    case "0x606" | "hcounteren" =>
    case "0x607" => RefusedIn(UNSUPPORTED_HYPERVISOR, 4);
    case "hgeie" => RefusedIn(UNSUPPORTED_HYPERVISOR, 5);
    case "0x643" | "htval" =>
    case "0x644" => RefusedIn(UNSUPPORTED_HYPERVISOR, 6);
    case "hip" => RefusedIn(UNSUPPORTED_HYPERVISOR, 7);
    case "0x645" => RefusedIn(UNSUPPORTED_HYPERVISOR, 8);
    case "hvip" => RefusedIn(UNSUPPORTED_HYPERVISOR, 9);
    case "0x64a" => RefusedIn(UNSUPPORTED_HYPERVISOR, 10);
    case "htinst" => RefusedIn(UNSUPPORTED_HYPERVISOR, 11);
    case "0xe12" => RefusedIn(UNSUPPORTED_HYPERVISOR, 12);
    case "hgeip" => RefusedIn(UNSUPPORTED_HYPERVISOR, 13);
    case "0x60a" | "henvcfg" =>
    case "0x680" | "hgatp" =>
    case "0x6a8" => RefusedIn(UNSUPPORTED_HYPERVISOR, 14);
    case "hcontext" => RefusedIn(UNSUPPORTED_HYPERVISOR, 15);
    case "0x605" => RefusedIn(UNSUPPORTED_HYPERVISOR, 16);
    case "htimedelta" => RefusedIn(UNSUPPORTED_HYPERVISOR, 17);
    case "0x200" | "vsstatus" =>
    case "0x204" => RefusedIn(UNSUPPORTED_VIRTUAL_SUPERVISOR, 0);
    case "vsie" => RefusedIn(UNSUPPORTED_VIRTUAL_SUPERVISOR, 1);
    case "0x205" | "vstvec" =>
    case "0x240" | "vsscratch" =>
    case "0x241" | "vsepc" =>
    case "0x242" | "vscause" =>
    case "0x243" => RefusedIn(UNSUPPORTED_VIRTUAL_SUPERVISOR, 2);
    case "vstval" => RefusedIn(UNSUPPORTED_VIRTUAL_SUPERVISOR, 3);
    case "0x244" => RefusedIn(UNSUPPORTED_VIRTUAL_SUPERVISOR, 4);
    case "vsip" => RefusedIn(UNSUPPORTED_VIRTUAL_SUPERVISOR, 5);
    case "0x280" | "vsatp" =>
    case "0xf11" | "mvendorid" =>
    case "0xf12" | "marchid" =>
    case "0xf13" | "mimpid" =>
    case "0xf14" | "mhartid" =>
    case "0xf15" => RefusedIn(UNSUPPORTED_MACHINE, 0);
    case "mconfigptr" => RefusedIn(UNSUPPORTED_MACHINE, 1);
    case "0x300" | "mstatus" =>
    case "0x301" | "misa" =>
    case "0x302" | "medeleg" =>
    case "0x303" | "mideleg" =>
    case "0x304" | "mie" =>
    case "0x305" | "mtvec" =>
    case "0x306" => RefusedIn(UNSUPPORTED_MACHINE, 2);
    case "mcounteren" => RefusedIn(UNSUPPORTED_MACHINE, 3);
    case "0x340" => RefusedIn(UNSUPPORTED_MACHINE, 4);
    case "mscratch" => RefusedIn(UNSUPPORTED_MACHINE, 5);
    case "0x341" => RefusedIn(UNSUPPORTED_MACHINE, 6);
    case "mepc" => RefusedIn(UNSUPPORTED_MACHINE, 7);
    case "0x342" => RefusedIn(UNSUPPORTED_MACHINE, 8);
    case "mcause" => RefusedIn(UNSUPPORTED_MACHINE, 9);
    case "0x343" => RefusedIn(UNSUPPORTED_MACHINE, 10);
    case "mtval" => RefusedIn(UNSUPPORTED_MACHINE, 11);
    case "0x344" | "mip" =>
    case "0x34A" => RefusedIn(UNSUPPORTED_MACHINE, 12);
    case "mtinst" => RefusedIn(UNSUPPORTED_MACHINE, 13);
    case "0x34B" => RefusedIn(UNSUPPORTED_MACHINE, 14);
    case "mtval2" => RefusedIn(UNSUPPORTED_MACHINE, 15);
    case "0x30A" => RefusedIn(UNSUPPORTED_MACHINE_CONFIG, 0);
    case "menvcfg" => RefusedIn(UNSUPPORTED_MACHINE_CONFIG, 1);
    case "0x747" => RefusedIn(UNSUPPORTED_MACHINE_CONFIG, 2);
    case "mseccfg" => RefusedIn(UNSUPPORTED_MACHINE_CONFIG, 3);
    case "0x740" => RefusedIn(UNSUPPORTED_MACHINE_CONFIG, 4);
    case "mnscratch" => RefusedIn(UNSUPPORTED_MACHINE_CONFIG, 5);
    case "0x741" => RefusedIn(UNSUPPORTED_MACHINE_CONFIG, 6);
    case "mnepc" => RefusedIn(UNSUPPORTED_MACHINE_CONFIG, 7);
    case "0x742" => RefusedIn(UNSUPPORTED_MACHINE_CONFIG, 8);
    case "mncause" => RefusedIn(UNSUPPORTED_MACHINE_CONFIG, 9);
    case "0x744" => RefusedIn(UNSUPPORTED_MACHINE_CONFIG, 10);
    case "mnstatus" => RefusedIn(UNSUPPORTED_MACHINE_CONFIG, 11);
    case _ =>
  }

  /** `to_csr` refuses as unsupported exactly the texts of that table. */
  lemma UnsupportedExactly(name: string, v: U64)
    ensures ToCsr(name, v) == Err(UnsupportedCsr(name)) <==> name in UNSUPPORTED
  {
    if name in UNSUPPORTED {
      var k :| 0 <= k < |UNSUPPORTED| && UNSUPPORTED[k] == name;
      UnsupportedResolve(k, v);
    } else {
      RefusedListed(name, v);
    }
  }

  /** An entry of `SUPERVISOR` builds the register it names. */
  lemma SupervisorBuilt(name: string, id: CsrId, v: U64)
    requires InTable(SUPERVISOR, name, id)
    ensures ToCsr(name, v) == Ok(Csr(id, v))
  {
    var k :| 0 <= k < |SUPERVISOR| && (SUPERVISOR[k].0 == name || SUPERVISOR[k].1 == name) && SUPERVISOR[k].2 == id;
    SupervisorResolve(k, v);
  }

  /** An entry of `HYPERVISOR` builds the register it names. */
  lemma HypervisorBuilt(name: string, id: CsrId, v: U64)
    requires InTable(HYPERVISOR, name, id)
    ensures ToCsr(name, v) == Ok(Csr(id, v))
  {
    var k :| 0 <= k < |HYPERVISOR| && (HYPERVISOR[k].0 == name || HYPERVISOR[k].1 == name) && HYPERVISOR[k].2 == id;
    HypervisorResolve(k, v);
  }

  /** An entry of `VIRTUAL_SUPERVISOR` builds the register it names. */
  lemma VirtualSupervisorBuilt(name: string, id: CsrId, v: U64)
    requires InTable(VIRTUAL_SUPERVISOR, name, id)
    ensures ToCsr(name, v) == Ok(Csr(id, v))
  {
    var k :| 0 <= k < |VIRTUAL_SUPERVISOR| && (VIRTUAL_SUPERVISOR[k].0 == name || VIRTUAL_SUPERVISOR[k].1 == name) && VIRTUAL_SUPERVISOR[k].2 == id;
    VirtualSupervisorResolve(k, v);
  }

  /** An entry of `MACHINE_INFORMATION` builds the register it names. */
  lemma MachineInformationBuilt(name: string, id: CsrId, v: U64)
    requires InTable(MACHINE_INFORMATION, name, id)
    ensures ToCsr(name, v) == Ok(Csr(id, v))
  {
    var k :| 0 <= k < |MACHINE_INFORMATION| && (MACHINE_INFORMATION[k].0 == name || MACHINE_INFORMATION[k].1 == name) && MACHINE_INFORMATION[k].2 == id;
    MachineInformationResolve(k, v);
  }

  /** An entry of `MACHINE_TRAP` builds the register it names. */
  lemma MachineTrapBuilt(name: string, id: CsrId, v: U64)
    requires InTable(MACHINE_TRAP, name, id)
    ensures ToCsr(name, v) == Ok(Csr(id, v))
  {
    var k :| 0 <= k < |MACHINE_TRAP| && (MACHINE_TRAP[k].0 == name || MACHINE_TRAP[k].1 == name) && MACHINE_TRAP[k].2 == id;
    MachineTrapResolve(k, v);
  }

  /** An entry of the five tables builds the register it names. */
  lemma ListedBuilt(name: string, id: CsrId, v: U64)
    requires Listed(name, id)
    ensures ToCsr(name, v) == Ok(Csr(id, v))
  {
    if InTable(SUPERVISOR, name, id) {
      SupervisorBuilt(name, id, v);
    } else if InTable(HYPERVISOR, name, id) {
      HypervisorBuilt(name, id, v);
    } else if InTable(VIRTUAL_SUPERVISOR, name, id) {
      VirtualSupervisorBuilt(name, id, v);
    } else if InTable(MACHINE_INFORMATION, name, id) {
      MachineInformationBuilt(name, id, v);
    } else {
      MachineTrapBuilt(name, id, v);
    }
  }

  /** `to_csr` builds a register exactly from the names and addresses of the
      five tables, each the register its entry names. */
  lemma BuiltExactly(name: string, id: CsrId, v: U64)
    ensures ToCsr(name, v) == Ok(Csr(id, v)) <==> Listed(name, id)
  {
    if Listed(name, id) {
      ListedBuilt(name, id, v);
    } else {
      BuiltListed(name, v);
    }
  }

  // One lemma per lookup, below: each literal is compared with every earlier
  // arm of `ToCsr`. Kept one literal per lemma because a lemma over several
  // string literals costs the verifier far more than the sum of the single
  // ones; the lemmas above that carry the meaning only dispatch to these.

  lemma Address0x100(v: U64)
    ensures ToCsr("0x100", v) == Ok(Csr(Sstatus, v))
  {
    var n := "0x100";
    assert n[0] == '0' && n[1] == 'x' && n[2] == '1' && n[3] == '0' && n[4] == '0';
  }

  lemma NameSstatus(v: U64)
    ensures ToCsr("sstatus", v) == Ok(Csr(Sstatus, v))
  {
    var n := "sstatus";
    assert n[0] == 's' && n[1] == 's' && n[2] == 't' && n[3] == 'a' && n[4] == 't' && n[5] == 'u' && n[6] == 's';
  }

  lemma Address0x104(v: U64)
    ensures ToCsr("0x104", v) == Ok(Csr(Sie, v))
  {
    var n := "0x104";
    assert n[0] == '0' && n[1] == 'x' && n[2] == '1' && n[3] == '0' && n[4] == '4';
  }

  lemma NameSie(v: U64)
    ensures ToCsr("sie", v) == Ok(Csr(Sie, v))
  {
    var n := "sie";
    assert n[0] == 's' && n[1] == 'i' && n[2] == 'e';
  }

  lemma Address0x105(v: U64)
    ensures ToCsr("0x105", v) == Ok(Csr(Stvec, v))
  {
    var n := "0x105";
    assert n[0] == '0' && n[1] == 'x' && n[2] == '1' && n[3] == '0' && n[4] == '5';
  }

  lemma NameStvec(v: U64)
    ensures ToCsr("stvec", v) == Ok(Csr(Stvec, v))
  {
    var n := "stvec";
    assert n[0] == 's' && n[1] == 't' && n[2] == 'v' && n[3] == 'e' && n[4] == 'c';
  }

  lemma Address0x106(v: U64)
    ensures ToCsr("0x106", v) == Ok(Csr(Scounteren, v))
  {
    var n := "0x106";
    assert n[0] == '0' && n[1] == 'x' && n[2] == '1' && n[3] == '0' && n[4] == '6';
  }

  lemma NameScounteren(v: U64)
    ensures ToCsr("scounteren", v) == Ok(Csr(Scounteren, v))
  {
    var n := "scounteren";
    assert n[0] == 's' && n[1] == 'c' && n[2] == 'o' && n[3] == 'u' && n[4] == 'n' && n[5] == 't' && n[6] == 'e' && n[7] == 'r' && n[8] == 'e' && n[9] == 'n';
  }

  lemma Address0x10a(v: U64)
    ensures ToCsr("0x10a", v) == Ok(Csr(Senvcfg, v))
  {
    var n := "0x10a";
    assert n[0] == '0' && n[1] == 'x' && n[2] == '1' && n[3] == '0' && n[4] == 'a';
  }

  lemma NameSenvcfg(v: U64)
    ensures ToCsr("senvcfg", v) == Ok(Csr(Senvcfg, v))
  {
    var n := "senvcfg";
    assert n[0] == 's' && n[1] == 'e' && n[2] == 'n' && n[3] == 'v' && n[4] == 'c' && n[5] == 'f' && n[6] == 'g';
  }

  lemma Address0x140(v: U64)
    ensures ToCsr("0x140", v) == Ok(Csr(Sscratch, v))
  {
    var n := "0x140";
    assert n[0] == '0' && n[1] == 'x' && n[2] == '1' && n[3] == '4' && n[4] == '0';
  }

  lemma NameSscratch(v: U64)
    ensures ToCsr("sscratch", v) == Ok(Csr(Sscratch, v))
  {
    var n := "sscratch";
    assert n[0] == 's' && n[1] == 's' && n[2] == 'c' && n[3] == 'r' && n[4] == 'a' && n[5] == 't' && n[6] == 'c' && n[7] == 'h';
  }

  lemma Address0x141(v: U64)
    ensures ToCsr("0x141", v) == Ok(Csr(Sepc, v))
  {
    var n := "0x141";
    assert n[0] == '0' && n[1] == 'x' && n[2] == '1' && n[3] == '4' && n[4] == '1';
  }

  lemma NameSepc(v: U64)
    ensures ToCsr("sepc", v) == Ok(Csr(Sepc, v))
  {
    var n := "sepc";
    assert n[0] == 's' && n[1] == 'e' && n[2] == 'p' && n[3] == 'c';
  }

  lemma Address0x142(v: U64)
    ensures ToCsr("0x142", v) == Ok(Csr(Scause, v))
  {
    var n := "0x142";
    assert n[0] == '0' && n[1] == 'x' && n[2] == '1' && n[3] == '4' && n[4] == '2';
  }

  lemma NameScause(v: U64)
    ensures ToCsr("scause", v) == Ok(Csr(Scause, v))
  {
    var n := "scause";
    assert n[0] == 's' && n[1] == 'c' && n[2] == 'a' && n[3] == 'u' && n[4] == 's' && n[5] == 'e';
  }

  lemma Address0x143(v: U64)
    ensures ToCsr("0x143", v) == Ok(Csr(Stval, v))
  {
    var n := "0x143";
    assert n[0] == '0' && n[1] == 'x' && n[2] == '1' && n[3] == '4' && n[4] == '3';
  }

  lemma NameStval(v: U64)
    ensures ToCsr("stval", v) == Ok(Csr(Stval, v))
  {
    var n := "stval";
    assert n[0] == 's' && n[1] == 't' && n[2] == 'v' && n[3] == 'a' && n[4] == 'l';
  }

  lemma Address0x144(v: U64)
    ensures ToCsr("0x144", v) == Ok(Csr(Sip, v))
  {
    var n := "0x144";
    assert n[0] == '0' && n[1] == 'x' && n[2] == '1' && n[3] == '4' && n[4] == '4';
  }

  lemma NameSip(v: U64)
    ensures ToCsr("sip", v) == Ok(Csr(Sip, v))
  {
    var n := "sip";
    assert n[0] == 's' && n[1] == 'i' && n[2] == 'p';
  }

  lemma Address0x180(v: U64)
    ensures ToCsr("0x180", v) == Ok(Csr(Satp, v))
  {
    var n := "0x180";
    assert n[0] == '0' && n[1] == 'x' && n[2] == '1' && n[3] == '8' && n[4] == '0';
  }

  lemma NameSatp(v: U64)
    ensures ToCsr("satp", v) == Ok(Csr(Satp, v))
  {
    var n := "satp";
    assert n[0] == 's' && n[1] == 'a' && n[2] == 't' && n[3] == 'p';
  }

  lemma Address0x600(v: U64)
    ensures ToCsr("0x600", v) == Ok(Csr(Hstatus, v))
  {
    var n := "0x600";
    assert n[0] == '0' && n[1] == 'x' && n[2] == '6' && n[3] == '0' && n[4] == '0';
  }

  lemma NameHstatus(v: U64)
    ensures ToCsr("hstatus", v) == Ok(Csr(Hstatus, v))
  {
    var n := "hstatus";
    assert n[0] == 'h' && n[1] == 's' && n[2] == 't' && n[3] == 'a' && n[4] == 't' && n[5] == 'u' && n[6] == 's';
  }

  lemma Address0x602(v: U64)
    ensures ToCsr("0x602", v) == Ok(Csr(Hedeleg, v))
  {
    var n := "0x602";
    assert n[0] == '0' && n[1] == 'x' && n[2] == '6' && n[3] == '0' && n[4] == '2';
  }

  lemma NameHedeleg(v: U64)
    ensures ToCsr("hedeleg", v) == Ok(Csr(Hedeleg, v))
  {
    var n := "hedeleg";
    assert n[0] == 'h' && n[1] == 'e' && n[2] == 'd' && n[3] == 'e' && n[4] == 'l' && n[5] == 'e' && n[6] == 'g';
  }

  lemma Address0x606(v: U64)
    ensures ToCsr("0x606", v) == Ok(Csr(Hcounteren, v))
  {
    var n := "0x606";
    assert n[0] == '0' && n[1] == 'x' && n[2] == '6' && n[3] == '0' && n[4] == '6';
  }

  lemma NameHcounteren(v: U64)
    ensures ToCsr("hcounteren", v) == Ok(Csr(Hcounteren, v))
  {
    var n := "hcounteren";
    assert n[0] == 'h' && n[1] == 'c' && n[2] == 'o' && n[3] == 'u' && n[4] == 'n' && n[5] == 't' && n[6] == 'e' && n[7] == 'r' && n[8] == 'e' && n[9] == 'n';
  }

  lemma Address0x643(v: U64)
    ensures ToCsr("0x643", v) == Ok(Csr(Htval, v))
  {
    var n := "0x643";
    assert n[0] == '0' && n[1] == 'x' && n[2] == '6' && n[3] == '4' && n[4] == '3';
  }

  lemma NameHtval(v: U64)
    ensures ToCsr("htval", v) == Ok(Csr(Htval, v))
  {
    var n := "htval";
    assert n[0] == 'h' && n[1] == 't' && n[2] == 'v' && n[3] == 'a' && n[4] == 'l';
  }

  lemma Address0x60a(v: U64)
    ensures ToCsr("0x60a", v) == Ok(Csr(Henvcfg, v))
  {
    var n := "0x60a";
    assert n[0] == '0' && n[1] == 'x' && n[2] == '6' && n[3] == '0' && n[4] == 'a';
  }

  lemma NameHenvcfg(v: U64)
    ensures ToCsr("henvcfg", v) == Ok(Csr(Henvcfg, v))
  {
    var n := "henvcfg";
    assert n[0] == 'h' && n[1] == 'e' && n[2] == 'n' && n[3] == 'v' && n[4] == 'c' && n[5] == 'f' && n[6] == 'g';
  }

  lemma Address0x680(v: U64)
    ensures ToCsr("0x680", v) == Ok(Csr(Hgatp, v))
  {
    var n := "0x680";
    assert n[0] == '0' && n[1] == 'x' && n[2] == '6' && n[3] == '8' && n[4] == '0';
  }

  lemma NameHgatp(v: U64)
    ensures ToCsr("hgatp", v) == Ok(Csr(Hgatp, v))
  {
    var n := "hgatp";
    assert n[0] == 'h' && n[1] == 'g' && n[2] == 'a' && n[3] == 't' && n[4] == 'p';
  }

  lemma Address0x200(v: U64)
    ensures ToCsr("0x200", v) == Ok(Csr(Sstatus, v))
  {
    var n := "0x200";
    assert n[0] == '0' && n[1] == 'x' && n[2] == '2' && n[3] == '0' && n[4] == '0';
  }

  lemma NameVsstatus(v: U64)
    ensures ToCsr("vsstatus", v) == Ok(Csr(Sstatus, v))
  {
    var n := "vsstatus";
    assert n[0] == 'v' && n[1] == 's' && n[2] == 's' && n[3] == 't' && n[4] == 'a' && n[5] == 't' && n[6] == 'u' && n[7] == 's';
  }

  lemma Address0x205(v: U64)
    ensures ToCsr("0x205", v) == Ok(Csr(Stvec, v))
  {
    var n := "0x205";
    assert n[0] == '0' && n[1] == 'x' && n[2] == '2' && n[3] == '0' && n[4] == '5';
  }

  lemma NameVstvec(v: U64)
    ensures ToCsr("vstvec", v) == Ok(Csr(Stvec, v))
  {
    var n := "vstvec";
    assert n[0] == 'v' && n[1] == 's' && n[2] == 't' && n[3] == 'v' && n[4] == 'e' && n[5] == 'c';
  }

  lemma Address0x240(v: U64)
    ensures ToCsr("0x240", v) == Ok(Csr(Sscratch, v))
  {
    var n := "0x240";
    assert n[0] == '0' && n[1] == 'x' && n[2] == '2' && n[3] == '4' && n[4] == '0';
  }

  lemma NameVsscratch(v: U64)
    ensures ToCsr("vsscratch", v) == Ok(Csr(Sscratch, v))
  {
    var n := "vsscratch";
    assert n[0] == 'v' && n[1] == 's' && n[2] == 's' && n[3] == 'c' && n[4] == 'r' && n[5] == 'a' && n[6] == 't' && n[7] == 'c' && n[8] == 'h';
  }

  lemma Address0x241(v: U64)
    ensures ToCsr("0x241", v) == Ok(Csr(Sepc, v))
  {
    var n := "0x241";
    assert n[0] == '0' && n[1] == 'x' && n[2] == '2' && n[3] == '4' && n[4] == '1';
  }

  lemma NameVsepc(v: U64)
    ensures ToCsr("vsepc", v) == Ok(Csr(Sepc, v))
  {
    var n := "vsepc";
    assert n[0] == 'v' && n[1] == 's' && n[2] == 'e' && n[3] == 'p' && n[4] == 'c';
  }

  lemma Address0x242(v: U64)
    ensures ToCsr("0x242", v) == Ok(Csr(Scause, v))
  {
    var n := "0x242";
    assert n[0] == '0' && n[1] == 'x' && n[2] == '2' && n[3] == '4' && n[4] == '2';
  }

  lemma NameVscause(v: U64)
    ensures ToCsr("vscause", v) == Ok(Csr(Scause, v))
  {
    var n := "vscause";
    assert n[0] == 'v' && n[1] == 's' && n[2] == 'c' && n[3] == 'a' && n[4] == 'u' && n[5] == 's' && n[6] == 'e';
  }

  lemma Address0x280(v: U64)
    ensures ToCsr("0x280", v) == Ok(Csr(Satp, v))
  {
    var n := "0x280";
    assert n[0] == '0' && n[1] == 'x' && n[2] == '2' && n[3] == '8' && n[4] == '0';
  }

  lemma NameVsatp(v: U64)
    ensures ToCsr("vsatp", v) == Ok(Csr(Satp, v))
  {
    var n := "vsatp";
    assert n[0] == 'v' && n[1] == 's' && n[2] == 'a' && n[3] == 't' && n[4] == 'p';
  }

  lemma Address0xf11(v: U64)
    ensures ToCsr("0xf11", v) == Ok(Csr(Mvendorid, v))
  {
    var n := "0xf11";
    assert n[0] == '0' && n[1] == 'x' && n[2] == 'f' && n[3] == '1' && n[4] == '1';
  }

  lemma NameMvendorid(v: U64)
    ensures ToCsr("mvendorid", v) == Ok(Csr(Mvendorid, v))
  {
    var n := "mvendorid";
    assert n[0] == 'm' && n[1] == 'v' && n[2] == 'e' && n[3] == 'n' && n[4] == 'd' && n[5] == 'o' && n[6] == 'r' && n[7] == 'i' && n[8] == 'd';
  }

  lemma Address0xf12(v: U64)
    ensures ToCsr("0xf12", v) == Ok(Csr(Marchid, v))
  {
    var n := "0xf12";
    assert n[0] == '0' && n[1] == 'x' && n[2] == 'f' && n[3] == '1' && n[4] == '2';
  }

  lemma NameMarchid(v: U64)
    ensures ToCsr("marchid", v) == Ok(Csr(Marchid, v))
  {
    var n := "marchid";
    assert n[0] == 'm' && n[1] == 'a' && n[2] == 'r' && n[3] == 'c' && n[4] == 'h' && n[5] == 'i' && n[6] == 'd';
  }

  lemma Address0xf13(v: U64)
    ensures ToCsr("0xf13", v) == Ok(Csr(Mimpid, v))
  {
    var n := "0xf13";
    assert n[0] == '0' && n[1] == 'x' && n[2] == 'f' && n[3] == '1' && n[4] == '3';
  }

  lemma NameMimpid(v: U64)
    ensures ToCsr("mimpid", v) == Ok(Csr(Mimpid, v))
  {
    var n := "mimpid";
    assert n[0] == 'm' && n[1] == 'i' && n[2] == 'm' && n[3] == 'p' && n[4] == 'i' && n[5] == 'd';
  }

  lemma Address0xf14(v: U64)
    ensures ToCsr("0xf14", v) == Ok(Csr(Mhartid, v))
  {
    var n := "0xf14";
    assert n[0] == '0' && n[1] == 'x' && n[2] == 'f' && n[3] == '1' && n[4] == '4';
  }

  lemma NameMhartid(v: U64)
    ensures ToCsr("mhartid", v) == Ok(Csr(Mhartid, v))
  {
    var n := "mhartid";
    assert n[0] == 'm' && n[1] == 'h' && n[2] == 'a' && n[3] == 'r' && n[4] == 't' && n[5] == 'i' && n[6] == 'd';
  }

  lemma Address0x300(v: U64)
    ensures ToCsr("0x300", v) == Ok(Csr(Mstatus, v))
  {
    var n := "0x300";
    assert n[0] == '0' && n[1] == 'x' && n[2] == '3' && n[3] == '0' && n[4] == '0';
  }

  lemma NameMstatus(v: U64)
    ensures ToCsr("mstatus", v) == Ok(Csr(Mstatus, v))
  {
    var n := "mstatus";
    assert n[0] == 'm' && n[1] == 's' && n[2] == 't' && n[3] == 'a' && n[4] == 't' && n[5] == 'u' && n[6] == 's';
  }

  lemma Address0x301(v: U64)
    ensures ToCsr("0x301", v) == Ok(Csr(Misa, v))
  {
    var n := "0x301";
    assert n[0] == '0' && n[1] == 'x' && n[2] == '3' && n[3] == '0' && n[4] == '1';
  }

  lemma NameMisa(v: U64)
    ensures ToCsr("misa", v) == Ok(Csr(Misa, v))
  {
    var n := "misa";
    assert n[0] == 'm' && n[1] == 'i' && n[2] == 's' && n[3] == 'a';
  }

  lemma Address0x302(v: U64)
    ensures ToCsr("0x302", v) == Ok(Csr(Medeleg, v))
  {
    var n := "0x302";
    assert n[0] == '0' && n[1] == 'x' && n[2] == '3' && n[3] == '0' && n[4] == '2';
  }

  lemma NameMedeleg(v: U64)
    ensures ToCsr("medeleg", v) == Ok(Csr(Medeleg, v))
  {
    var n := "medeleg";
    assert n[0] == 'm' && n[1] == 'e' && n[2] == 'd' && n[3] == 'e' && n[4] == 'l' && n[5] == 'e' && n[6] == 'g';
  }

  lemma Address0x303(v: U64)
    ensures ToCsr("0x303", v) == Ok(Csr(Mideleg, v))
  {
    var n := "0x303";
    assert n[0] == '0' && n[1] == 'x' && n[2] == '3' && n[3] == '0' && n[4] == '3';
  }

  lemma NameMideleg(v: U64)
    ensures ToCsr("mideleg", v) == Ok(Csr(Mideleg, v))
  {
    var n := "mideleg";
    assert n[0] == 'm' && n[1] == 'i' && n[2] == 'd' && n[3] == 'e' && n[4] == 'l' && n[5] == 'e' && n[6] == 'g';
  }

  lemma Address0x304(v: U64)
    ensures ToCsr("0x304", v) == Ok(Csr(Mie, v))
  {
    var n := "0x304";
    assert n[0] == '0' && n[1] == 'x' && n[2] == '3' && n[3] == '0' && n[4] == '4';
  }

  lemma NameMie(v: U64)
    ensures ToCsr("mie", v) == Ok(Csr(Mie, v))
  {
    var n := "mie";
    assert n[0] == 'm' && n[1] == 'i' && n[2] == 'e';
  }

  lemma Address0x305(v: U64)
    ensures ToCsr("0x305", v) == Ok(Csr(Mtvec, v))
  {
    var n := "0x305";
    assert n[0] == '0' && n[1] == 'x' && n[2] == '3' && n[3] == '0' && n[4] == '5';
  }

  lemma NameMtvec(v: U64)
    ensures ToCsr("mtvec", v) == Ok(Csr(Mtvec, v))
  {
    var n := "mtvec";
    assert n[0] == 'm' && n[1] == 't' && n[2] == 'v' && n[3] == 'e' && n[4] == 'c';
  }

  lemma Address0x344(v: U64)
    ensures ToCsr("0x344", v) == Ok(Csr(Mip, v))
  {
    var n := "0x344";
    assert n[0] == '0' && n[1] == 'x' && n[2] == '3' && n[3] == '4' && n[4] == '4';
  }

  lemma NameMip(v: U64)
    ensures ToCsr("mip", v) == Ok(Csr(Mip, v))
  {
    var n := "mip";
    assert n[0] == 'm' && n[1] == 'i' && n[2] == 'p';
  }

  lemma Unsupported0x001(v: U64)
    ensures ToCsr("0x001", v) == Err(UnsupportedCsr("0x001"))
  {
    var n := "0x001";
    assert n[0] == '0' && n[1] == 'x' && n[2] == '0' && n[3] == '0' && n[4] == '1';
  }

  lemma UnsupportedFflags(v: U64)
    ensures ToCsr("fflags", v) == Err(UnsupportedCsr("fflags"))
  {
    var n := "fflags";
    assert n[0] == 'f' && n[1] == 'f' && n[2] == 'l' && n[3] == 'a' && n[4] == 'g' && n[5] == 's';
  }

  lemma Unsupported0x002(v: U64)
    ensures ToCsr("0x002", v) == Err(UnsupportedCsr("0x002"))
  {
    var n := "0x002";
    assert n[0] == '0' && n[1] == 'x' && n[2] == '0' && n[3] == '0' && n[4] == '2';
  }

  lemma UnsupportedFrm(v: U64)
    ensures ToCsr("frm", v) == Err(UnsupportedCsr("frm"))
  {
    var n := "frm";
    assert n[0] == 'f' && n[1] == 'r' && n[2] == 'm';
  }

  lemma Unsupported0x003(v: U64)
    ensures ToCsr("0x003", v) == Err(UnsupportedCsr("0x003"))
  {
    var n := "0x003";
    assert n[0] == '0' && n[1] == 'x' && n[2] == '0' && n[3] == '0' && n[4] == '3';
  }

  lemma UnsupportedFcsr(v: U64)
    ensures ToCsr("fcsr", v) == Err(UnsupportedCsr("fcsr"))
  {
    var n := "fcsr";
    assert n[0] == 'f' && n[1] == 'c' && n[2] == 's' && n[3] == 'r';
  }

  lemma Unsupported0xc00(v: U64)
    ensures ToCsr("0xc00", v) == Err(UnsupportedCsr("0xc00"))
  {
    var n := "0xc00";
    assert n[0] == '0' && n[1] == 'x' && n[2] == 'c' && n[3] == '0' && n[4] == '0';
  }

  lemma UnsupportedCycle(v: U64)
    ensures ToCsr("cycle", v) == Err(UnsupportedCsr("cycle"))
  {
    var n := "cycle";
    assert n[0] == 'c' && n[1] == 'y' && n[2] == 'c' && n[3] == 'l' && n[4] == 'e';
  }

  lemma Unsupported0xc01(v: U64)
    ensures ToCsr("0xc01", v) == Err(UnsupportedCsr("0xc01"))
  {
    var n := "0xc01";
    assert n[0] == '0' && n[1] == 'x' && n[2] == 'c' && n[3] == '0' && n[4] == '1';
  }

  lemma UnsupportedTime(v: U64)
    ensures ToCsr("time", v) == Err(UnsupportedCsr("time"))
  {
    var n := "time";
    assert n[0] == 't' && n[1] == 'i' && n[2] == 'm' && n[3] == 'e';
  }

  lemma Unsupported0xc02(v: U64)
    ensures ToCsr("0xc02", v) == Err(UnsupportedCsr("0xc02"))
  {
    var n := "0xc02";
    assert n[0] == '0' && n[1] == 'x' && n[2] == 'c' && n[3] == '0' && n[4] == '2';
  }

  lemma UnsupportedInstret(v: U64)
    ensures ToCsr("instret", v) == Err(UnsupportedCsr("instret"))
  {
    var n := "instret";
    assert n[0] == 'i' && n[1] == 'n' && n[2] == 's' && n[3] == 't' && n[4] == 'r' && n[5] == 'e' && n[6] == 't';
  }

  lemma UnsupportedHmpcounter(v: U64)
    ensures ToCsr("hmpcounter", v) == Err(UnsupportedCsr("hmpcounter"))
  {
    var n := "hmpcounter";
    assert n[0] == 'h' && n[1] == 'm' && n[2] == 'p' && n[3] == 'c' && n[4] == 'o' && n[5] == 'u' && n[6] == 'n' && n[7] == 't' && n[8] == 'e' && n[9] == 'r';
  }

  lemma Unsupported0x5a8(v: U64)
    ensures ToCsr("0x5a8", v) == Err(UnsupportedCsr("0x5a8"))
  {
    var n := "0x5a8";
    assert n[0] == '0' && n[1] == 'x' && n[2] == '5' && n[3] == 'a' && n[4] == '8';
  }

  lemma UnsupportedScontext(v: U64)
    ensures ToCsr("scontext", v) == Err(UnsupportedCsr("scontext"))
  {
    var n := "scontext";
    assert n[0] == 's' && n[1] == 'c' && n[2] == 'o' && n[3] == 'n' && n[4] == 't' && n[5] == 'e' && n[6] == 'x' && n[7] == 't';
  }

  lemma Unsupported0x603(v: U64)
    ensures ToCsr("0x603", v) == Err(UnsupportedCsr("0x603"))
  {
    var n := "0x603";
    assert n[0] == '0' && n[1] == 'x' && n[2] == '6' && n[3] == '0' && n[4] == '3';
  }

  lemma Unsupported0x604(v: U64)
    ensures ToCsr("0x604", v) == Err(UnsupportedCsr("0x604"))
  {
    var n := "0x604";
    assert n[0] == '0' && n[1] == 'x' && n[2] == '6' && n[3] == '0' && n[4] == '4';
  }

  lemma UnsupportedHie(v: U64)
    ensures ToCsr("hie", v) == Err(UnsupportedCsr("hie"))
  {
    var n := "hie";
    assert n[0] == 'h' && n[1] == 'i' && n[2] == 'e';
  }

  lemma Unsupported0x607(v: U64)
    ensures ToCsr("0x607", v) == Err(UnsupportedCsr("0x607"))
  {
    var n := "0x607";
    assert n[0] == '0' && n[1] == 'x' && n[2] == '6' && n[3] == '0' && n[4] == '7';
  }

  lemma UnsupportedHgeie(v: U64)
    ensures ToCsr("hgeie", v) == Err(UnsupportedCsr("hgeie"))
  {
    var n := "hgeie";
    assert n[0] == 'h' && n[1] == 'g' && n[2] == 'e' && n[3] == 'i' && n[4] == 'e';
  }

  lemma Unsupported0x644(v: U64)
    ensures ToCsr("0x644", v) == Err(UnsupportedCsr("0x644"))
  {
    var n := "0x644";
    assert n[0] == '0' && n[1] == 'x' && n[2] == '6' && n[3] == '4' && n[4] == '4';
  }

  lemma UnsupportedHip(v: U64)
    ensures ToCsr("hip", v) == Err(UnsupportedCsr("hip"))
  {
    var n := "hip";
    assert n[0] == 'h' && n[1] == 'i' && n[2] == 'p';
  }

  lemma Unsupported0x645(v: U64)
    ensures ToCsr("0x645", v) == Err(UnsupportedCsr("0x645"))
  {
    var n := "0x645";
    assert n[0] == '0' && n[1] == 'x' && n[2] == '6' && n[3] == '4' && n[4] == '5';
  }

  lemma UnsupportedHvip(v: U64)
    ensures ToCsr("hvip", v) == Err(UnsupportedCsr("hvip"))
  {
    var n := "hvip";
    assert n[0] == 'h' && n[1] == 'v' && n[2] == 'i' && n[3] == 'p';
  }

  lemma Unsupported0x64a(v: U64)
    ensures ToCsr("0x64a", v) == Err(UnsupportedCsr("0x64a"))
  {
    var n := "0x64a";
    assert n[0] == '0' && n[1] == 'x' && n[2] == '6' && n[3] == '4' && n[4] == 'a';
  }

  lemma Unsupported0xe12(v: U64)
    ensures ToCsr("0xe12", v) == Err(UnsupportedCsr("0xe12"))
  {
    var n := "0xe12";
    assert n[0] == '0' && n[1] == 'x' && n[2] == 'e' && n[3] == '1' && n[4] == '2';
  }

  lemma UnsupportedHgeip(v: U64)
    ensures ToCsr("hgeip", v) == Err(UnsupportedCsr("hgeip"))
  {
    var n := "hgeip";
    assert n[0] == 'h' && n[1] == 'g' && n[2] == 'e' && n[3] == 'i' && n[4] == 'p';
  }

  lemma Unsupported0x6a8(v: U64)
    ensures ToCsr("0x6a8", v) == Err(UnsupportedCsr("0x6a8"))
  {
    var n := "0x6a8";
    assert n[0] == '0' && n[1] == 'x' && n[2] == '6' && n[3] == 'a' && n[4] == '8';
  }

  lemma UnsupportedHcontext(v: U64)
    ensures ToCsr("hcontext", v) == Err(UnsupportedCsr("hcontext"))
  {
    var n := "hcontext";
    assert n[0] == 'h' && n[1] == 'c' && n[2] == 'o' && n[3] == 'n' && n[4] == 't' && n[5] == 'e' && n[6] == 'x' && n[7] == 't';
  }

  lemma Unsupported0x605(v: U64)
    ensures ToCsr("0x605", v) == Err(UnsupportedCsr("0x605"))
  {
    var n := "0x605";
    assert n[0] == '0' && n[1] == 'x' && n[2] == '6' && n[3] == '0' && n[4] == '5';
  }

  lemma UnsupportedHtimedelta(v: U64)
    ensures ToCsr("htimedelta", v) == Err(UnsupportedCsr("htimedelta"))
  {
    var n := "htimedelta";
    assert n[0] == 'h' && n[1] == 't' && n[2] == 'i' && n[3] == 'm' && n[4] == 'e' && n[5] == 'd' && n[6] == 'e' && n[7] == 'l' && n[8] == 't' && n[9] == 'a';
  }

  lemma Unsupported0x204(v: U64)
    ensures ToCsr("0x204", v) == Err(UnsupportedCsr("0x204"))
  {
    var n := "0x204";
    assert n[0] == '0' && n[1] == 'x' && n[2] == '2' && n[3] == '0' && n[4] == '4';
  }

  lemma UnsupportedVsie(v: U64)
    ensures ToCsr("vsie", v) == Err(UnsupportedCsr("vsie"))
  {
    var n := "vsie";
    assert n[0] == 'v' && n[1] == 's' && n[2] == 'i' && n[3] == 'e';
  }

  lemma Unsupported0x243(v: U64)
    ensures ToCsr("0x243", v) == Err(UnsupportedCsr("0x243"))
  {
    var n := "0x243";
    assert n[0] == '0' && n[1] == 'x' && n[2] == '2' && n[3] == '4' && n[4] == '3';
  }

  lemma UnsupportedVstval(v: U64)
    ensures ToCsr("vstval", v) == Err(UnsupportedCsr("vstval"))
  {
    var n := "vstval";
    assert n[0] == 'v' && n[1] == 's' && n[2] == 't' && n[3] == 'v' && n[4] == 'a' && n[5] == 'l';
  }

  lemma Unsupported0x244(v: U64)
    ensures ToCsr("0x244", v) == Err(UnsupportedCsr("0x244"))
  {
    var n := "0x244";
    assert n[0] == '0' && n[1] == 'x' && n[2] == '2' && n[3] == '4' && n[4] == '4';
  }

  lemma UnsupportedVsip(v: U64)
    ensures ToCsr("vsip", v) == Err(UnsupportedCsr("vsip"))
  {
    var n := "vsip";
    assert n[0] == 'v' && n[1] == 's' && n[2] == 'i' && n[3] == 'p';
  }

  lemma Unsupported0xf15(v: U64)
    ensures ToCsr("0xf15", v) == Err(UnsupportedCsr("0xf15"))
  {
    var n := "0xf15";
    assert n[0] == '0' && n[1] == 'x' && n[2] == 'f' && n[3] == '1' && n[4] == '5';
  }

  lemma UnsupportedMconfigptr(v: U64)
    ensures ToCsr("mconfigptr", v) == Err(UnsupportedCsr("mconfigptr"))
  {
    var n := "mconfigptr";
    assert n[0] == 'm' && n[1] == 'c' && n[2] == 'o' && n[3] == 'n' && n[4] == 'f' && n[5] == 'i' && n[6] == 'g' && n[7] == 'p' && n[8] == 't' && n[9] == 'r';
  }

  lemma Unsupported0x306(v: U64)
    ensures ToCsr("0x306", v) == Err(UnsupportedCsr("0x306"))
  {
    var n := "0x306";
    assert n[0] == '0' && n[1] == 'x' && n[2] == '3' && n[3] == '0' && n[4] == '6';
  }

  lemma UnsupportedMcounteren(v: U64)
    ensures ToCsr("mcounteren", v) == Err(UnsupportedCsr("mcounteren"))
  {
    var n := "mcounteren";
    assert n[0] == 'm' && n[1] == 'c' && n[2] == 'o' && n[3] == 'u' && n[4] == 'n' && n[5] == 't' && n[6] == 'e' && n[7] == 'r' && n[8] == 'e' && n[9] == 'n';
  }

  lemma Unsupported0x340(v: U64)
    ensures ToCsr("0x340", v) == Err(UnsupportedCsr("0x340"))
  {
    var n := "0x340";
    assert n[0] == '0' && n[1] == 'x' && n[2] == '3' && n[3] == '4' && n[4] == '0';
  }

  lemma UnsupportedMscratch(v: U64)
    ensures ToCsr("mscratch", v) == Err(UnsupportedCsr("mscratch"))
  {
    var n := "mscratch";
    assert n[0] == 'm' && n[1] == 's' && n[2] == 'c' && n[3] == 'r' && n[4] == 'a' && n[5] == 't' && n[6] == 'c' && n[7] == 'h';
  }

  lemma Unsupported0x341(v: U64)
    ensures ToCsr("0x341", v) == Err(UnsupportedCsr("0x341"))
  {
    var n := "0x341";
    assert n[0] == '0' && n[1] == 'x' && n[2] == '3' && n[3] == '4' && n[4] == '1';
  }

  lemma UnsupportedMepc(v: U64)
    ensures ToCsr("mepc", v) == Err(UnsupportedCsr("mepc"))
  {
    var n := "mepc";
    assert n[0] == 'm' && n[1] == 'e' && n[2] == 'p' && n[3] == 'c';
  }

  lemma Unsupported0x342(v: U64)
    ensures ToCsr("0x342", v) == Err(UnsupportedCsr("0x342"))
  {
    var n := "0x342";
    assert n[0] == '0' && n[1] == 'x' && n[2] == '3' && n[3] == '4' && n[4] == '2';
  }

  lemma Unsupported0x343(v: U64)
    ensures ToCsr("0x343", v) == Err(UnsupportedCsr("0x343"))
  {
    var n := "0x343";
    assert n[0] == '0' && n[1] == 'x' && n[2] == '3' && n[3] == '4' && n[4] == '3';
  }

  lemma UnsupportedMtval(v: U64)
    ensures ToCsr("mtval", v) == Err(UnsupportedCsr("mtval"))
  {
    var n := "mtval";
    assert n[0] == 'm' && n[1] == 't' && n[2] == 'v' && n[3] == 'a' && n[4] == 'l';
  }

  lemma UnsupportedMtinst(v: U64)
    ensures ToCsr("mtinst", v) == Err(UnsupportedCsr("mtinst"))
  {
    var n := "mtinst";
    assert n[0] == 'm' && n[1] == 't' && n[2] == 'i' && n[3] == 'n' && n[4] == 's' && n[5] == 't';
  }

  lemma Unsupported0x34B(v: U64)
    ensures ToCsr("0x34B", v) == Err(UnsupportedCsr("0x34B"))
  {
    var n := "0x34B";
    assert n[0] == '0' && n[1] == 'x' && n[2] == '3' && n[3] == '4' && n[4] == 'B';
  }

  lemma UnsupportedMtval2(v: U64)
    ensures ToCsr("mtval2", v) == Err(UnsupportedCsr("mtval2"))
  {
    var n := "mtval2";
    assert n[0] == 'm' && n[1] == 't' && n[2] == 'v' && n[3] == 'a' && n[4] == 'l' && n[5] == '2';
  }

  lemma Unsupported0x30A(v: U64)
    ensures ToCsr("0x30A", v) == Err(UnsupportedCsr("0x30A"))
  {
    var n := "0x30A";
    assert n[0] == '0' && n[1] == 'x' && n[2] == '3' && n[3] == '0' && n[4] == 'A';
  }

  lemma UnsupportedMenvcfg(v: U64)
    ensures ToCsr("menvcfg", v) == Err(UnsupportedCsr("menvcfg"))
  {
    var n := "menvcfg";
    assert n[0] == 'm' && n[1] == 'e' && n[2] == 'n' && n[3] == 'v' && n[4] == 'c' && n[5] == 'f' && n[6] == 'g';
  }

  lemma Unsupported0x747(v: U64)
    ensures ToCsr("0x747", v) == Err(UnsupportedCsr("0x747"))
  {
    var n := "0x747";
    assert n[0] == '0' && n[1] == 'x' && n[2] == '7' && n[3] == '4' && n[4] == '7';
  }

  lemma UnsupportedMseccfg(v: U64)
    ensures ToCsr("mseccfg", v) == Err(UnsupportedCsr("mseccfg"))
  {
    var n := "mseccfg";
    assert n[0] == 'm' && n[1] == 's' && n[2] == 'e' && n[3] == 'c' && n[4] == 'c' && n[5] == 'f' && n[6] == 'g';
  }

  lemma Unsupported0x740(v: U64)
    ensures ToCsr("0x740", v) == Err(UnsupportedCsr("0x740"))
  {
    var n := "0x740";
    assert n[0] == '0' && n[1] == 'x' && n[2] == '7' && n[3] == '4' && n[4] == '0';
  }

  lemma UnsupportedMnscratch(v: U64)
    ensures ToCsr("mnscratch", v) == Err(UnsupportedCsr("mnscratch"))
  {
    var n := "mnscratch";
    assert n[0] == 'm' && n[1] == 'n' && n[2] == 's' && n[3] == 'c' && n[4] == 'r' && n[5] == 'a' && n[6] == 't' && n[7] == 'c' && n[8] == 'h';
  }

  lemma Unsupported0x741(v: U64)
    ensures ToCsr("0x741", v) == Err(UnsupportedCsr("0x741"))
  {
    var n := "0x741";
    assert n[0] == '0' && n[1] == 'x' && n[2] == '7' && n[3] == '4' && n[4] == '1';
  }

  lemma UnsupportedMnepc(v: U64)
    ensures ToCsr("mnepc", v) == Err(UnsupportedCsr("mnepc"))
  {
    var n := "mnepc";
    assert n[0] == 'm' && n[1] == 'n' && n[2] == 'e' && n[3] == 'p' && n[4] == 'c';
  }

  lemma Unsupported0x742(v: U64)
    ensures ToCsr("0x742", v) == Err(UnsupportedCsr("0x742"))
  {
    var n := "0x742";
    assert n[0] == '0' && n[1] == 'x' && n[2] == '7' && n[3] == '4' && n[4] == '2';
  }

  lemma UnsupportedMncause(v: U64)
    ensures ToCsr("mncause", v) == Err(UnsupportedCsr("mncause"))
  {
    var n := "mncause";
    assert n[0] == 'm' && n[1] == 'n' && n[2] == 'c' && n[3] == 'a' && n[4] == 'u' && n[5] == 's' && n[6] == 'e';
  }

  lemma Unsupported0x744(v: U64)
    ensures ToCsr("0x744", v) == Err(UnsupportedCsr("0x744"))
  {
    var n := "0x744";
    assert n[0] == '0' && n[1] == 'x' && n[2] == '7' && n[3] == '4' && n[4] == '4';
  }

  lemma UnsupportedMnstatus(v: U64)
    ensures ToCsr("mnstatus", v) == Err(UnsupportedCsr("mnstatus"))
  {
    var n := "mnstatus";
    assert n[0] == 'm' && n[1] == 'n' && n[2] == 's' && n[3] == 't' && n[4] == 'a' && n[5] == 't' && n[6] == 'u' && n[7] == 's';
  }
}
