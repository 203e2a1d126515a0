// The 78 VMWRITEs of `InitializeVMCS` (hv/src/vmx.c), as data: which field gets which
// captured value, in what order, and what they leave in the VMCS.
module StateArea {
  import opened Fields
  import opened VmcsStore
  import Controls
  import Selectors

  // What the driver reads from the processor it runs on while it fills a VMCS.
  datatype Capture = Capture(
    cr0: Cell, cr3: Cell, dr7: Cell, rflags: Cell,
    restoreAfterLaunch: Cell, vmExitStub: Cell,
    fsBase: Cell, gsBase: Cell, debugCtl: Cell,
    sysenterCs: Cell, sysenterEsp: Cell, sysenterEip: Cell,
    gdtrBase: Cell, gdtrLimit: Cell, idtrBase: Cell, idtrLimit: Cell,
    cs: bv16, ss: bv16, ds: bv16, es: bv16, fs: bv16, gs: bv16, ldtr: bv16, tr: bv16,
    segmentLimit: bv16 -> bv32,
    memory: Selectors.Memory,
    msrs: Controls.CapabilityMsrs)
  {
    function Entry(selector: bv16): Selectors.Entry {
      Selectors.Translate(Selectors.ZERO_ENTRY, gdtrBase.bits, memory, segmentLimit(selector), selector)
    }

    function Selected(): VmxSelectors {
      VmxSelectors(Operands(Entry(cs)), Operands(Entry(ss)), Operands(Entry(ds)), Operands(Entry(es)),
                   Operands(Entry(fs)), Operands(Entry(gs)), Operands(Entry(ldtr)), Operands(Entry(tr)))
    }
  }

  // The members of a translated segment as VMWRITE operands, zero-extended to 64 bits;
  // `host` is the selector without its lowest three bits.
  datatype Segment = Segment(selector: Cell, limit: Cell, base: Cell, rights: Cell, host: Cell)

  function Operands(e: Selectors.Entry): Segment {
    Segment(Operand16(e.selector), Operand32(e.limit), Cell(e.base), Operand32(e.accessRights),
            Operand16(Selectors.HostSelector(e.selector)))
  }

  function Operand16(v: bv16): Cell { Cell(v as bv64) }
  function Operand32(v: bv32): Cell { Cell(v as bv64) }

  // The translated segments of VMX_SELECTORS.
  datatype VmxSelectors = VmxSelectors(
    cs: Segment, ss: Segment, ds: Segment, es: Segment, fs: Segment, gs: Segment, ldtr: Segment, tr: Segment)

  // InitGuestStateArea: control and debug registers, RIP, RSP, RFLAGS
  function GuestRegisters(c: Capture, cr4: Cell): seq<Write> {
    [
      Write(GUEST_CR0, c.cr0),
      Write(GUEST_CR3, c.cr3),
      Write(GUEST_CR4, cr4),
      Write(GUEST_DR7, c.dr7),
      Write(GUEST_RIP, c.restoreAfterLaunch),
      Write(GUEST_RSP, ZERO),
      Write(GUEST_RFLAGS, c.rflags)
    ]
  }

  // selectors
  function GuestSelectors(s: VmxSelectors): seq<Write> {
    [
      Write(GUEST_CS_SELECTOR, s.cs.selector),
      Write(GUEST_SS_SELECTOR, s.ss.selector),
      Write(GUEST_DS_SELECTOR, s.ds.selector),
      Write(GUEST_ES_SELECTOR, s.es.selector),
      Write(GUEST_FS_SELECTOR, s.fs.selector),
      Write(GUEST_GS_SELECTOR, s.gs.selector),
      Write(GUEST_LDTR_SELECTOR, s.ldtr.selector),
      Write(GUEST_TR_SELECTOR, s.tr.selector)
    ]
  }

  // limits
  function GuestLimits(s: VmxSelectors): seq<Write> {
    [
      Write(GUEST_CS_LIMIT, s.cs.limit),
      Write(GUEST_SS_LIMIT, s.ss.limit),
      Write(GUEST_DS_LIMIT, s.ds.limit),
      Write(GUEST_ES_LIMIT, s.es.limit),
      Write(GUEST_FS_LIMIT, s.fs.limit),
      Write(GUEST_GS_LIMIT, s.gs.limit),
      Write(GUEST_LDTR_LIMIT, s.ldtr.limit),
      Write(GUEST_TR_LIMIT, s.tr.limit)
    ]
  }

  // bases; those of FS and GS come from their MSRs
  function GuestBases(c: Capture, s: VmxSelectors): seq<Write> {
    [
      Write(GUEST_CS_BASE, s.cs.base),
      Write(GUEST_SS_BASE, s.ss.base),
      Write(GUEST_DS_BASE, s.ds.base),
      Write(GUEST_ES_BASE, s.es.base),
      Write(GUEST_FS_BASE, c.fsBase),
      Write(GUEST_GS_BASE, c.gsBase),
      Write(GUEST_LDTR_BASE, s.ldtr.base),
      Write(GUEST_TR_BASE, s.tr.base)
    ]
  }

  // access rights
  function GuestRights(s: VmxSelectors): seq<Write> {
    [
      Write(GUEST_CS_ACCESS_RIGHTS, s.cs.rights),
      Write(GUEST_SS_ACCESS_RIGHTS, s.ss.rights),
      Write(GUEST_DS_ACCESS_RIGHTS, s.ds.rights),
      Write(GUEST_ES_ACCESS_RIGHTS, s.es.rights),
      Write(GUEST_FS_ACCESS_RIGHTS, s.fs.rights),
      Write(GUEST_GS_ACCESS_RIGHTS, s.gs.rights),
      Write(GUEST_LDTR_ACCESS_RIGHTS, s.ldtr.rights),
      Write(GUEST_TR_ACCESS_RIGHTS, s.tr.rights)
    ]
  }

  // descriptor-table registers
  function GuestTables(c: Capture): seq<Write> {
    [
      Write(GUEST_GDTR_BASE, c.gdtrBase),
      Write(GUEST_IDTR_BASE, c.idtrBase),
      Write(GUEST_GDTR_LIMIT, c.gdtrLimit),
      Write(GUEST_IDTR_LIMIT, c.idtrLimit)
    ]
  }

  // MSRs
  function GuestMsrs(c: Capture): seq<Write> {
    [
      Write(GUEST_IA32_DEBUGCTL, LowHalf(c.debugCtl)),
      Write(GUEST_IA32_DEBUGCTL_HIGH, HighHalf(c.debugCtl)),
      Write(GUEST_IA32_SYSENTER_CS, c.sysenterCs),
      Write(GUEST_IA32_SYSENTER_ESP, c.sysenterEsp),
      Write(GUEST_IA32_SYSENTER_EIP, c.sysenterEip)
    ]
  }

  // non-register state
  function GuestNonRegister(): seq<Write> {
    [
      Write(GUEST_INTERRUPTIBILITY_STATE, ZERO),
      Write(GUEST_ACTIVITY_STATE, ACTIVITY_STATE_ACTIVE),
      Write(VMCS_LINK_POINTER, NO_LINK)
    ]
  }

  function GuestWrites(c: Capture, cr4: Cell, s: VmxSelectors): seq<Write> {
    GuestRegisters(c, cr4) + GuestSelectors(s) + GuestLimits(s) + GuestBases(c, s) + GuestRights(s)
    + GuestTables(c) + GuestMsrs(c) + GuestNonRegister()
  }

  // InitHostStateArea: control registers, RIP, RSP
  function HostRegisters(c: Capture, cr4: Cell, rsp: Cell): seq<Write> {
    [
      Write(HOST_CR0, c.cr0),
      Write(HOST_CR3, c.cr3),
      Write(HOST_CR4, cr4),
      Write(HOST_RIP, c.vmExitStub),
      Write(HOST_RSP, rsp)
    ]
  }

  // selectors
  function HostSelectors(s: VmxSelectors): seq<Write> {
    [
      Write(HOST_CS_SELECTOR, s.cs.host),
      Write(HOST_SS_SELECTOR, s.ss.host),
      Write(HOST_DS_SELECTOR, s.ds.host),
      Write(HOST_ES_SELECTOR, s.es.host),
      Write(HOST_FS_SELECTOR, s.fs.host),
      Write(HOST_GS_SELECTOR, s.gs.host),
      Write(HOST_TR_SELECTOR, s.tr.host)
    ]
  }

  // MSRs
  function HostMsrs(c: Capture): seq<Write> {
    [
      Write(HOST_IA32_SYSENTER_CS, c.sysenterCs),
      Write(HOST_IA32_SYSENTER_ESP, c.sysenterEsp),
      Write(HOST_IA32_SYSENTER_EIP, c.sysenterEip)
    ]
  }

  // bases
  function HostBases(c: Capture, s: VmxSelectors): seq<Write> {
    [
      Write(HOST_FS_BASE, c.fsBase),
      Write(HOST_GS_BASE, c.gsBase),
      Write(HOST_TR_BASE, s.tr.base),
      Write(HOST_GDTR_BASE, c.gdtrBase),
      Write(HOST_IDTR_BASE, c.idtrBase)
    ]
  }

  function HostWrites(c: Capture, cr4: Cell, rsp: Cell, s: VmxSelectors): seq<Write> {
    HostRegisters(c, cr4, rsp) + HostSelectors(s) + HostMsrs(c) + HostBases(c, s)
  }

  function PinControl(c: Capture): bv32 { Controls.AdjustBy(0, c.msrs.For(Controls.PinBased)) }
  function PrimaryControl(c: Capture): bv32 {
    Controls.AdjustBy(Controls.PRIMARY_REQUEST, c.msrs.For(Controls.ProcBased))
  }
  // The adjustment meant for this word goes to the primary one.
  function SecondaryControl(): bv32 { Controls.ENABLE_RDTSCP }
  function ExitControl(c: Capture): bv32 {
    Controls.AdjustBy(Controls.HOST_ADDRESS_SPACE_SIZE, c.msrs.For(Controls.VmExit))
  }
  function EntryControl(c: Capture): bv32 {
    Controls.AdjustBy(Controls.IA32_MODE_GUEST, c.msrs.For(Controls.VmEntry))
  }

  // InitVmExecControl: pin-based controls, processor-based controls, control-register shadows
  function PinWrites(c: Capture): seq<Write> {
    [
      Write(PIN_BASED_VM_EXECUTION_CTLS, Operand32(PinControl(c)))
    ]
  }

  function ProcessorWrites(c: Capture): seq<Write> {
    [
      Write(PRIMARY_PROC_BASED_VM_EXECUTION_CTLS, Operand32(PrimaryControl(c))),
      Write(SECONDARY_PROC_BASED_VM_EXECUTION_CTLS, Operand32(SecondaryControl()))
    ]
  }

  function ShadowWrites(c: Capture, cr4: Cell): seq<Write> {
    [
      Write(CR0_READ_SHADOW, c.cr0),
      Write(CR4_READ_SHADOW, cr4)
    ]
  }

  function ExecWrites(c: Capture, cr4: Cell): seq<Write> {
    PinWrites(c) + ProcessorWrites(c) + ShadowWrites(c, cr4)
  }

  // InitVmExitControl
  function ExitWrites(c: Capture): seq<Write> {
    [
      Write(VM_EXIT_CTLS, Operand32(ExitControl(c)))
    ]
  }

  // InitVmEntryControl
  function EntryWrites(c: Capture): seq<Write> {
    [
      Write(VM_ENTRY_CTLS, Operand32(EntryControl(c)))
    ]
  }

  // What the first k of the five writers of InitializeVMCS write.
  function WritesOfFirst(c: Capture, cr4: Cell, rsp: Cell, k: nat): seq<Write>
    requires k <= 5
  {
    if k == 0 then []
    else WritesOfFirst(c, cr4, rsp, k - 1) + WriterWrites(c, cr4, rsp, k)
  }

  function WriterWrites(c: Capture, cr4: Cell, rsp: Cell, k: nat): seq<Write>
    requires 1 <= k <= 5
  {
    match k
    case 1 => GuestWrites(c, cr4, c.Selected())
    case 2 => HostWrites(c, cr4, rsp, c.Selected())
    case 3 => ExecWrites(c, cr4)
    case 4 => ExitWrites(c)
    case _ => EntryWrites(c)
  }

  function AllWrites(c: Capture, cr4: Cell, rsp: Cell): seq<Write> {
    WritesOfFirst(c, cr4, rsp, 5)
  }

  lemma AllWritesInOrder(c: Capture, cr4: Cell, rsp: Cell)
    ensures AllWrites(c, cr4, rsp)
            == GuestWrites(c, cr4, c.Selected()) + HostWrites(c, cr4, rsp, c.Selected())
               + ExecWrites(c, cr4) + ExitWrites(c) + EntryWrites(c)
  {
    assert WritesOfFirst(c, cr4, rsp, 0) == [];
    assert WritesOfFirst(c, cr4, rsp, 1) == WriterWrites(c, cr4, rsp, 1);
    assert WritesOfFirst(c, cr4, rsp, 2) == WriterWrites(c, cr4, rsp, 1) + WriterWrites(c, cr4, rsp, 2);
    assert WritesOfFirst(c, cr4, rsp, 3) == WritesOfFirst(c, cr4, rsp, 2) + WriterWrites(c, cr4, rsp, 3);
    assert WritesOfFirst(c, cr4, rsp, 4) == WritesOfFirst(c, cr4, rsp, 3) + WriterWrites(c, cr4, rsp, 4);
  }

  const ZERO := Cell(0)
  const NO_LINK := Cell(0xFFFF_FFFF_FFFF_FFFF)
  const ACTIVITY_STATE_ACTIVE := ZERO
  // The positions of the full and the high write to GUEST_IA32_DEBUGCTL.
  const DEBUGCTL_LOW := 43
  const DEBUGCTL_UPPER := 44

  // The tables list the segments as ES, CS, SS, DS, FS, ...; the code as CS, SS, DS, ES, FS, ...
  ghost function SegmentPlace(i: nat): nat {
    if i == 0 then 3 else if i <= 3 then i - 1 else i
  }

  // Where each field is first written.
  ghost function Place(f: Component): nat {
    var i := f.index;
    match (f.typ, f.width)
    case (GuestState, Word) => 7 + SegmentPlace(i)
    case (GuestState, DWord) =>
      if i < 8 then 15 + SegmentPlace(i)
      else if i < 10 then 33 + i
      else if i < 18 then 31 + SegmentPlace(i - 10)
      else if i < 20 then 30 + i
      else 45
    case (GuestState, Natural) =>
      if i < 3 then i
      else if i < 11 then 23 + SegmentPlace(i - 3)
      else if i < 13 then 28 + i
      else if i == 13 then 3
      else if i == 14 then 5
      else if i == 15 then 4
      else if i == 16 then 6
      else 28 + i
    case (GuestState, QWord) => if i == 0 then 50 else DEBUGCTL_LOW
    case (HostState, Word) => 56 + SegmentPlace(i)
    case (HostState, DWord) => 63
    case (HostState, Natural) =>
      if i < 3 then 51 + i
      else if i < 8 then 63 + i
      else if i < 10 then 56 + i
      else if i == 10 then 55
      else 54
    case (Control, DWord) =>
      if i < 2 then 71 + i else if i == 15 then 73 else if i == 6 then 76 else 77
    case (Control, Natural) => 72 + i
    case _ => 78
  }

  ghost predicate Placed(ws: seq<Write>, start: nat) {
    forall k :: 0 <= k < |ws| ==>
      Place(ws[k].field) == if start + k == DEBUGCTL_UPPER then DEBUGCTL_LOW else start + k
  }

  lemma PlacedConcat(a: seq<Write>, b: seq<Write>, start: nat)
    requires Placed(a, start) && Placed(b, start + |a|)
    ensures Placed(a + b, start)
  {
    forall k | 0 <= k < |a + b|
      ensures Place((a + b)[k].field) == if start + k == DEBUGCTL_UPPER then DEBUGCTL_LOW else start + k
    {
      if k >= |a| { assert (a + b)[k] == b[k - |a|]; }
    }
  }

  lemma PlacedGuestRegisters(c: Capture, cr4: Cell)
    ensures Placed(GuestRegisters(c, cr4), 0) && |GuestRegisters(c, cr4)| == 7
  {
  }

  lemma PlacedGuestSelectors(s: VmxSelectors)
    ensures Placed(GuestSelectors(s), 7) && |GuestSelectors(s)| == 8
  {
  }

  lemma PlacedGuestLimits(s: VmxSelectors)
    ensures Placed(GuestLimits(s), 15) && |GuestLimits(s)| == 8
  {
  }

  lemma PlacedGuestBases(c: Capture, s: VmxSelectors)
    ensures Placed(GuestBases(c, s), 23) && |GuestBases(c, s)| == 8
  {
  }

  lemma PlacedGuestRights(s: VmxSelectors)
    ensures Placed(GuestRights(s), 31) && |GuestRights(s)| == 8
  {
  }

  lemma PlacedGuestTables(c: Capture)
    ensures Placed(GuestTables(c), 39) && |GuestTables(c)| == 4
  {
  }

  lemma PlacedGuestMsrs(c: Capture)
    ensures Placed(GuestMsrs(c), 43) && |GuestMsrs(c)| == 5
  {
  }

  lemma PlacedGuestNonRegister()
    ensures Placed(GuestNonRegister(), 48) && |GuestNonRegister()| == 3
  {
  }

  lemma PlacedHostRegisters(c: Capture, cr4: Cell, rsp: Cell)
    ensures Placed(HostRegisters(c, cr4, rsp), 51) && |HostRegisters(c, cr4, rsp)| == 5
  {
  }

  lemma PlacedHostSelectors(s: VmxSelectors)
    ensures Placed(HostSelectors(s), 56) && |HostSelectors(s)| == 7
  {
  }

  lemma PlacedHostMsrs(c: Capture)
    ensures Placed(HostMsrs(c), 63) && |HostMsrs(c)| == 3
  {
  }

  lemma PlacedHostBases(c: Capture, s: VmxSelectors)
    ensures Placed(HostBases(c, s), 66) && |HostBases(c, s)| == 5
  {
  }

  lemma PlacedExecWrites(c: Capture, cr4: Cell)
    ensures Placed(ExecWrites(c, cr4), 71) && |ExecWrites(c, cr4)| == 5
  {
  }

  lemma PlacedExitWrites(c: Capture)
    ensures Placed(ExitWrites(c), 76) && |ExitWrites(c)| == 1
  {
  }

  lemma PlacedEntryWrites(c: Capture)
    ensures Placed(EntryWrites(c), 77) && |EntryWrites(c)| == 1
  {
  }

  lemma PlacedGuest(c: Capture, cr4: Cell, s: VmxSelectors)
    ensures Placed(GuestWrites(c, cr4, s), 0) && |GuestWrites(c, cr4, s)| == 51
  {
    PlacedGuestRegisters(c, cr4);
    PlacedGuestSelectors(s);
    PlacedGuestLimits(s);
    PlacedGuestBases(c, s);
    PlacedGuestRights(s);
    PlacedGuestTables(c);
    PlacedGuestMsrs(c);
    PlacedGuestNonRegister();
    PlacedConcat(GuestRegisters(c, cr4), GuestSelectors(s), 0);
    var ws := GuestRegisters(c, cr4) + GuestSelectors(s);
    PlacedConcat(ws, GuestLimits(s), 0);
    ws := ws + GuestLimits(s);
    PlacedConcat(ws, GuestBases(c, s), 0);
    ws := ws + GuestBases(c, s);
    PlacedConcat(ws, GuestRights(s), 0);
    ws := ws + GuestRights(s);
    PlacedConcat(ws, GuestTables(c), 0);
    ws := ws + GuestTables(c);
    PlacedConcat(ws, GuestMsrs(c), 0);
    ws := ws + GuestMsrs(c);
    PlacedConcat(ws, GuestNonRegister(), 0);
  }

  lemma PlacedHost(c: Capture, cr4: Cell, rsp: Cell, s: VmxSelectors)
    ensures Placed(HostWrites(c, cr4, rsp, s), 51) && |HostWrites(c, cr4, rsp, s)| == 20
  {
    PlacedHostRegisters(c, cr4, rsp);
    PlacedHostSelectors(s);
    PlacedHostMsrs(c);
    PlacedHostBases(c, s);
    PlacedConcat(HostRegisters(c, cr4, rsp), HostSelectors(s), 51);
    var ws := HostRegisters(c, cr4, rsp) + HostSelectors(s);
    PlacedConcat(ws, HostMsrs(c), 51);
    ws := ws + HostMsrs(c);
    PlacedConcat(ws, HostBases(c, s), 51);
  }

  lemma PlacedAll(c: Capture, cr4: Cell, rsp: Cell)
    ensures Placed(AllWrites(c, cr4, rsp), 0) && |AllWrites(c, cr4, rsp)| == 78
  {
    AllWritesInOrder(c, cr4, rsp);
    var s := c.Selected();
    PlacedGuest(c, cr4, s);
    PlacedHost(c, cr4, rsp, s);
    PlacedExecWrites(c, cr4);
    PlacedExitWrites(c);
    PlacedEntryWrites(c);
    var ws := GuestWrites(c, cr4, s) + HostWrites(c, cr4, rsp, s);
    PlacedConcat(GuestWrites(c, cr4, s), HostWrites(c, cr4, rsp, s), 0);
    PlacedConcat(ws, ExecWrites(c, cr4), 0);
    ws := ws + ExecWrites(c, cr4);
    PlacedConcat(ws, ExitWrites(c), 0);
    ws := ws + ExitWrites(c);
    PlacedConcat(ws, EntryWrites(c), 0);
  }

  lemma SamePlace(f: Component, g: Component)
    requires FieldOf(f) == FieldOf(g)
    ensures Place(f) == Place(g)
  {
  }

  /** The 78 writes go to 77 fields: only the two DEBUGCTL writes share one. */
  lemma OnlyDebugCtlTwice(c: Capture, cr4: Cell, rsp: Cell, i: nat, j: nat)
    requires i < j < |AllWrites(c, cr4, rsp)|
    ensures var ws := AllWrites(c, cr4, rsp);
      FieldOf(ws[i].field) == FieldOf(ws[j].field) <==> i == DEBUGCTL_LOW && j == DEBUGCTL_UPPER
  {
    PlacedAll(c, cr4, rsp);
    var ws := AllWrites(c, cr4, rsp);
    DebugCtlWrites(c, cr4, rsp);
    if FieldOf(ws[i].field) == FieldOf(ws[j].field) {
      SamePlace(ws[i].field, ws[j].field);
    }
  }

  lemma DebugCtlWrites(c: Capture, cr4: Cell, rsp: Cell)
    ensures |AllWrites(c, cr4, rsp)| == 78
    ensures var ws := AllWrites(c, cr4, rsp);
      HalvesOf(ws[DEBUGCTL_LOW], ws[DEBUGCTL_UPPER], GUEST_IA32_DEBUGCTL, c.debugCtl)
  {
    DebugCtlPosition(c, cr4, rsp);
    var ws := AllWrites(c, cr4, rsp);
    DebugCtlHalves(c, ws[DEBUGCTL_LOW], ws[DEBUGCTL_UPPER]);
  }

  lemma DebugCtlHalves(c: Capture, lo: Write, hi: Write)
    requires lo == GuestMsrs(c)[0] && hi == GuestMsrs(c)[1]
    ensures HalvesOf(lo, hi, GUEST_IA32_DEBUGCTL, c.debugCtl)
  {
  }

  lemma DebugCtlPosition(c: Capture, cr4: Cell, rsp: Cell)
    ensures |AllWrites(c, cr4, rsp)| == 78
    ensures AllWrites(c, cr4, rsp)[DEBUGCTL_LOW] == GuestMsrs(c)[0]
    ensures AllWrites(c, cr4, rsp)[DEBUGCTL_UPPER] == GuestMsrs(c)[1]
  {
    AllWritesInOrder(c, cr4, rsp);
    var s := c.Selected();
    PlacedAll(c, cr4, rsp);
    GuestMsrsPosition(c, cr4, s);
    Front(GuestWrites(c, cr4, s), HostWrites(c, cr4, rsp, s), ExecWrites(c, cr4), ExitWrites(c), EntryWrites(c));
  }

  lemma GuestMsrsPosition(c: Capture, cr4: Cell, s: VmxSelectors)
    ensures |GuestWrites(c, cr4, s)| == 51
    ensures GuestWrites(c, cr4, s)[DEBUGCTL_LOW] == GuestMsrs(c)[0]
    ensures GuestWrites(c, cr4, s)[DEBUGCTL_UPPER] == GuestMsrs(c)[1]
  {
    PlacedGuest(c, cr4, s);
    var before := GuestRegisters(c, cr4) + GuestSelectors(s) + GuestLimits(s) + GuestBases(c, s) + GuestRights(s)
                  + GuestTables(c);
    BeforeMsrs(c, cr4, s);
    Position(before, GuestMsrs(c), GuestNonRegister());
  }

  lemma BeforeMsrs(c: Capture, cr4: Cell, s: VmxSelectors)
    ensures |GuestRegisters(c, cr4) + GuestSelectors(s) + GuestLimits(s) + GuestBases(c, s) + GuestRights(s)
             + GuestTables(c)|
            == DEBUGCTL_LOW
  {
  }

  lemma Front(a: seq<Write>, b: seq<Write>, d: seq<Write>, e: seq<Write>, f: seq<Write>)
    ensures forall k :: 0 <= k < |a| ==> (a + b + d + e + f)[k] == a[k]
  {
  }

  lemma Position(a: seq<Write>, b: seq<Write>, d: seq<Write>)
    ensures forall k :: 0 <= k < |b| ==> (a + b + d)[|a| + k] == b[k]
  {
  }

  /** Every other field written reads back the value its writer gave it. */
  lemma WritesReadBack(s: Store, c: Capture, cr4: Cell, rsp: Cell, i: nat)
    requires i < |AllWrites(c, cr4, rsp)| && i != DEBUGCTL_LOW && i != DEBUGCTL_UPPER
    requires AllWrites(c, cr4, rsp)[i].field.access.Full? && Writable(s, AllWrites(c, cr4, rsp)[i].field)
    ensures var w := AllWrites(c, cr4, rsp)[i];
      Apply(s, AllWrites(c, cr4, rsp))[FieldOf(w.field)] == Truncate(w.field.width, w.value)
  {
    var ws := AllWrites(c, cr4, rsp);
    forall j | i < j < |ws|
      ensures FieldOf(ws[j].field) != FieldOf(ws[i].field)
    {
      OnlyDebugCtlTwice(c, cr4, rsp, i, j);
    }
    LastWriteDecides(s, ws, i);
  }

  lemma DebugCtlPair(c: Capture, cr4: Cell, rsp: Cell)
    ensures OnlyPair(AllWrites(c, cr4, rsp), DEBUGCTL_LOW)
  {
    var ws := AllWrites(c, cr4, rsp);
    DebugCtlWrites(c, cr4, rsp);
    forall i | 0 <= i < |ws| && i != DEBUGCTL_LOW && i != DEBUGCTL_UPPER
      ensures FieldOf(ws[i].field) != FieldOf(ws[DEBUGCTL_LOW].field)
    {
      if i < DEBUGCTL_LOW { OnlyDebugCtlTwice(c, cr4, rsp, i, DEBUGCTL_LOW); }
      else { OnlyDebugCtlTwice(c, cr4, rsp, DEBUGCTL_LOW, i); }
    }
  }

  /** DEBUGCTL ends up holding the whole 64-bit MSR. */
  lemma DebugCtlWhole(s: Store, c: Capture, cr4: Cell, rsp: Cell)
    requires FieldOf(GUEST_IA32_DEBUGCTL) in s
    ensures Apply(s, AllWrites(c, cr4, rsp))[FieldOf(GUEST_IA32_DEBUGCTL)] == c.debugCtl
  {
    DebugCtlWrites(c, cr4, rsp);
    DebugCtlPair(c, cr4, rsp);
    PairWhole(s, AllWrites(c, cr4, rsp), DEBUGCTL_LOW, GUEST_IA32_DEBUGCTL, c.debugCtl);
  }

  /** The order of the writers does not matter: every permutation of the 78 writes that
      keeps the two DEBUGCTL writes in order leaves the same VMCS. */
  lemma WritersCommute(s: Store, c: Capture, cr4: Cell, rsp: Cell, vs: seq<Write>)
    requires multiset(vs) == multiset(AllWrites(c, cr4, rsp))
    requires FullBeforeHigh(vs, FieldOf(GUEST_IA32_DEBUGCTL))
    ensures Apply(s, vs) == Apply(s, AllWrites(c, cr4, rsp))
  {
    var ws := AllWrites(c, cr4, rsp);
    DebugCtlWrites(c, cr4, rsp);
    DebugCtlPair(c, cr4, rsp);
    forall field
      ensures To(ws, field) == To(vs, field)
    {
      if field == FieldOf(GUEST_IA32_DEBUGCTL) {
        PairSame(ws, vs, DEBUGCTL_LOW);
      } else {
        OthersOnce(c, cr4, rsp, field);
        SameToIfOnce(ws, vs, field);
      }
    }
    OrderIndependent(s, ws, vs);
  }

  lemma OthersOnce(c: Capture, cr4: Cell, rsp: Cell, field: Field)
    requires field != FieldOf(GUEST_IA32_DEBUGCTL)
    ensures AtMostOnce(AllWrites(c, cr4, rsp), field)
  {
    var ws := AllWrites(c, cr4, rsp);
    DebugCtlWrites(c, cr4, rsp);
    forall i, j | 0 <= i < j < |ws| && FieldOf(ws[i].field) == field
      ensures FieldOf(ws[j].field) != field
    {
      OnlyDebugCtlTwice(c, cr4, rsp, i, j);
    }
  }

  lemma Operand32Fits(v: bv32)
    ensures Truncate(DWord, Operand32(v)) == Operand32(v)
  {
  }

  /** Every write but the DEBUGCTL pair reads back, wherever it stands. */
  lemma WrittenReadsBack(s: Store, c: Capture, cr4: Cell, rsp: Cell, w: Write)
    requires w in AllWrites(c, cr4, rsp) && w.field.access.Full? && Writable(s, w.field)
    requires FieldOf(w.field) != FieldOf(GUEST_IA32_DEBUGCTL)
    ensures Apply(s, AllWrites(c, cr4, rsp))[FieldOf(w.field)] == Truncate(w.field.width, w.value)
  {
    var i :| 0 <= i < |AllWrites(c, cr4, rsp)| && AllWrites(c, cr4, rsp)[i] == w;
    DebugCtlWrites(c, cr4, rsp);
    WritesReadBack(s, c, cr4, rsp, i);
  }

  // A write of one of the five writers.
  ghost predicate ByWriter(c: Capture, cr4: Cell, rsp: Cell, w: Write) {
    || w in GuestWrites(c, cr4, c.Selected()) || w in HostWrites(c, cr4, rsp, c.Selected())
    || w in ExecWrites(c, cr4) || w in ExitWrites(c) || w in EntryWrites(c)
  }

  lemma WriterStores(s: Store, c: Capture, cr4: Cell, rsp: Cell, w: Write)
    requires ByWriter(c, cr4, rsp, w) && w.field.access.Full? && Writable(s, w.field)
    requires FieldOf(w.field) != FieldOf(GUEST_IA32_DEBUGCTL) && Truncate(w.field.width, w.value) == w.value
    ensures Apply(s, AllWrites(c, cr4, rsp))[FieldOf(w.field)] == w.value
  {
    ByWriterReadsBack(s, c, cr4, rsp, w.field, w.value);
  }

  lemma InFive(a: seq<Write>, b: seq<Write>, d: seq<Write>, e: seq<Write>, f: seq<Write>, w: Write)
    ensures w in a + b + d + e + f <==> w in a || w in b || w in d || w in e || w in f
  {
  }

  lemma EntryPointWrites(c: Capture, cr4: Cell, rsp: Cell)
    ensures ByWriter(c, cr4, rsp, Write(GUEST_RIP, c.restoreAfterLaunch))
    ensures ByWriter(c, cr4, rsp, Write(HOST_RIP, c.vmExitStub))
    ensures ByWriter(c, cr4, rsp, Write(HOST_RSP, rsp))
  {
    assert GuestRegisters(c, cr4)[4] == Write(GUEST_RIP, c.restoreAfterLaunch);
    assert HostRegisters(c, cr4, rsp)[3] == Write(HOST_RIP, c.vmExitStub);
    assert HostRegisters(c, cr4, rsp)[4] == Write(HOST_RSP, rsp);
  }

  ghost predicate HasEntryPoints(s: Store) {
    FieldOf(GUEST_RIP) in s && FieldOf(HOST_RIP) in s && FieldOf(HOST_RSP) in s
  }

  /** After all writers, a VM entry starts at RestoreAfterLaunch and a VM exit at the stub, on
      the stack the driver set up. */
  lemma EntryPointsStored(s: Store, c: Capture, cr4: Cell, rsp: Cell)
    requires HasEntryPoints(s)
    ensures var r := Apply(s, AllWrites(c, cr4, rsp));
      && r[FieldOf(GUEST_RIP)] == c.restoreAfterLaunch
      && r[FieldOf(HOST_RIP)] == c.vmExitStub
      && r[FieldOf(HOST_RSP)] == rsp
  {
    EntryPointWrites(c, cr4, rsp);
    WriterStores(s, c, cr4, rsp, Write(GUEST_RIP, c.restoreAfterLaunch));
    WriterStores(s, c, cr4, rsp, Write(HOST_RIP, c.vmExitStub));
    WriterStores(s, c, cr4, rsp, Write(HOST_RSP, rsp));
  }

  // The natural-width host fields that have a guest counterpart are numbers 0 to 9: CR0, CR3,
  // CR4, the bases of FS, GS, TR, GDTR and IDTR, and SYSENTER_ESP and _EIP.
  function GuestNumber(h: nat): nat {
    if h < 3 then h else if h < 5 then h + 4 else if h < 8 then h + 5 else h + 10
  }

  function SharedValue(c: Capture, cr4: Cell, s: VmxSelectors, h: nat): Cell {
    match h
    case 0 => c.cr0
    case 1 => c.cr3
    case 2 => cr4
    case 3 => c.fsBase
    case 4 => c.gsBase
    case 5 => s.tr.base
    case 6 => c.gdtrBase
    case 7 => c.idtrBase
    case 8 => c.sysenterEsp
    case _ => c.sysenterEip
  }

  lemma SharedHostWrite(c: Capture, cr4: Cell, rsp: Cell, s: VmxSelectors, h: nat)
    requires h < 10
    ensures var w := Write(FullNatural(h, HostState), SharedValue(c, cr4, s, h));
      w in HostRegisters(c, cr4, rsp) || w in HostMsrs(c) || w in HostBases(c, s)
  {
    var w := Write(FullNatural(h, HostState), SharedValue(c, cr4, s, h));
    if h < 3 {
      assert HostRegisters(c, cr4, rsp)[h] == w;
    } else if h < 8 {
      assert HostBases(c, s)[h - 3] == w;
    } else {
      assert HostMsrs(c)[h - 7] == w;
    }
  }

  lemma SharedGuestWrite(c: Capture, cr4: Cell, s: VmxSelectors, h: nat)
    requires h < 10
    ensures var w := Write(FullNatural(GuestNumber(h), GuestState), SharedValue(c, cr4, s, h));
      w in GuestRegisters(c, cr4) || w in GuestBases(c, s) || w in GuestTables(c) || w in GuestMsrs(c)
  {
    var w := Write(FullNatural(GuestNumber(h), GuestState), SharedValue(c, cr4, s, h));
    if h < 3 {
      assert GuestRegisters(c, cr4)[h] == w;
    } else if h < 6 {
      assert GuestBases(c, s)[if h == 5 then 7 else h + 1] == w;
    } else if h < 8 {
      assert GuestTables(c)[h - 6] == w;
    } else {
      assert GuestMsrs(c)[h - 5] == w;
    }
  }

  lemma SharedByWriters(c: Capture, cr4: Cell, rsp: Cell, h: nat)
    requires h < 10
    ensures ByWriter(c, cr4, rsp, Write(FullNatural(h, HostState), SharedValue(c, cr4, c.Selected(), h)))
    ensures ByWriter(c, cr4, rsp, Write(FullNatural(GuestNumber(h), GuestState), SharedValue(c, cr4, c.Selected(), h)))
  {
    var s := c.Selected();
    SharedHostWrite(c, cr4, rsp, s, h);
    SharedGuestWrite(c, cr4, s, h);
    InFour(HostRegisters(c, cr4, rsp), HostSelectors(s), HostMsrs(c), HostBases(c, s),
           Write(FullNatural(h, HostState), SharedValue(c, cr4, s, h)));
    InEight(GuestRegisters(c, cr4), GuestSelectors(s), GuestLimits(s), GuestBases(c, s), GuestRights(s),
            GuestTables(c), GuestMsrs(c), GuestNonRegister(),
            Write(FullNatural(GuestNumber(h), GuestState), SharedValue(c, cr4, s, h)));
  }

  lemma InFour(a: seq<Write>, b: seq<Write>, d: seq<Write>, e: seq<Write>, w: Write)
    requires w in a || w in b || w in d || w in e
    ensures w in a + b + d + e
  {
  }

  /** The guest starts in the address space and with the tables the host returns to: each
      natural-width host field with a guest counterpart holds the same value as it, the one
      the processor had. */
  lemma GuestSharesHostState(s: Store, c: Capture, cr4: Cell, rsp: Cell, h: nat)
    requires h < 10
    requires FieldOf(FullNatural(h, HostState)) in s && FieldOf(FullNatural(GuestNumber(h), GuestState)) in s
    ensures var r := Apply(s, AllWrites(c, cr4, rsp));
      r[FieldOf(FullNatural(h, HostState))] == r[FieldOf(FullNatural(GuestNumber(h), GuestState))]
      == SharedValue(c, cr4, c.Selected(), h)
  {
    var v := SharedValue(c, cr4, c.Selected(), h);
    SharedByWriters(c, cr4, rsp, h);
    WriterStores(s, c, cr4, rsp, Write(FullNatural(h, HostState), v));
    WriterStores(s, c, cr4, rsp, Write(FullNatural(GuestNumber(h), GuestState), v));
  }

  // The fields that belong neither to a segment register nor to a shared pair.
  ghost predicate HasRest(s: Store) {
    && FieldOf(GUEST_DR7) in s && FieldOf(GUEST_RSP) in s && FieldOf(GUEST_RFLAGS) in s
    && FieldOf(GUEST_GDTR_LIMIT) in s && FieldOf(GUEST_IDTR_LIMIT) in s
    && FieldOf(GUEST_IA32_SYSENTER_CS) in s && FieldOf(HOST_IA32_SYSENTER_CS) in s
    && FieldOf(GUEST_INTERRUPTIBILITY_STATE) in s && FieldOf(GUEST_ACTIVITY_STATE) in s
    && FieldOf(VMCS_LINK_POINTER) in s && FieldOf(CR0_READ_SHADOW) in s && FieldOf(CR4_READ_SHADOW) in s
  }

  lemma ByWriterReadsBack(s: Store, c: Capture, cr4: Cell, rsp: Cell, f: Component, v: Cell)
    requires ByWriter(c, cr4, rsp, Write(f, v)) && f.access.Full? && Writable(s, f)
    requires FieldOf(f) != FieldOf(GUEST_IA32_DEBUGCTL)
    ensures Apply(s, AllWrites(c, cr4, rsp))[FieldOf(f)] == Truncate(f.width, v)
  {
    AllWritesInOrder(c, cr4, rsp);
    InFive(GuestWrites(c, cr4, c.Selected()), HostWrites(c, cr4, rsp, c.Selected()), ExecWrites(c, cr4),
           ExitWrites(c), EntryWrites(c), Write(f, v));
    WrittenReadsBack(s, c, cr4, rsp, Write(f, v));
  }

  lemma RestOfRegisters(c: Capture, cr4: Cell, rsp: Cell)
    ensures ByWriter(c, cr4, rsp, Write(GUEST_DR7, c.dr7))
    ensures ByWriter(c, cr4, rsp, Write(GUEST_RSP, ZERO))
    ensures ByWriter(c, cr4, rsp, Write(GUEST_RFLAGS, c.rflags))
  {
    assert GuestRegisters(c, cr4)[3] == Write(GUEST_DR7, c.dr7);
    assert GuestRegisters(c, cr4)[5] == Write(GUEST_RSP, ZERO);
    assert GuestRegisters(c, cr4)[6] == Write(GUEST_RFLAGS, c.rflags);
  }

  lemma RestOfTables(c: Capture, cr4: Cell, rsp: Cell)
    ensures ByWriter(c, cr4, rsp, Write(GUEST_GDTR_LIMIT, c.gdtrLimit))
    ensures ByWriter(c, cr4, rsp, Write(GUEST_IDTR_LIMIT, c.idtrLimit))
    ensures ByWriter(c, cr4, rsp, Write(GUEST_IA32_SYSENTER_CS, c.sysenterCs))
  {
    assert GuestTables(c)[2] == Write(GUEST_GDTR_LIMIT, c.gdtrLimit);
    assert GuestTables(c)[3] == Write(GUEST_IDTR_LIMIT, c.idtrLimit);
    assert GuestMsrs(c)[2] == Write(GUEST_IA32_SYSENTER_CS, c.sysenterCs);
  }

  lemma RestOfNonRegister(c: Capture, cr4: Cell, rsp: Cell)
    ensures ByWriter(c, cr4, rsp, Write(GUEST_INTERRUPTIBILITY_STATE, ZERO))
    ensures ByWriter(c, cr4, rsp, Write(GUEST_ACTIVITY_STATE, ZERO))
    ensures ByWriter(c, cr4, rsp, Write(VMCS_LINK_POINTER, NO_LINK))
  {
    assert GuestNonRegister()[0] == Write(GUEST_INTERRUPTIBILITY_STATE, ZERO);
    assert GuestNonRegister()[1] == Write(GUEST_ACTIVITY_STATE, ZERO);
    assert GuestNonRegister()[2] == Write(VMCS_LINK_POINTER, NO_LINK);
  }

  lemma RestOfOtherWrites(c: Capture, cr4: Cell, rsp: Cell)
    ensures ByWriter(c, cr4, rsp, Write(HOST_IA32_SYSENTER_CS, c.sysenterCs))
    ensures ByWriter(c, cr4, rsp, Write(CR0_READ_SHADOW, c.cr0))
    ensures ByWriter(c, cr4, rsp, Write(CR4_READ_SHADOW, cr4))
  {
    assert HostMsrs(c)[0] == Write(HOST_IA32_SYSENTER_CS, c.sysenterCs);
    assert ShadowWrites(c, cr4)[0] == Write(CR0_READ_SHADOW, c.cr0);
    assert ShadowWrites(c, cr4)[1] == Write(CR4_READ_SHADOW, cr4);
  }

  /** The guest starts with an empty stack pointer, active and not blocked, without a linked
      VMCS and with its own view of CR0 and CR4; DR7, RFLAGS, the table limits and SYSENTER_CS
      are those of the processor. */
  lemma RestStored(s: Store, c: Capture, cr4: Cell, rsp: Cell)
    requires HasRest(s)
    ensures var r := Apply(s, AllWrites(c, cr4, rsp));
      && r[FieldOf(GUEST_DR7)] == c.dr7 && r[FieldOf(GUEST_RFLAGS)] == c.rflags && r[FieldOf(GUEST_RSP)] == Cell(0)
      && r[FieldOf(CR0_READ_SHADOW)] == c.cr0 && r[FieldOf(CR4_READ_SHADOW)] == cr4
      && r[FieldOf(VMCS_LINK_POINTER)] == Cell(0xFFFF_FFFF_FFFF_FFFF)
    ensures var r := Apply(s, AllWrites(c, cr4, rsp));
      && r[FieldOf(GUEST_GDTR_LIMIT)] == Truncate(DWord, c.gdtrLimit)
      && r[FieldOf(GUEST_IDTR_LIMIT)] == Truncate(DWord, c.idtrLimit)
      && r[FieldOf(GUEST_IA32_SYSENTER_CS)] == r[FieldOf(HOST_IA32_SYSENTER_CS)] == Truncate(DWord, c.sysenterCs)
      && r[FieldOf(GUEST_INTERRUPTIBILITY_STATE)] == r[FieldOf(GUEST_ACTIVITY_STATE)] == Truncate(DWord, Cell(0))
  {
    RestOfRegisters(c, cr4, rsp);
    RestOfTables(c, cr4, rsp);
    RestOfNonRegister(c, cr4, rsp);
    RestOfOtherWrites(c, cr4, rsp);
    ByWriterReadsBack(s, c, cr4, rsp, GUEST_DR7, c.dr7);
    ByWriterReadsBack(s, c, cr4, rsp, GUEST_RSP, ZERO);
    ByWriterReadsBack(s, c, cr4, rsp, GUEST_RFLAGS, c.rflags);
    ByWriterReadsBack(s, c, cr4, rsp, GUEST_GDTR_LIMIT, c.gdtrLimit);
    ByWriterReadsBack(s, c, cr4, rsp, GUEST_IDTR_LIMIT, c.idtrLimit);
    ByWriterReadsBack(s, c, cr4, rsp, GUEST_IA32_SYSENTER_CS, c.sysenterCs);
    ByWriterReadsBack(s, c, cr4, rsp, HOST_IA32_SYSENTER_CS, c.sysenterCs);
    ByWriterReadsBack(s, c, cr4, rsp, GUEST_INTERRUPTIBILITY_STATE, ZERO);
    ByWriterReadsBack(s, c, cr4, rsp, GUEST_ACTIVITY_STATE, ZERO);
    ByWriterReadsBack(s, c, cr4, rsp, VMCS_LINK_POINTER, NO_LINK);
    ByWriterReadsBack(s, c, cr4, rsp, CR0_READ_SHADOW, c.cr0);
    ByWriterReadsBack(s, c, cr4, rsp, CR4_READ_SHADOW, cr4);
  }

  /** The three CR4 fields hold the CR4 given. */
  lemma Cr4Stored(s: Store, c: Capture, cr4: Cell, rsp: Cell)
    requires HasRest(s) && FieldOf(HOST_CR4) in s && FieldOf(GUEST_CR4) in s
    ensures var r := Apply(s, AllWrites(c, cr4, rsp));
      r[FieldOf(GUEST_CR4)] == r[FieldOf(HOST_CR4)] == r[FieldOf(CR4_READ_SHADOW)] == cr4
  {
    GuestSharesHostState(s, c, cr4, rsp, 2);
    RestStored(s, c, cr4, rsp);
  }

  // Segment registers in the order of Appendix B of the Intel SDM: ES, CS, SS, DS, FS, GS,
  // LDTR, TR. The fields of register k are those below.
  function SegmentOf(s: VmxSelectors, k: nat): Segment
    requires k < 8
  {
    match k
    case 0 => s.es case 1 => s.cs case 2 => s.ss case 3 => s.ds
    case 4 => s.fs case 5 => s.gs case 6 => s.ldtr case _ => s.tr
  }

  function SelectorOf(c: Capture, k: nat): bv16
    requires k < 8
  {
    match k
    case 0 => c.es case 1 => c.cs case 2 => c.ss case 3 => c.ds
    case 4 => c.fs case 5 => c.gs case 6 => c.ldtr case _ => c.tr
  }

  function SelectorField(k: nat): Component { Full16(k, GuestState) }
  function LimitField(k: nat): Component { Full32(k, GuestState) }
  function BaseField(k: nat): Component { FullNatural(3 + k, GuestState) }
  function RightsField(k: nat): Component { Full32(10 + k, GuestState) }
  // There is no host LDTR selector.
  function HostSelectorField(k: nat): Component { Full16(if k == 7 then 6 else k, HostState) }

  // The base the guest gets: those of FS and GS are not in their descriptors.
  function GuestBase(c: Capture, s: VmxSelectors, k: nat): Cell
    requires k < 8
  {
    if k == 4 then c.fsBase else if k == 5 then c.gsBase else SegmentOf(s, k).base
  }

  lemma SegmentWrites(c: Capture, s: VmxSelectors, k: nat)
    requires k < 8
    ensures Write(SelectorField(k), SegmentOf(s, k).selector) in GuestSelectors(s)
    ensures Write(LimitField(k), SegmentOf(s, k).limit) in GuestLimits(s)
    ensures Write(BaseField(k), GuestBase(c, s, k)) in GuestBases(c, s)
    ensures Write(RightsField(k), SegmentOf(s, k).rights) in GuestRights(s)
    ensures k != 6 ==> Write(HostSelectorField(k), SegmentOf(s, k).host) in HostSelectors(s)
  {
    var p := SegmentPlace(k);
    assert GuestSelectors(s)[p] == Write(SelectorField(k), SegmentOf(s, k).selector);
    assert GuestLimits(s)[p] == Write(LimitField(k), SegmentOf(s, k).limit);
    assert GuestBases(c, s)[p] == Write(BaseField(k), GuestBase(c, s, k));
    assert GuestRights(s)[p] == Write(RightsField(k), SegmentOf(s, k).rights);
    if k != 6 {
      assert HostSelectors(s)[if k == 7 then 6 else p] == Write(HostSelectorField(k), SegmentOf(s, k).host);
    }
  }

  lemma InEight(a: seq<Write>, b: seq<Write>, d: seq<Write>, e: seq<Write>, f: seq<Write>,
                g: seq<Write>, h: seq<Write>, i: seq<Write>, w: Write)
    requires w in a || w in b || w in d || w in e || w in f || w in g || w in h
    ensures w in a + b + d + e + f + g + h + i
  {
  }

  ghost predicate InSegments(c: Capture, w: Write) {
    var s := c.Selected();
    w in GuestSelectors(s) || w in GuestLimits(s) || w in GuestBases(c, s) || w in GuestRights(s)
  }

  lemma GuestSegmentWrite(c: Capture, cr4: Cell, rsp: Cell, w: Write)
    requires InSegments(c, w)
    ensures ByWriter(c, cr4, rsp, w)
  {
    var s := c.Selected();
    InEight(GuestRegisters(c, cr4), GuestSelectors(s), GuestLimits(s), GuestBases(c, s), GuestRights(s),
            GuestTables(c), GuestMsrs(c), GuestNonRegister(), w);
  }

  lemma HostSelectorWrite(c: Capture, cr4: Cell, rsp: Cell, w: Write)
    requires w in HostSelectors(c.Selected())
    ensures ByWriter(c, cr4, rsp, w)
  {
  }

  lemma SegmentOperands(c: Capture, k: nat)
    requires k < 8
    ensures SegmentOf(c.Selected(), k) == Operands(c.Entry(SelectorOf(c, k)))
  {
  }

  // Selectors, limits and access rights fit their fields.
  lemma OperandsFit(e: Selectors.Entry)
    ensures Truncate(Word, Operands(e).selector) == Operands(e).selector
    ensures Truncate(Word, Operands(e).host) == Operands(e).host
    ensures Truncate(DWord, Operands(e).limit) == Operands(e).limit
    ensures Truncate(DWord, Operands(e).rights) == Operands(e).rights
  {
    Operand16Fits(e.selector);
    Operand16Fits(Selectors.HostSelector(e.selector));
    Operand32Fits(e.limit);
    Operand32Fits(e.accessRights);
  }

  lemma Operand16Fits(v: bv16)
    ensures Truncate(Word, Operand16(v)) == Operand16(v)
  {
  }

  ghost predicate HasSegment(s: Store, k: nat) {
    && FieldOf(SelectorField(k)) in s && FieldOf(LimitField(k)) in s
    && FieldOf(BaseField(k)) in s && FieldOf(RightsField(k)) in s
  }

  /** After all writers, the four guest fields of every segment register hold the translation
      of its own selector, but for the bases of FS and GS, which come from their MSRs. */
  lemma SegmentsStored(s: Store, c: Capture, cr4: Cell, rsp: Cell, k: nat)
    requires k < 8 && HasSegment(s, k)
    ensures var r, segment := Apply(s, AllWrites(c, cr4, rsp)), Operands(c.Entry(SelectorOf(c, k)));
      && r[FieldOf(SelectorField(k))] == segment.selector
      && r[FieldOf(LimitField(k))] == segment.limit
      && r[FieldOf(BaseField(k))] == (if k == 4 then c.fsBase else if k == 5 then c.gsBase else segment.base)
      && r[FieldOf(RightsField(k))] == segment.rights
  {
    var v := c.Selected();
    SegmentWrites(c, v, k);
    SegmentOperands(c, k);
    OperandsFit(c.Entry(SelectorOf(c, k)));
    SegmentStored(s, c, cr4, rsp, Write(SelectorField(k), SegmentOf(v, k).selector));
    SegmentStored(s, c, cr4, rsp, Write(LimitField(k), SegmentOf(v, k).limit));
    SegmentStored(s, c, cr4, rsp, Write(BaseField(k), GuestBase(c, v, k)));
    SegmentStored(s, c, cr4, rsp, Write(RightsField(k), SegmentOf(v, k).rights));
  }

  // A selector into the GDT.
  predicate InGdt(selector: bv16) { selector != 0 && (selector >> 2) & 1 == 0 }

  /** So each of these fields, for a segment register with a descriptor in the GDT: the selector
      itself, the limit the processor reports for it, and the access rights of its descriptor. */
  lemma GdtSegmentStored(s: Store, c: Capture, cr4: Cell, rsp: Cell, k: nat, selector: bv16,
                         d: Selectors.Descriptor)
    requires k < 8 && HasSegment(s, k) && c.gdtrBase.bits != 0 && selector == SelectorOf(c, k) && InGdt(selector)
    requires d == c.memory(Selectors.DescriptorAddress(c.gdtrBase.bits, selector))
    ensures var r := Apply(s, AllWrites(c, cr4, rsp));
      && r[FieldOf(SelectorField(k))] == Cell(selector as bv64)
      && r[FieldOf(LimitField(k))] == Cell(c.segmentLimit(selector) as bv64)
      && r[FieldOf(RightsField(k))] == Cell(Selectors.ArchitecturalRights(d.low))
  {
    SegmentsStored(s, c, cr4, rsp, k);
    GdtEntry(c, selector, d);
    GdtOperands(c.Entry(selector), d.low);
  }

  lemma GdtEntry(c: Capture, selector: bv16, d: Selectors.Descriptor)
    requires c.gdtrBase.bits != 0 && InGdt(selector)
    requires d == c.memory(Selectors.DescriptorAddress(c.gdtrBase.bits, selector))
    ensures var e := c.Entry(selector);
      && e.selector == selector && e.limit == c.segmentLimit(selector)
      && e.accessRights == Selectors.TranslatedRights(d.low)
  {
    GdtSelector(selector);
    EntryOf(c, selector, d);
  }

  lemma EntryOf(c: Capture, selector: bv16, d: Selectors.Descriptor)
    requires c.gdtrBase.bits != 0 && !Selectors.IsNullOrLocal(selector)
    requires d == c.memory(Selectors.DescriptorAddress(c.gdtrBase.bits, selector))
    ensures c.Entry(selector) == Selectors.Entry(Selectors.TranslatedBase(d.low, d.high), c.segmentLimit(selector),
                                                 Selectors.TranslatedRights(d.low), selector)
  {
  }

  lemma GdtOperands(e: Selectors.Entry, low: bv64)
    requires e.accessRights == Selectors.TranslatedRights(low)
    ensures Operands(e).selector == Cell(e.selector as bv64) && Operands(e).limit == Cell(e.limit as bv64)
    ensures Operands(e).rights == Cell(Selectors.ArchitecturalRights(low))
  {
    RightsOperand(e, e.accessRights, low);
  }

  lemma RightsOperand(e: Selectors.Entry, rights: bv32, low: bv64)
    requires e.accessRights == rights == Selectors.TranslatedRights(low)
    ensures Operands(e).rights == Cell(Selectors.ArchitecturalRights(low))
  {
    Selectors.RightsAreArchitectural(low);
  }

  lemma GdtSelector(selector: bv16)
    requires InGdt(selector)
    ensures !Selectors.IsNullOrLocal(selector) && selector & 7 == selector & 3
  {
  }

  /** A register with a null or LDT selector gets a zero selector, limit and base, unusable. */
  lemma NullSegmentStored(s: Store, c: Capture, cr4: Cell, rsp: Cell, k: nat)
    requires k < 8 && HasSegment(s, k) && c.gdtrBase.bits != 0 && !InGdt(SelectorOf(c, k))
    ensures var r := Apply(s, AllWrites(c, cr4, rsp));
      && r[FieldOf(SelectorField(k))] == r[FieldOf(LimitField(k))] == Cell(0)
      && r[FieldOf(RightsField(k))] == Cell(0x1_0000)
      && (k != 4 && k != 5 ==> r[FieldOf(BaseField(k))] == Cell(0))
  {
    SegmentsStored(s, c, cr4, rsp, k);
    NullEntry(c, SelectorOf(c, k));
  }

  /** Without a GDT nothing is translated, and the fields stay zero. */
  lemma NoGdtSegmentStored(s: Store, c: Capture, cr4: Cell, rsp: Cell, k: nat)
    requires k < 8 && HasSegment(s, k) && c.gdtrBase.bits == 0
    ensures var r := Apply(s, AllWrites(c, cr4, rsp));
      r[FieldOf(SelectorField(k))] == r[FieldOf(LimitField(k))] == r[FieldOf(RightsField(k))] == Cell(0)
  {
    SegmentsStored(s, c, cr4, rsp, k);
  }

  lemma NullEntry(c: Capture, selector: bv16)
    requires c.gdtrBase.bits != 0 && !InGdt(selector)
    ensures Operands(c.Entry(selector)) == Segment(Cell(0), Cell(0), Cell(0), Cell(0x1_0000), Cell(0))
  {
    NullSelector(selector);
    Selectors.GuestSelector(c.gdtrBase.bits, c.memory, c.segmentLimit(selector), selector);
  }

  lemma NullSelector(selector: bv16)
    requires !InGdt(selector)
    ensures Selectors.IsNullOrLocal(selector)
  {
  }

  lemma SegmentStored(s: Store, c: Capture, cr4: Cell, rsp: Cell, w: Write)
    requires InSegments(c, w)
    requires w.field.access.Full? && !w.field.width.QWord? && w.field.typ.GuestState? && FieldOf(w.field) in s
    requires Truncate(w.field.width, w.value) == w.value
    ensures Apply(s, AllWrites(c, cr4, rsp))[FieldOf(w.field)] == w.value
  {
    GuestSegmentWrite(c, cr4, rsp, w);
    WriterStores(s, c, cr4, rsp, w);
  }

  lemma BaseOperand(c: Capture, selector: bv16, d: Selectors.Descriptor)
    requires c.gdtrBase.bits != 0 && !Selectors.IsNullOrLocal(selector)
    requires d == c.memory(Selectors.DescriptorAddress(c.gdtrBase.bits, selector))
    ensures Operands(c.Entry(selector)).base == Cell(Selectors.TranslatedBase(d.low, d.high))
  {
  }

  /** For a segment register with a descriptor in the GDT, of any class, the guest base stored is
      the architectural one exactly when BaseUpper is zero. */
  lemma StoredBaseIsArchitecturalIff(s: Store, c: Capture, cr4: Cell, rsp: Cell, k: nat, d: Selectors.Descriptor)
    requires k < 8 && k != 4 && k != 5 && HasSegment(s, k)
    requires c.gdtrBase.bits != 0 && !Selectors.IsNullOrLocal(SelectorOf(c, k))
    requires d == c.memory(Selectors.DescriptorAddress(c.gdtrBase.bits, SelectorOf(c, k)))
    ensures Apply(s, AllWrites(c, cr4, rsp))[FieldOf(BaseField(k))] == Cell(Selectors.ArchitecturalBase(d.low, d.high))
            <==> Selectors.BaseUpper(d.high) == 0
  {
    SegmentsStored(s, c, cr4, rsp, k);
    BaseOperand(c, SelectorOf(c, k), d);
    Selectors.BaseIsArchitecturalIff(d.low, d.high);
  }

  /** So a task register whose TSS lies above 4 GB gets a wrong base, for the guest and for the
      host it exits to. */
  lemma TaskBasesIff(s: Store, c: Capture, cr4: Cell, rsp: Cell, d: Selectors.Descriptor)
    requires HasSegment(s, 7) && FieldOf(HOST_TR_BASE) in s && c.gdtrBase.bits != 0 && !Selectors.IsNullOrLocal(c.tr)
    requires d == c.memory(Selectors.DescriptorAddress(c.gdtrBase.bits, c.tr))
    ensures var r, base := Apply(s, AllWrites(c, cr4, rsp)), Cell(Selectors.ArchitecturalBase(d.low, d.high));
      && r[FieldOf(HOST_TR_BASE)] == r[FieldOf(GUEST_TR_BASE)]
      && (r[FieldOf(GUEST_TR_BASE)] == base <==> Selectors.BaseUpper(d.high) == 0)
  {
    StoredBaseIsArchitecturalIff(s, c, cr4, rsp, 7, d);
    GuestSharesHostState(s, c, cr4, rsp, 5);
  }

  /** For code and data descriptors, which are eight bytes long, that is when LimitLow and
      BaseLow of the entry after the descriptor are zero. */
  lemma StoredBaseIff(s: Store, c: Capture, cr4: Cell, rsp: Cell, k: nat, a: bv64)
    requires k < 8 && k != 4 && k != 5 && HasSegment(s, k)
    requires c.gdtrBase.bits != 0 && !Selectors.IsNullOrLocal(SelectorOf(c, k))
    requires a == Selectors.DescriptorAddress(c.gdtrBase.bits, SelectorOf(c, k))
    requires c.memory(a).high == c.memory(a + 8).low
    ensures var d, next := c.memory(a), c.memory(a + 8).low;
      Apply(s, AllWrites(c, cr4, rsp))[FieldOf(BaseField(k))] == Cell(Selectors.ArchitecturalBase(d.low, d.high))
      <==> Selectors.LimitLow(next) == 0 && Selectors.BaseLow(next) == 0
  {
    StoredBaseIsArchitecturalIff(s, c, cr4, rsp, k, c.memory(a));
    Selectors.UpperHalves(c.memory(a).high);
  }

  /** ... and each host selector field holds that translated selector with RPL and TI
      cleared, as section 26.2.3 of the Intel SDM requires. */
  lemma HostSelectorsStored(s: Store, c: Capture, cr4: Cell, rsp: Cell, k: nat)
    requires k < 8 && k != 6 && FieldOf(HostSelectorField(k)) in s
    ensures var host := Selectors.HostSelector(c.Entry(SelectorOf(c, k)).selector);
      && Apply(s, AllWrites(c, cr4, rsp))[FieldOf(HostSelectorField(k))] == Operand16(host)
      && host & 7 == 0
  {
    var e := c.Entry(SelectorOf(c, k));
    SegmentWrites(c, c.Selected(), k);
    SegmentOperands(c, k);
    OperandsFit(e);
    HostSelectorWrite(c, cr4, rsp, Write(HostSelectorField(k), Operands(e).host));
    WriterStores(s, c, cr4, rsp, Write(HostSelectorField(k), Operands(e).host));
    Selectors.HostSelectorFits(e.selector);
  }

  /** By selector: index kept for a selector into the GDT, null for any other. */
  lemma HostSelectorsByNumber(s: Store, c: Capture, cr4: Cell, rsp: Cell, k: nat, selector: bv16)
    requires k < 8 && k != 6 && FieldOf(HostSelectorField(k)) in s
    requires c.gdtrBase.bits != 0 && selector == SelectorOf(c, k)
    ensures Apply(s, AllWrites(c, cr4, rsp))[FieldOf(HostSelectorField(k))]
            == if InGdt(selector) then Cell((selector & 0xFFF8) as bv64) else Cell(0)
  {
    HostSelectorsStored(s, c, cr4, rsp, k);
    EntrySelector(c, selector);
    HostOperand(c.Entry(selector).selector, selector);
  }

  lemma HostOperand(kept: bv16, selector: bv16)
    requires kept == if InGdt(selector) then selector else 0
    ensures Operand16(Selectors.HostSelector(kept))
            == if InGdt(selector) then Cell((selector & 0xFFF8) as bv64) else Cell(0)
  {
  }

  lemma EntrySelector(c: Capture, selector: bv16)
    requires c.gdtrBase.bits != 0
    ensures c.Entry(selector).selector == if InGdt(selector) then selector else 0
  {
    if InGdt(selector) { GdtSelector(selector); } else { NullSelector(selector); }
  }

  predicate HasControls(s: Store) {
    && FieldOf(PIN_BASED_VM_EXECUTION_CTLS) in s
    && FieldOf(PRIMARY_PROC_BASED_VM_EXECUTION_CTLS) in s
    && FieldOf(SECONDARY_PROC_BASED_VM_EXECUTION_CTLS) in s
    && FieldOf(VM_EXIT_CTLS) in s
    && FieldOf(VM_ENTRY_CTLS) in s
  }

  /** The control words in the VMCS after all writers: the primary word is the one
      adjusted once, and the secondary word is the request itself. */
  lemma ControlsStored(s: Store, c: Capture, cr4: Cell, rsp: Cell)
    requires HasControls(s)
    ensures var r := Apply(s, AllWrites(c, cr4, rsp));
      && r[FieldOf(PIN_BASED_VM_EXECUTION_CTLS)] == Operand32(PinControl(c))
      && r[FieldOf(PRIMARY_PROC_BASED_VM_EXECUTION_CTLS)] == Operand32(PrimaryControl(c))
      && r[FieldOf(SECONDARY_PROC_BASED_VM_EXECUTION_CTLS)] == Operand32(SecondaryControl())
      && r[FieldOf(VM_EXIT_CTLS)] == Operand32(ExitControl(c))
      && r[FieldOf(VM_ENTRY_CTLS)] == Operand32(EntryControl(c))
  {
    ControlWrites(c, cr4);
    ControlStored(s, c, cr4, rsp, PIN_BASED_VM_EXECUTION_CTLS, PinControl(c));
    ControlStored(s, c, cr4, rsp, PRIMARY_PROC_BASED_VM_EXECUTION_CTLS, PrimaryControl(c));
    ControlStored(s, c, cr4, rsp, SECONDARY_PROC_BASED_VM_EXECUTION_CTLS, SecondaryControl());
    ControlStored(s, c, cr4, rsp, VM_EXIT_CTLS, ExitControl(c));
    ControlStored(s, c, cr4, rsp, VM_ENTRY_CTLS, EntryControl(c));
  }

  // A field holds the request, adjusted to msr.
  ghost predicate HoldsAdjusted(v: Cell, request: bv32, msr: bv64) {
    exists w: bv32 :: v == Operand32(w) && Controls.AdjustedTo(w, request, msr)
  }

  // The control fields of a VMCS for the capability MSRs m: HLT exiting and the secondary
  // controls asked for, RDTSCP, a 64-bit host and a 64-bit guest.
  ghost predicate HoldsControls(r: Store, m: Controls.CapabilityMsrs) {
    && HasControls(r)
    && HoldsAdjusted(r[FieldOf(PIN_BASED_VM_EXECUTION_CTLS)], 0, Controls.PinMsr(m))
    && HoldsAdjusted(r[FieldOf(PRIMARY_PROC_BASED_VM_EXECUTION_CTLS)], 0x8000_0080, Controls.ProcMsr(m))
    && r[FieldOf(SECONDARY_PROC_BASED_VM_EXECUTION_CTLS)] == Cell(8)
    && HoldsAdjusted(r[FieldOf(VM_EXIT_CTLS)], 0x200, Controls.ExitMsr(m))
    && HoldsAdjusted(r[FieldOf(VM_ENTRY_CTLS)], 0x200, Controls.EntryMsr(m))
  }

  /** ... each the exact word that the numbers of the processor's MSRs give. */
  lemma ControlsByNumber(s: Store, c: Capture, cr4: Cell, rsp: Cell)
    requires HasControls(s)
    ensures HoldsControls(Apply(s, AllWrites(c, cr4, rsp)), c.msrs)
  {
    ControlsStored(s, c, cr4, rsp);
    Controls.MsrsAreNamed(c.msrs);
    Requests();
    Controls.AdjustByIs(0, c.msrs.For(Controls.PinBased));
    Controls.AdjustByIs(Controls.PRIMARY_REQUEST, c.msrs.For(Controls.ProcBased));
    Controls.AdjustByIs(Controls.HOST_ADDRESS_SPACE_SIZE, c.msrs.For(Controls.VmExit));
    Controls.AdjustByIs(Controls.IA32_MODE_GUEST, c.msrs.For(Controls.VmEntry));
  }

  lemma Requests()
    ensures Controls.PRIMARY_REQUEST == 0x8000_0080 && Operand32(SecondaryControl()) == Cell(8)
    ensures Controls.HOST_ADDRESS_SPACE_SIZE == 0x200 && Controls.IA32_MODE_GUEST == 0x200
  {
  }

  lemma ControlWrites(c: Capture, cr4: Cell)
    ensures Write(PIN_BASED_VM_EXECUTION_CTLS, Operand32(PinControl(c))) in ExecWrites(c, cr4)
    ensures Write(PRIMARY_PROC_BASED_VM_EXECUTION_CTLS, Operand32(PrimaryControl(c))) in ExecWrites(c, cr4)
    ensures Write(SECONDARY_PROC_BASED_VM_EXECUTION_CTLS, Operand32(SecondaryControl())) in ExecWrites(c, cr4)
    ensures Write(VM_EXIT_CTLS, Operand32(ExitControl(c))) in ExitWrites(c)
    ensures Write(VM_ENTRY_CTLS, Operand32(EntryControl(c))) in EntryWrites(c)
  {
    assert PinWrites(c)[0] in PinWrites(c);
    assert ProcessorWrites(c)[0] in ProcessorWrites(c) && ProcessorWrites(c)[1] in ProcessorWrites(c);
  }

  lemma ControlStored(s: Store, c: Capture, cr4: Cell, rsp: Cell, f: Component, w: bv32)
    requires ByWriter(c, cr4, rsp, Write(f, Operand32(w)))
    requires f.access.Full? && f.width.DWord? && f.typ.Control? && FieldOf(f) in s
    ensures Apply(s, AllWrites(c, cr4, rsp))[FieldOf(f)] == Operand32(w)
  {
    Operand32Fits(w);
    WriterStores(s, c, cr4, rsp, Write(f, Operand32(w)));
  }

  // The capability MSRs the control words answer to force no bit they forbid.
  ghost predicate ConsistentMsrs(m: Controls.CapabilityMsrs) {
    && Controls.Consistent(Controls.PinMsr(m))
    && Controls.Consistent(Controls.ProcMsr(m))
    && Controls.Consistent(Controls.ExitMsr(m))
    && Controls.Consistent(Controls.EntryMsr(m))
  }

  /** Four of the five words are legal, keep every requested bit that is allowed and have no bit
      but those requested and those forced. */
  lemma ControlsLegal(c: Capture)
    requires ConsistentMsrs(c.msrs)
    ensures LegalAndKept(PinControl(c), 0, Controls.PinMsr(c.msrs))
    ensures LegalAndKept(PrimaryControl(c), 0x8000_0080, Controls.ProcMsr(c.msrs))
    ensures LegalAndKept(ExitControl(c), 0x200, Controls.ExitMsr(c.msrs))
    ensures LegalAndKept(EntryControl(c), 0x200, Controls.EntryMsr(c.msrs))
  {
    Requests();
    Controls.MsrsAreNamed(c.msrs);
    AdjustedLegalAndKept(0, c.msrs.For(Controls.PinBased));
    AdjustedLegalAndKept(Controls.PRIMARY_REQUEST, c.msrs.For(Controls.ProcBased));
    AdjustedLegalAndKept(Controls.HOST_ADDRESS_SPACE_SIZE, c.msrs.For(Controls.VmExit));
    AdjustedLegalAndKept(Controls.IA32_MODE_GUEST, c.msrs.For(Controls.VmEntry));
  }

  // w is legal for msr, has every bit of the request that msr allows, and no other but the
  // bits that msr forces.
  ghost predicate LegalAndKept(w: bv32, request: bv32, msr: bv64) {
    && Controls.LegalBy(w, msr) && Controls.Subset(request & Controls.Default1(msr), w)
    && Controls.Subset(w, request | Controls.Default0(msr))
  }

  lemma AdjustedLegalAndKept(request: bv32, msr: bv64)
    requires Controls.Consistent(msr)
    ensures LegalAndKept(Controls.AdjustBy(request, msr), request, msr)
  {
    Controls.AdjustLegal(request, Controls.Default0(msr), Controls.Default1(msr));
    Controls.AdjustKeeps(request, Controls.Default0(msr), Controls.Default1(msr));
  }

  /** The unadjusted secondary word is legal exactly when its capability MSR forces no bit
      but RDTSCP and allows that one. */
  lemma SecondaryLegalIff(c: Capture)
    ensures Controls.LegalBy(SecondaryControl(), c.msrs.For(Controls.ProcBased2))
            <==> (var msr := c.msrs.For(Controls.ProcBased2);
                  && (Controls.Default0(msr) == 0 || Controls.Default0(msr) == 8)
                  && Controls.Default1(msr) & 8 != 0)
  {
    RdtscpBits(Controls.Default0(c.msrs.For(Controls.ProcBased2)), Controls.Default1(c.msrs.For(Controls.ProcBased2)));
  }

  lemma RdtscpBits(d0: bv32, d1: bv32)
    ensures d0 & !(8 as bv32) == 0 <==> d0 == 0 || d0 == 8
    ensures 8 & !d1 == 0 <==> d1 & 8 != 0
  {
  }
}
