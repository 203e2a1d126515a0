// Bring-up and teardown as traces: what `InitHv` and `ExitVmxOperation` (hv/src/main.c,
// hv/src/vmx.c) do to the machine, for every outcome of every step they take.
module BringUp {
  import opened Machine
  import opened NtStatus
  import opened VmcsStore
  import Bits
  import Fields
  import StateArea

  // What happens on one processor: the MSR and register contents it shows the driver and
  // the outcome of each allocation and VMX instruction.
  datatype CpuEnv = CpuEnv(
    vmxBasic: bv64,
    cr4: bv64,
    vmxonMemory: Option<nat>,
    vmxon: Status,
    vmcsMemory: Option<nat>,
    firstLoad: Status,
    clear: Status,
    cleared: Store,          // what VMCLEAR leaves in the fields
    load: Status,
    capture: StateArea.Capture,
    launch: LaunchOutcome)

  // The allocation size: RegionSize of IA32_VMX_BASIC, but at most a page.
  function RegionSize(vmxBasic: bv64): bv64 { (vmxBasic >> 32) & 0x1FFF }
  function AllocationSize(vmxBasic: bv64): Size {
    if RegionSize(vmxBasic) > 4096 then Size(4096) else Size(RegionSize(vmxBasic) as nat)
  }

  /** That is exactly as many bytes as the processor needs. */
  lemma AllocationFits(vmxBasic: bv64)
    ensures AllocationSize(vmxBasic).bytes == NeededBytes(vmxBasic)
  {
    Bits.Field44(vmxBasic);
    PageBound(RegionSize(vmxBasic));
  }

  lemma PageBound(x: bv64)
    requires x <= 0x1FFF
    ensures x > 4096 <==> x as nat > 4096
  {
  }

  function EnabledCr4(cr4: bv64): bv64 { cr4 | 0x2000 }

  lemma EnabledCr4HasVmxe(cr4: bv64)
    ensures Vmxe(EnabledCr4(cr4))
  {
  }

  // The header of a VMCS: the revision identifier, with the shadow indicator cleared.
  function VmcsHeader(vmxBasic: bv64): bv32 { Revision(vmxBasic) & 0x7FFF_FFFF }

  lemma VmcsHeaderIsRevision(vmxBasic: bv64)
    ensures VmcsHeader(vmxBasic) == Revision(vmxBasic)
  {
  }

  // How far bring-up of one processor gets.
  datatype Stage =
    | NoVmxonMemory | VmxonFailed | NoVmcsMemory | FirstLoadFailed
    | ClearFailed | LoadFailed | LaunchRejected
    | LaunchEntered | LaunchEntryFailed
  {
    // The stages after which the loop in InitHv breaks.
    predicate Breaks() { NoVmxonMemory? || VmxonFailed? || NoVmcsMemory? || FirstLoadFailed? }
    // The stages after which control does not come back to the loop.
    predicate Leaves() { LaunchEntered? || LaunchEntryFailed? }
    predicate Stops() { Breaks() || Leaves() }
  }

  function StageOf(e: CpuEnv): Stage {
    if e.vmxonMemory.None? then NoVmxonMemory
    else if !e.vmxon.Success? then VmxonFailed
    else if e.vmcsMemory.None? then NoVmcsMemory
    else if !e.firstLoad.Success? then FirstLoadFailed
    else if !e.clear.Success? then ClearFailed
    else if !e.load.Success? then LoadFailed
    else match e.launch
      case Rejected(_) => LaunchRejected
      case Entered => LaunchEntered
      case EntryFailed => LaunchEntryFailed
  }

  function RejectedStatus(invalid: bool): Status { if invalid then FailInvalid else FailValid }

  // The NTSTATUS the loop body ends with.
  function StageStatus(e: CpuEnv): int {
    match StageOf(e)
    case NoVmxonMemory => STATUS_MEMORY_NOT_ALLOCATED
    case VmxonFailed => STATUS_ILLEGAL_INSTRUCTION
    case NoVmcsMemory => STATUS_INSUFFICIENT_RESOURCES
    case FirstLoadFailed => STATUS_ILLEGAL_INSTRUCTION
    case ClearFailed => e.clear.Code()
    case LoadFailed => e.load.Code()
    case LaunchRejected => RejectedStatus(e.launch.invalid).Code()
    case _ => STATUS_SUCCESS
  }

  // The traces of the functions the loop body calls.
  function EnableTrace(e: CpuEnv): seq<Event> { [WriteCr4(EnabledCr4(e.cr4))] }

  function PrepareTrace(va: nat, size: Size, word: bv32): seq<Event> {
    [Allocate(size, Some(va)), Zero(va, size), WriteHeader(va, word)]
  }

  function VmxonTrace(os: Translation, e: CpuEnv): seq<Event> {
    var size := AllocationSize(e.vmxBasic);
    match e.vmxonMemory
    case None => [Allocate(size, None)]
    case Some(va) =>
      PrepareTrace(va, size, Revision(e.vmxBasic)) + [VmxOn(os.toPa(va), e.vmxon)]
  }

  function VmcsTrace(os: Translation, e: CpuEnv): seq<Event> {
    var size := AllocationSize(e.vmxBasic);
    match e.vmcsMemory
    case None => [Allocate(size, None)]
    case Some(va) =>
      PrepareTrace(va, size, VmcsHeader(e.vmxBasic)) + [VmPtrLd(os.toPa(va), e.firstLoad)]
  }

  function LaunchTrace(e: CpuEnv): seq<Event> {
    if e.launch.Rejected? then [VmLaunch(e.launch), VmRead(Fields.VM_INSTRUCTION_ERR), VmxOff] else [VmLaunch(e.launch)]
  }

  // ws is what the writers write between VMPTRLD and VMLAUNCH.
  function InitializeVmcsTrace(pa: nat, e: CpuEnv, ws: seq<Write>): seq<Event> {
    if !e.clear.Success? then [VmClear(pa, e.clear, e.cleared)]
    else if !e.load.Success? then [VmClear(pa, e.clear, e.cleared), VmPtrLd(pa, e.load)]
    else [VmClear(pa, e.clear, e.cleared), VmPtrLd(pa, e.load)] + WriteEvents(ws) + LaunchTrace(e)
  }

  // What the loop body does from its k-th call on: the pinning and the three calls that
  // can fail, each made only if the ones before it succeeded.
  function CpuSteps(os: Translation, i: nat, e: CpuEnv, ws: seq<Write>, k: nat): seq<Event>
    requires k <= 4
    decreases 4 - k
  {
    if k == 4 then [] else CpuStep(os, i, e, ws, k) + CpuSteps(os, i, e, ws, k + 1)
  }

  function CpuStep(os: Translation, i: nat, e: CpuEnv, ws: seq<Write>, k: nat): seq<Event>
    requires k < 4
  {
    match k
    case 0 => [Pin(PinMask(i))] + EnableTrace(e)
    case 1 => VmxonTrace(os, e)
    case 2 => if StageOf(e).NoVmxonMemory? || StageOf(e).VmxonFailed? then [] else VmcsTrace(os, e)
    case _ => if StageOf(e).Breaks() then [] else InitializeVmcsTrace(os.toPa(e.vmcsMemory.value), e, ws)
  }

  function CpuTrace(os: Translation, i: nat, e: CpuEnv, ws: seq<Write>): seq<Event> {
    CpuSteps(os, i, e, ws, 0)
  }

  // The part up to InitializeVMCS.
  function SetupTrace(os: Translation, i: nat, e: CpuEnv): seq<Event> {
    CpuStep(os, i, e, [], 0) + CpuStep(os, i, e, [], 1) + CpuStep(os, i, e, [], 2)
  }

  lemma SetupFirst(os: Translation, i: nat, e: CpuEnv, ws: seq<Write>)
    ensures CpuTrace(os, i, e, ws) == SetupTrace(os, i, e) + CpuStep(os, i, e, ws, 3)
  {
    assert CpuSteps(os, i, e, ws, 4) == [];
    assert CpuSteps(os, i, e, ws, 3) == CpuStep(os, i, e, ws, 3);
    assert CpuSteps(os, i, e, ws, 2) == CpuStep(os, i, e, ws, 2) + CpuSteps(os, i, e, ws, 3);
    assert CpuSteps(os, i, e, ws, 1) == CpuStep(os, i, e, ws, 1) + CpuSteps(os, i, e, ws, 2);
    StepsAssociate(CpuStep(os, i, e, ws, 0), CpuStep(os, i, e, ws, 1), CpuStep(os, i, e, ws, 2),
                   CpuStep(os, i, e, ws, 3));
  }

  lemma StepsAssociate(a: seq<Event>, b: seq<Event>, c: seq<Event>, d: seq<Event>)
    ensures a + (b + (c + d)) == a + b + c + d
  {
  }

  // What one processor, the heap and the regions are left as.
  function ModeAfter(os: Translation, e: CpuEnv): Mode {
    match StageOf(e)
    case NoVmxonMemory => Off
    case VmxonFailed => Off
    case NoVmcsMemory => Root(os.toPa(e.vmxonMemory.value), None)
    case FirstLoadFailed => Root(os.toPa(e.vmxonMemory.value), None)
    case ClearFailed => Root(os.toPa(e.vmxonMemory.value), Some(os.toPa(e.vmcsMemory.value)))
    case LoadFailed => Root(os.toPa(e.vmxonMemory.value), None)
    case LaunchRejected => Off
    case LaunchEntered => Guest(os.toPa(e.vmxonMemory.value), os.toPa(e.vmcsMemory.value))
    case LaunchEntryFailed => Root(os.toPa(e.vmxonMemory.value), Some(os.toPa(e.vmcsMemory.value)))
  }

  function NewRegion(e: CpuEnv): Region {
    Region(AllocationSize(e.vmxBasic), true, Word(Revision(e.vmxBasic)), Undefined, map[])
  }

  // The VMCS region, `written` being what the writers leave in the fields.
  function VmcsAfter(e: CpuEnv, written: Store): Region {
    match StageOf(e)
    case LoadFailed => NewRegion(e).(launch := Clear, fields := e.cleared)
    case LaunchRejected => NewRegion(e).(launch := Clear, fields := written)
    case LaunchEntered => NewRegion(e).(launch := Launched, fields := written)
    case LaunchEntryFailed => NewRegion(e).(launch := Clear, fields := written)
    case _ => NewRegion(e)
  }

  function WrittenFields(e: CpuEnv, ws: seq<Write>): Store { Apply(e.cleared, ws) }

  predicate ReachesVmcs(e: CpuEnv) {
    e.vmxonMemory.Some? && e.vmxon.Success? && e.vmcsMemory.Some?
  }

  function HeapAfter(heap: map<nat, Size>, e: CpuEnv): map<nat, Size> {
    var size := AllocationSize(e.vmxBasic);
    if e.vmxonMemory.None? then heap
    else if !ReachesVmcs(e) then heap[e.vmxonMemory.value := size]
    else heap[e.vmxonMemory.value := size][e.vmcsMemory.value := size]
  }

  function RegionsAfter(regions: map<nat, Region>, os: Translation, e: CpuEnv, written: Store): map<nat, Region> {
    if e.vmxonMemory.None? then regions
    else if !ReachesVmcs(e) then regions[os.toPa(e.vmxonMemory.value) := NewRegion(e)]
    else regions[os.toPa(e.vmxonMemory.value) := NewRegion(e)][os.toPa(e.vmcsMemory.value) := VmcsAfter(e, written)]
  }

  predicate CanVmxon(featureControl: bv64) { Locked(featureControl) && VmxonEnabled(featureControl) }

  ghost function After(m: Machine, i: nat, e: CpuEnv, written: Store): Machine
    requires i < |m.cpus|
  {
    m.(
      cpus := m.cpus[i := m.cpus[i].(cr4 := EnabledCr4(e.cr4), mode := ModeAfter(m.os, e))],
      on := i,
      heap := HeapAfter(m.heap, e),
      regions := RegionsAfter(m.regions, m.os, e, written),
      running := !StageOf(e).Leaves())
  }

  // VP_DATA, as far as bring-up uses it.
  datatype VpData = VpData(vmxonPad: nat, vmxon: nat, vmcsPad: nat, vmcs: nat, msrBitmapPad: nat)

  const ZERO_SLOT := VpData(0, 0, 0, 0, 0)

  // The slot bring-up of one processor leaves behind, its MSR bitmap being at bitmap.
  function SlotAfter(os: Translation, e: CpuEnv, bitmap: nat): VpData {
    if e.vmxonMemory.None? then ZERO_SLOT
    else
      var s := ZERO_SLOT.(vmxonPad := os.toPa(e.vmxonMemory.value), vmxon := e.vmxonMemory.value);
      if !e.vmxon.Success? then s
      else if e.vmcsMemory.None? then s.(msrBitmapPad := os.toPa(bitmap))
      else s.(vmcsPad := os.toPa(e.vmcsMemory.value), vmcs := e.vmcsMemory.value, msrBitmapPad := os.toPa(bitmap))
  }

  // Bring-up of processor i can start.
  ghost predicate Startable(m: Machine, i: nat, e: CpuEnv) {
    && m.running && m.on < |m.cpus| && i < |m.cpus|
    && m.cpus[i].mode.Off?
    && m.cpus[i].vmxBasic == e.vmxBasic
    && (e.vmxonMemory.Some? ==> m.os.toPa(e.vmxonMemory.value) % PAGE_SIZE == 0)
    && (e.vmcsMemory.Some? ==> m.os.toPa(e.vmcsMemory.value) % PAGE_SIZE == 0)
    && (e.vmxonMemory.Some? && e.vmcsMemory.Some? ==>
          m.os.toPa(e.vmxonMemory.value) != m.os.toPa(e.vmcsMemory.value))
  }

  // The two things the loop body takes for granted: that its mask binds it to processor i,
  // and that VMXON is enabled there.
  ghost predicate MayTurn(m: Machine, i: nat, e: CpuEnv)
    requires i < |m.cpus|
  {
    HasMask(i, |m.cpus|) && (e.vmxonMemory.Some? ==> CanVmxon(m.cpus[i].featureControl))
  }

  // Bring-up of processor i can start and go through.
  ghost predicate Ready(m: Machine, i: nat, e: CpuEnv) {
    Startable(m, i, e) && MayTurn(m, i, e)
  }

  lemma PinAndEnable(m: Machine, i: nat, e: CpuEnv)
    requires Startable(m, i, e) && HasMask(i, |m.cpus|)
    ensures Run(m, [Pin(PinMask(i))] + EnableTrace(e)) == Enabled(m, i, e)
  {
    PinMaskSelects(i, |m.cpus|);
    assert [Pin(PinMask(i))] + EnableTrace(e) == [Pin(PinMask(i)), WriteCr4(EnabledCr4(e.cr4))];
    Run2(m, Pin(PinMask(i)), WriteCr4(EnabledCr4(e.cr4)));
  }

  // The state after a region has been allocated, cleared and given its header.
  ghost function Prepared(m: Machine, va: nat, e: CpuEnv): Machine {
    m.(heap := m.heap[va := AllocationSize(e.vmxBasic)], regions := m.regions[m.os.toPa(va) := NewRegion(e)])
  }

  // ... and on the way there.
  ghost function WithRegion(m: Machine, va: nat, size: Size, r: Region): Machine {
    m.(heap := m.heap[va := size], regions := m.regions[m.os.toPa(va) := r])
  }

  lemma AllocateStep(m: Machine, va: nat, size: Size)
    requires m.running && m.on < |m.cpus|
    ensures Step(m, Allocate(size, Some(va))) == WithRegion(m, va, size, Region(size, false, Garbage, Undefined, map[]))
  {
  }

  lemma ZeroStep(m: Machine, va: nat, size: Size, r: Region)
    requires m.running && m.on < |m.cpus|
    ensures Step(WithRegion(m, va, size, r), Zero(va, size))
            == WithRegion(m, va, size, r.(zeroed := true, header := Word(0)))
  {
    assert Step(WithRegion(m, va, size, r), Zero(va, size)).regions
           == m.regions[m.os.toPa(va) := r.(zeroed := true, header := Word(0))];
  }

  lemma HeaderStep(m: Machine, va: nat, size: Size, r: Region, word: bv32)
    requires m.running && m.on < |m.cpus|
    ensures Step(WithRegion(m, va, size, r), WriteHeader(va, word)) == WithRegion(m, va, size, r.(header := Word(word)))
  {
    assert Step(WithRegion(m, va, size, r), WriteHeader(va, word)).regions
           == m.regions[m.os.toPa(va) := r.(header := Word(word))];
  }

  lemma PrepareRun(m: Machine, va: nat, e: CpuEnv, word: bv32)
    requires m.running && m.on < |m.cpus| && word == Revision(e.vmxBasic)
    ensures var size := AllocationSize(e.vmxBasic);
      Run(m, PrepareTrace(va, size, word)) == Prepared(m, va, e)
  {
    var size := AllocationSize(e.vmxBasic);
    var r := Region(size, false, Garbage, Undefined, map[]);
    Run3(m, Allocate(size, Some(va)), Zero(va, size), WriteHeader(va, word));
    AllocateStep(m, va, size);
    ZeroStep(m, va, size, r);
    HeaderStep(m, va, size, r.(zeroed := true, header := Word(0)), word);
  }

  ghost function WithMode(m: Machine, mode: Mode): Machine
    requires m.on < |m.cpus|
  {
    m.(cpus := m.cpus[m.on := m.cpus[m.on].(mode := mode)])
  }

  // The machine after AllocAndInitVmxonRegion on its current processor.
  ghost function AfterVmxon(m: Machine, e: CpuEnv): Machine
    requires m.on < |m.cpus|
  {
    match e.vmxonMemory
    case None => m
    case Some(va) =>
      var p := Prepared(m, va, e);
      if e.vmxon.Success? then WithMode(p, Root(m.os.toPa(va), None)) else p
  }

  lemma PreparedIsGood(m: Machine, c: Cpu, va: nat, e: CpuEnv)
    requires c.vmxBasic == e.vmxBasic && m.os.toPa(va) % PAGE_SIZE == 0
    ensures GoodRegion(Prepared(m, va, e), c, m.os.toPa(va))
  {
    AllocationFits(e.vmxBasic);
  }

  lemma VmxonStep(m: Machine, va: nat, e: CpuEnv)
    requires Ready(m, m.on, e) && Vmxe(m.cpus[m.on].cr4) && e.vmxonMemory == Some(va)
    ensures Step(Prepared(m, va, e), VmxOn(m.os.toPa(va), e.vmxon)) == AfterVmxon(m, e)
  {
    PreparedIsGood(m, m.cpus[m.on], va, e);
    assert Legal(Prepared(m, va, e), VmxOn(m.os.toPa(va), e.vmxon));
  }

  lemma VmxonRun(m: Machine, e: CpuEnv)
    requires m.running && m.on < |m.cpus| && Ready(m, m.on, e) && Vmxe(m.cpus[m.on].cr4)
    ensures Run(m, VmxonTrace(m.os, e)) == AfterVmxon(m, e)
  {
    match e.vmxonMemory
    case None => Run1(m, Allocate(AllocationSize(e.vmxBasic), None));
    case Some(va) =>
      var prepare := PrepareTrace(va, AllocationSize(e.vmxBasic), Revision(e.vmxBasic));
      PrepareRun(m, va, e, Revision(e.vmxBasic));
      RunSnoc(m, prepare, VmxOn(m.os.toPa(va), e.vmxon));
      VmxonStep(m, va, e);
  }

  // The machine after AllocAndInitVmcsRegion, the VMXON region being at vmxon.
  ghost function AfterVmcs(m: Machine, e: CpuEnv): Machine
    requires m.on < |m.cpus| && m.cpus[m.on].mode.Root?
  {
    match e.vmcsMemory
    case None => m
    case Some(va) =>
      var p := Prepared(m, va, e);
      if e.firstLoad.Success? then WithMode(p, Root(m.cpus[m.on].mode.vmxon, Some(m.os.toPa(va)))) else p
  }

  // The processor is in root operation with a VMXON region other than the VMCS to come.
  ghost predicate RootReady(m: Machine, e: CpuEnv) {
    && m.running && m.on < |m.cpus| && m.cpus[m.on].mode.Root?
    && m.cpus[m.on].vmxBasic == e.vmxBasic
    && (e.vmcsMemory.Some? ==>
          m.os.toPa(e.vmcsMemory.value) % PAGE_SIZE == 0 && m.os.toPa(e.vmcsMemory.value) != m.cpus[m.on].mode.vmxon)
  }

  lemma FirstLoadStep(m: Machine, va: nat, e: CpuEnv)
    requires RootReady(m, e) && e.vmcsMemory == Some(va)
    ensures Step(Prepared(m, va, e), VmPtrLd(m.os.toPa(va), e.firstLoad)) == AfterVmcs(m, e)
  {
    PreparedIsGood(m, m.cpus[m.on], va, e);
    assert Legal(Prepared(m, va, e), VmPtrLd(m.os.toPa(va), e.firstLoad));
  }

  lemma VmcsRun(m: Machine, e: CpuEnv)
    requires RootReady(m, e)
    ensures Run(m, VmcsTrace(m.os, e)) == AfterVmcs(m, e)
  {
    VmcsHeaderIsRevision(e.vmxBasic);
    match e.vmcsMemory
    case None => Run1(m, Allocate(AllocationSize(e.vmxBasic), None));
    case Some(va) =>
      var prepare := PrepareTrace(va, AllocationSize(e.vmxBasic), VmcsHeader(e.vmxBasic));
      PrepareRun(m, va, e, VmcsHeader(e.vmxBasic));
      RunSnoc(m, prepare, VmPtrLd(m.os.toPa(va), e.firstLoad));
      FirstLoadStep(m, va, e);
  }

  // The processor is in root operation with a prepared region as its current VMCS.
  ghost predicate VmcsReady(m: Machine, e: CpuEnv, vmxon: nat, pa: nat) {
    && m.running && m.on < |m.cpus|
    && m.cpus[m.on].mode == Root(vmxon, Some(pa)) && vmxon != pa
    && m.cpus[m.on].vmxBasic == e.vmxBasic
    && pa % PAGE_SIZE == 0 && pa in m.regions && m.regions[pa] == NewRegion(e)
  }

  ghost function WithVmcs(m: Machine, mode: Mode, pa: nat, r: Region): Machine
    requires m.on < |m.cpus|
  {
    WithMode(m, mode).(regions := m.regions[pa := r])
  }

  ghost function Cleared(e: CpuEnv): Region { NewRegion(e).(launch := Clear, fields := e.cleared) }

  lemma ClearStep(m: Machine, e: CpuEnv, vmxon: nat, pa: nat)
    requires VmcsReady(m, e, vmxon, pa)
    ensures Step(m, VmClear(pa, e.clear, e.cleared))
            == if e.clear.Success? then WithVmcs(m, Root(vmxon, None), pa, Cleared(e)) else m
  {
    AllocationFits(e.vmxBasic);
    assert Legal(m, VmClear(pa, e.clear, e.cleared));
  }

  lemma LoadStep(m: Machine, e: CpuEnv, vmxon: nat, pa: nat)
    requires VmcsReady(m, e, vmxon, pa)
    ensures Step(WithVmcs(m, Root(vmxon, None), pa, Cleared(e)), VmPtrLd(pa, e.load))
            == if e.load.Success? then WithVmcs(m, Root(vmxon, Some(pa)), pa, Cleared(e))
               else WithVmcs(m, Root(vmxon, None), pa, Cleared(e))
  {
    var c := WithVmcs(m, Root(vmxon, None), pa, Cleared(e));
    AllocationFits(e.vmxBasic);
    assert GoodRegion(c, c.cpus[c.on], pa);
    assert Legal(c, VmPtrLd(pa, e.load));
    assert WithMode(c, Root(vmxon, Some(pa))).cpus == WithMode(m, Root(vmxon, Some(pa))).cpus;
  }

  ghost function Written(e: CpuEnv, written: Store): Region {
    NewRegion(e).(launch := Clear, fields := written)
  }

  lemma WritesRun(m: Machine, e: CpuEnv, ws: seq<Write>, vmxon: nat, pa: nat)
    requires VmcsReady(m, e, vmxon, pa)
    ensures Run(WithVmcs(m, Root(vmxon, Some(pa)), pa, Cleared(e)), WriteEvents(ws))
            == Launching(m, e, Apply(e.cleared, ws), vmxon, pa)
  {
    var c := WithVmcs(m, Root(vmxon, Some(pa)), pa, Cleared(e));
    assert ClearCurrent(c, c.cpus[c.on]);
    RunWrites(c, ws);
    SameRegionTwice(m.regions, pa, Cleared(e), Cleared(e).(fields := Apply(e.cleared, ws)));
  }

  lemma SameRegionTwice(regions: map<nat, Region>, pa: nat, r: Region, s: Region)
    ensures regions[pa := r][pa := s] == regions[pa := s]
  {
  }

  ghost function Launching(m: Machine, e: CpuEnv, written: Store, vmxon: nat, pa: nat): Machine
    requires m.on < |m.cpus|
  {
    WithVmcs(m, Root(vmxon, Some(pa)), pa, Written(e, written))
  }

  ghost function AfterLaunch(m: Machine, e: CpuEnv, written: Store, vmxon: nat, pa: nat): Machine
    requires m.on < |m.cpus|
  {
    match e.launch
    case Rejected(_) => WithVmcs(m, Off, pa, Written(e, written))
    case Entered => WithVmcs(m, Guest(vmxon, pa), pa, Written(e, written).(launch := Launched)).(running := false)
    case EntryFailed => Launching(m, e, written, vmxon, pa).(running := false)
  }

  lemma LaunchStep(m: Machine, vmxon: nat, pa: nat, r: Region, outcome: LaunchOutcome)
    requires m.running && m.on < |m.cpus| && r.launch.Clear?
    ensures Step(WithVmcs(m, Root(vmxon, Some(pa)), pa, r), VmLaunch(outcome))
            == match outcome
               case Rejected(_) => WithVmcs(m, Root(vmxon, Some(pa)), pa, r)
               case Entered => WithVmcs(m, Guest(vmxon, pa), pa, r.(launch := Launched)).(running := false)
               case EntryFailed => WithVmcs(m, Root(vmxon, Some(pa)), pa, r).(running := false)
  {
    var c := WithVmcs(m, Root(vmxon, Some(pa)), pa, r);
    assert ClearCurrent(c, c.cpus[c.on]);
    SameRegionTwice(m.regions, pa, r, r.(launch := Launched));
    assert WithMode(c, Guest(vmxon, pa)).cpus == WithMode(m, Guest(vmxon, pa)).cpus;
  }

  lemma OffStep(m: Machine, vmxon: nat, pa: nat, r: Region)
    requires m.running && m.on < |m.cpus|
    ensures Step(WithVmcs(m, Root(vmxon, Some(pa)), pa, r), VmRead(Fields.VM_INSTRUCTION_ERR))
            == WithVmcs(m, Root(vmxon, Some(pa)), pa, r)
    ensures Step(WithVmcs(m, Root(vmxon, Some(pa)), pa, r), VmxOff) == WithVmcs(m, Off, pa, r)
  {
    var c := WithVmcs(m, Root(vmxon, Some(pa)), pa, r);
    assert Step(c, VmxOff).cpus == WithVmcs(m, Off, pa, r).cpus;
  }

  lemma LaunchRun(m: Machine, e: CpuEnv, written: Store, vmxon: nat, pa: nat)
    requires VmcsReady(m, e, vmxon, pa)
    ensures Run(Launching(m, e, written, vmxon, pa), LaunchTrace(e)) == AfterLaunch(m, e, written, vmxon, pa)
  {
    var c := Launching(m, e, written, vmxon, pa);
    LaunchStep(m, vmxon, pa, Written(e, written), e.launch);
    if e.launch.Rejected? {
      Run3(c, VmLaunch(e.launch), VmRead(Fields.VM_INSTRUCTION_ERR), VmxOff);
      OffStep(m, vmxon, pa, Written(e, written));
    } else {
      Run1(c, VmLaunch(e.launch));
    }
  }

  // The machine after InitializeVMCS on its current processor.
  ghost function AfterInitialize(m: Machine, e: CpuEnv, written: Store, vmxon: nat, pa: nat): Machine
    requires m.on < |m.cpus|
  {
    if !e.clear.Success? then m
    else if !e.load.Success? then WithVmcs(m, Root(vmxon, None), pa, Cleared(e))
    else AfterLaunch(m, e, written, vmxon, pa)
  }

  lemma InitializeRun(m: Machine, e: CpuEnv, ws: seq<Write>, vmxon: nat, pa: nat)
    requires VmcsReady(m, e, vmxon, pa)
    ensures Run(m, InitializeVmcsTrace(pa, e, ws)) == AfterInitialize(m, e, WrittenFields(e, ws), vmxon, pa)
  {
    var clear, load := VmClear(pa, e.clear, e.cleared), VmPtrLd(pa, e.load);
    ClearStep(m, e, vmxon, pa);
    if !e.clear.Success? {
      Run1(m, clear);
    } else {
      Run2(m, clear, load);
      LoadStep(m, e, vmxon, pa);
      if e.load.Success? {
        RunConcat(m, [clear, load], WriteEvents(ws));
        RunConcat(m, [clear, load] + WriteEvents(ws), LaunchTrace(e));
        WritesRun(m, e, ws, vmxon, pa);
        LaunchRun(m, e, Apply(e.cleared, ws), vmxon, pa);
      }
    }
  }

  // The machine after the setup half of the loop body.
  ghost function Enabled(m: Machine, i: nat, e: CpuEnv): Machine
    requires i < |m.cpus|
  {
    m.(on := i, cpus := m.cpus[i := m.cpus[i].(cr4 := EnabledCr4(e.cr4))])
  }

  ghost function AfterSetup(m: Machine, i: nat, e: CpuEnv): Machine
    requires Ready(m, i, e)
  {
    var m2 := AfterVmxon(Enabled(m, i, e), e);
    if StageOf(e).NoVmxonMemory? || StageOf(e).VmxonFailed? then m2 else AfterVmcs(m2, e)
  }

  lemma SetupRun(m: Machine, i: nat, e: CpuEnv)
    requires Ready(m, i, e)
    ensures Run(m, SetupTrace(m.os, i, e)) == AfterSetup(m, i, e)
  {
    var pinned := [Pin(PinMask(i))] + EnableTrace(e);
    PinAndEnable(m, i, e);
    EnabledCr4HasVmxe(e.cr4);
    RunConcat(m, pinned, VmxonTrace(m.os, e));
    VmxonRun(Enabled(m, i, e), e);
    if StageOf(e).NoVmxonMemory? || StageOf(e).VmxonFailed? {
      assert SetupTrace(m.os, i, e) == pinned + VmxonTrace(m.os, e);
    } else {
      RunConcat(m, pinned + VmxonTrace(m.os, e), VmcsTrace(m.os, e));
      VmcsRun(AfterVmxon(Enabled(m, i, e), e), e);
    }
  }

  lemma SetupEarly(m: Machine, i: nat, e: CpuEnv, written: Store)
    requires Ready(m, i, e) && (StageOf(e).NoVmxonMemory? || StageOf(e).VmxonFailed?)
    ensures AfterSetup(m, i, e) == After(m, i, e, written)
  {
    assert m.cpus[i].(cr4 := EnabledCr4(e.cr4)) == m.cpus[i].(cr4 := EnabledCr4(e.cr4), mode := Off);
  }

  // After a successful VMXON and an allocation attempt for the VMCS.
  ghost function RootSetup(m: Machine, i: nat, e: CpuEnv, current: Option<nat>): Machine
    requires i < |m.cpus| && e.vmxonMemory.Some?
  {
    var vmxon := m.os.toPa(e.vmxonMemory.value);
    m.(on := i,
       cpus := m.cpus[i := m.cpus[i].(cr4 := EnabledCr4(e.cr4), mode := Root(vmxon, current))],
       heap := HeapAfter(m.heap, e),
       regions := (var r := m.regions[vmxon := NewRegion(e)];
                   if e.vmcsMemory.None? then r else r[m.os.toPa(e.vmcsMemory.value) := NewRegion(e)]))
  }

  lemma SetupRoot(m: Machine, i: nat, e: CpuEnv)
    requires Ready(m, i, e) && e.vmxonMemory.Some? && e.vmxon.Success?
    ensures AfterSetup(m, i, e) == RootSetup(m, i, e,
      if e.vmcsMemory.Some? && e.firstLoad.Success? then Some(m.os.toPa(e.vmcsMemory.value)) else None)
  {
    var vmxon := m.os.toPa(e.vmxonMemory.value);
    var m2 := AfterVmxon(Enabled(m, i, e), e);
    assert m2.cpus == m.cpus[i := m.cpus[i].(cr4 := EnabledCr4(e.cr4), mode := Root(vmxon, None))];
    if e.vmcsMemory.Some? && e.firstLoad.Success? {
      assert AfterVmcs(m2, e).cpus
        == m.cpus[i := m.cpus[i].(cr4 := EnabledCr4(e.cr4), mode := Root(vmxon, Some(m.os.toPa(e.vmcsMemory.value))))];
    }
  }

  lemma SetupBreaks(m: Machine, i: nat, e: CpuEnv, written: Store)
    requires Ready(m, i, e) && StageOf(e).Breaks()
    ensures AfterSetup(m, i, e) == After(m, i, e, written)
  {
    if StageOf(e).NoVmxonMemory? || StageOf(e).VmxonFailed? {
      SetupEarly(m, i, e, written);
    } else {
      SetupRoot(m, i, e);
    }
  }

  lemma SetupContinues(m: Machine, i: nat, e: CpuEnv, written: Store)
    requires Ready(m, i, e) && !StageOf(e).Breaks()
    ensures var vmxon, pa, s := m.os.toPa(e.vmxonMemory.value), m.os.toPa(e.vmcsMemory.value), AfterSetup(m, i, e);
      VmcsReady(s, e, vmxon, pa) && AfterInitialize(s, e, written, vmxon, pa) == After(m, i, e, written)
  {
    var vmxon, pa := m.os.toPa(e.vmxonMemory.value), m.os.toPa(e.vmcsMemory.value);
    SetupRoot(m, i, e);
    InitializeAfterRoot(m, i, e, written, vmxon, pa);
  }

  lemma InitializeAfterRoot(m: Machine, i: nat, e: CpuEnv, written: Store, vmxon: nat, pa: nat)
    requires Ready(m, i, e) && !StageOf(e).Breaks()
    requires vmxon == m.os.toPa(e.vmxonMemory.value) && pa == m.os.toPa(e.vmcsMemory.value)
    ensures AfterInitialize(RootSetup(m, i, e, Some(pa)), e, written, vmxon, pa) == After(m, i, e, written)
  {
    var regions := m.regions[vmxon := NewRegion(e)];
    CpuUpdate(m.cpus, i, EnabledCr4(e.cr4), Root(vmxon, Some(pa)), ModeAfter(m.os, e));
    SameRegionTwice(regions, pa, NewRegion(e), VmcsAfter(e, written));
    InitializeIs(RootSetup(m, i, e, Some(pa)), e, written, vmxon, pa, ModeAfter(m.os, e));
  }

  // InitializeVMCS changes the mode, the VMCS region and whether the driver still runs.
  lemma InitializeIs(s: Machine, e: CpuEnv, written: Store, vmxon: nat, pa: nat, mode: Mode)
    requires s.running && s.on < |s.cpus| && !StageOf(e).Breaks()
    requires vmxon == s.os.toPa(e.vmxonMemory.value) && pa == s.os.toPa(e.vmcsMemory.value)
    requires s.cpus[s.on].mode == Root(vmxon, Some(pa)) && pa in s.regions && s.regions[pa] == NewRegion(e)
    requires mode == ModeAfter(s.os, e)
    ensures AfterInitialize(s, e, written, vmxon, pa)
            == s.(cpus := s.cpus[s.on := s.cpus[s.on].(mode := mode)],
                  regions := s.regions[pa := VmcsAfter(e, written)],
                  running := !StageOf(e).Leaves())
  {
    if !e.clear.Success? {
      assert s.cpus[s.on].(mode := mode) == s.cpus[s.on];
      assert s.cpus[s.on := s.cpus[s.on]] == s.cpus;
      assert s.regions[pa := s.regions[pa]] == s.regions;
    }
  }

  lemma CpuUpdate(cpus: seq<Cpu>, i: nat, cr4: bv64, mode: Mode, mode': Mode)
    requires i < |cpus|
    ensures cpus[i := cpus[i].(cr4 := cr4, mode := mode)][i := cpus[i].(cr4 := cr4, mode := mode').(mode := mode')]
            == cpus[i := cpus[i].(cr4 := cr4, mode := mode')]
  {
  }

  /** Bring-up of one processor, for every outcome of its steps: the machine it leaves. */
  lemma CpuRun(m: Machine, i: nat, e: CpuEnv, ws: seq<Write>)
    requires Ready(m, i, e)
    ensures Run(m, CpuTrace(m.os, i, e, ws)) == After(m, i, e, WrittenFields(e, ws))
  {
    SetupFirst(m.os, i, e, ws);
    SetupRun(m, i, e);
    if StageOf(e).Breaks() {
      SetupBreaks(m, i, e, WrittenFields(e, ws));
      assert CpuTrace(m.os, i, e, ws) == SetupTrace(m.os, i, e);
    } else {
      var vmxon, pa := m.os.toPa(e.vmxonMemory.value), m.os.toPa(e.vmcsMemory.value);
      SetupContinues(m, i, e, WrittenFields(e, ws));
      RunConcat(m, SetupTrace(m.os, i, e), InitializeVmcsTrace(pa, e, ws));
      InitializeRun(AfterSetup(m, i, e), e, ws, vmxon, pa);
    }
  }

  // Where the loop body stops when one of the two things it takes for granted is not so.
  ghost function Faulted(m: Machine, i: nat, e: CpuEnv): Machine
    requires i < |m.cpus| && !MayTurn(m, i, e)
  {
    if !HasMask(i, |m.cpus|) then Fault(m.(on := |m.cpus|))
    else Fault(Prepared(Enabled(m, i, e), e.vmxonMemory.value, e))
  }

  lemma PinFaults(m: Machine, i: nat, e: CpuEnv, ws: seq<Write>)
    requires Startable(m, i, e) && !HasMask(i, |m.cpus|)
    ensures Run(m, CpuTrace(m.os, i, e, ws)) == Fault(m.(on := |m.cpus|))
  {
    UnboundFaults(m, i, EnabledCr4(e.cr4));
    StepsFromPin(m.os, i, e, ws);
    StoppedRun(m, [Pin(PinMask(i)), WriteCr4(EnabledCr4(e.cr4))], Fault(m.(on := |m.cpus|)),
               CpuSteps(m.os, i, e, ws, 1));
  }

  lemma UnboundFaults(m: Machine, i: nat, cr4: bv64)
    requires m.running && m.on < |m.cpus| && i < |m.cpus| && !HasMask(i, |m.cpus|)
    ensures Run(m, [Pin(PinMask(i)), WriteCr4(cr4)]) == Fault(m.(on := |m.cpus|))
  {
    PinMaskSelects(i, |m.cpus|);
    Run2(m, Pin(PinMask(i)), WriteCr4(cr4));
  }

  lemma StepsFromPin(os: Translation, i: nat, e: CpuEnv, ws: seq<Write>)
    ensures CpuTrace(os, i, e, ws) == [Pin(PinMask(i)), WriteCr4(EnabledCr4(e.cr4))] + CpuSteps(os, i, e, ws, 1)
  {
    assert [Pin(PinMask(i))] + EnableTrace(e) == [Pin(PinMask(i)), WriteCr4(EnabledCr4(e.cr4))];
  }

  lemma VmxonIllegal(m: Machine, va: nat, e: CpuEnv)
    requires m.on < |m.cpus| && !CanVmxon(m.cpus[m.on].featureControl)
    ensures !Legal(Prepared(m, va, e), VmxOn(m.os.toPa(va), e.vmxon))
  {
  }

  lemma VmxonFaults(m: Machine, va: nat, e: CpuEnv)
    requires m.running && m.on < |m.cpus| && e.vmxonMemory == Some(va) && !CanVmxon(m.cpus[m.on].featureControl)
    ensures Run(m, VmxonTrace(m.os, e)) == Fault(Prepared(m, va, e))
  {
    var prepare := PrepareTrace(va, AllocationSize(e.vmxBasic), Revision(e.vmxBasic));
    PrepareRun(m, va, e, Revision(e.vmxBasic));
    VmxonIllegal(m, va, e);
    FaultingRun(m, prepare, Prepared(m, va, e), VmxOn(m.os.toPa(va), e.vmxon));
  }

  /** Bring-up of a processor the mask does not bind to, or on which VMXON is not enabled, goes
      as far as the CR4 write, made on no single processor, or the VMXON of a prepared region. */
  lemma CpuFaults(m: Machine, i: nat, e: CpuEnv, ws: seq<Write>)
    requires Startable(m, i, e) && !MayTurn(m, i, e)
    ensures Run(m, CpuTrace(m.os, i, e, ws)) == Faulted(m, i, e)
  {
    if !HasMask(i, |m.cpus|) {
      PinFaults(m, i, e, ws);
    } else {
      var pinned, r := [Pin(PinMask(i))] + EnableTrace(e), Enabled(m, i, e);
      PinAndEnable(m, i, e);
      VmxonFaults(r, e.vmxonMemory.value, e);
      RunConcat(m, pinned, VmxonTrace(m.os, e));
      assert CpuTrace(m.os, i, e, ws) == pinned + CpuSteps(m.os, i, e, ws, 1);
      StepsFromVmxon(m.os, i, e, ws, pinned);
      StoppedRun(m, pinned + VmxonTrace(m.os, e), Faulted(m, i, e), CpuSteps(m.os, i, e, ws, 2));
    }
  }

  lemma StepsFromVmxon(os: Translation, i: nat, e: CpuEnv, ws: seq<Write>, pinned: seq<Event>)
    ensures pinned + CpuSteps(os, i, e, ws, 1) == pinned + VmxonTrace(os, e) + CpuSteps(os, i, e, ws, 2)
  {
  }

  /** A rejected VMLAUNCH is answered by reading the VM-instruction error, at encoding 0x4400, and
      only then by VMXOFF. */
  lemma RejectedEnd(os: Translation, i: nat, e: CpuEnv, ws: seq<Write>)
    returns (before: seq<Event>, f: Fields.Component)
    requires StageOf(e).LaunchRejected?
    ensures CpuTrace(os, i, e, ws) == before + [VmLaunch(e.launch), VmRead(f), VmxOff]
    ensures Fields.EncodedAs(f, 0x4400)
  {
    SetupFirst(os, i, e, ws);
    Fields.ControlEncodings();
    f := Fields.VM_INSTRUCTION_ERR;
    var pa := os.toPa(e.vmcsMemory.value);
    var fill := [VmClear(pa, e.clear, e.cleared), VmPtrLd(pa, e.load)] + WriteEvents(ws);
    before := SetupTrace(os, i, e) + fill;
    assert LaunchTrace(e) == [VmLaunch(e.launch), VmRead(f), VmxOff];
    EndOf(SetupTrace(os, i, e), fill, LaunchTrace(e));
  }

  lemma EndOf(a: seq<Event>, b: seq<Event>, c: seq<Event>)
    ensures a + (b + c) == a + b + c
  {
  }
}
