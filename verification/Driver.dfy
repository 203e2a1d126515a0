// The driver itself: `InitHv` and `HvClose` (hv/src/main.c) and the functions of
// hv/src/vmx.c they call. Each method acts on the machine only through `Emit`, so its
// contract is the trace it appends to the log.
module Driver {
  import opened Power
  import opened Machine
  import opened NtStatus
  import opened VmcsStore
  import opened Fields
  import opened BringUp
  import opened Runs
  import opened Teardown
  import Controls
  import Selectors
  import StateArea
  import Util

  lemma SlotsNext(os: Translation, env: Env, i: nat)
    requires env.pool.Some? && i < |env.cpus|
    ensures SlotsAfter(os, env, i)[i] == ZERO_SLOT
    ensures SlotsAfter(os, env, i + 1)
            == SlotsAfter(os, env, i)[i := SlotAfter(os, env.cpus[i], env.layout.Bitmap(env.pool.value, i))]
  {
  }

  lemma CpuAt(env: Env, i: nat)
    requires i < |env.cpus|
    ensures WritesOf(env)[i] == CpuWrites(env.cpus[i], Rsp(env, i))
    ensures Stages(env.cpus)[i] == StageOf(env.cpus[i]) && Statuses(env.cpus)[i] == StageStatus(env.cpus[i])
  {
  }

  // The stages that bring-up of each processor reaches, and the statuses it ends with.
  ghost function Stages(cpus: seq<CpuEnv>): (stages: seq<Stage>)
    ensures |stages| == |cpus|
  {
    seq(|cpus|, i requires 0 <= i < |cpus| => StageOf(cpus[i]))
  }

  ghost function Statuses(cpus: seq<CpuEnv>): (statuses: seq<int>)
    ensures |statuses| == |cpus|
  {
    seq(|cpus|, i requires 0 <= i < |cpus| => StageStatus(cpus[i]))
  }

  // What the loop of InitHv has put in the slots and, since start, in the log after k turns.
  ghost predicate Turned(os: Translation, env: Env, start: seq<Event>, k: nat, slots: seq<VpData>, log: seq<Event>) {
    && k <= |env.cpus| && env.pool.Some?
    && slots == SlotsAfter(os, env, k)
    && log == start + LoopTrace(os, env.cpus, WritesOf(env), k)
  }

  // None of the first k processors stops the loop.
  ghost predicate Unstopped(stages: seq<Stage>, k: nat)
    requires k <= |stages|
  {
    forall j :: 0 <= j < k ==> !stages[j].Stops()
  }

  // The loop of InitHv has visited k processors, and the last one ended it if `stop` or
  // `left`.
  ghost predicate Looping(stages: seq<Stage>, statuses: seq<int>, k: nat, status: int, stop: bool, left: bool)
    requires |stages| == |statuses|
  {
    && k <= |stages|
    && (k > 0 ==> Unstopped(stages, k - 1))
    && stop == (k > 0 && stages[k - 1].Breaks())
    && left == (k > 0 && stages[k - 1].Leaves())
    && (!left ==> status == if k == 0 then STATUS_SUCCESS else statuses[k - 1])
  }

  // Both, for the loop of InitHv at work.
  ghost predicate InLoop(os: Translation, env: Env, start: seq<Event>, k: nat, slots: seq<VpData>, log: seq<Event>,
                         status: int, stop: bool, left: bool)
  {
    && Turned(os, env, start, k, slots, log)
    && Looping(Stages(env.cpus), Statuses(env.cpus), k, status, stop, left)
  }

  lemma LoopingNext(stages: seq<Stage>, statuses: seq<int>, k: nat, earlier: int, status: int, stop: bool, left: bool)
    requires k < |stages| == |statuses| && Looping(stages, statuses, k, earlier, false, false)
    requires stop == stages[k].Breaks() && left == stages[k].Leaves() && (!left ==> status == statuses[k])
    ensures Looping(stages, statuses, k + 1, status, stop, left)
  {
  }

  lemma InLoopAt(os: Translation, env: Env, start: seq<Event>, i: nat, slots: seq<VpData>, log: seq<Event>, status: int)
    requires i < |env.cpus| && InLoop(os, env, start, i, slots, log, status, false, false)
    ensures env.pool.Some? && |slots| == |env.cpus| && slots[i] == ZERO_SLOT
  {
    SlotsNext(os, env, i);
  }

  lemma InLoopNext(os: Translation, env: Env, start: seq<Event>, i: nat, slots: seq<VpData>, log: seq<Event>,
                   earlier: int, next: nat, slots': seq<VpData>, log': seq<Event>, status: int, stop: bool, left: bool)
    requires next == i + 1 <= |env.cpus| == |slots| && InLoop(os, env, start, i, slots, log, earlier, false, false)
    requires slots' == slots[i := SlotAfter(os, env.cpus[i], env.layout.Bitmap(env.pool.value, i))]
    requires log' == log + CpuTrace(os, i, env.cpus[i], CpuWrites(env.cpus[i], Rsp(env, i)))
    requires stop == StageOf(env.cpus[i]).Breaks() && left == StageOf(env.cpus[i]).Leaves()
    requires !left ==> status == StageStatus(env.cpus[i])
    ensures InLoop(os, env, start, next, slots', log', status, stop, left)
  {
    SlotsNext(os, env, i);
    CpuAt(env, i);
    LoopTraceNext(os, env.cpus, WritesOf(env), i, start, log, log');
    LoopingNext(Stages(env.cpus), Statuses(env.cpus), i, earlier, status, stop, left);
  }

  // What InitHv returns once its loop has ended after k processors.
  ghost predicate Ended(env: Env, k: nat, status: int, left: bool) {
    && k == Visited(env.cpus)
    && left == (|env.cpus| > 0 && LastStage(env).Leaves())
    && (!left && Supported(env) ==> status == InitStatus(env))
  }

  lemma LoopingEnds(env: Env, k: nat, status: int, stop: bool, left: bool)
    requires Looping(Stages(env.cpus), Statuses(env.cpus), k, status, stop, left)
    requires k < |env.cpus| ==> stop || left
    ensures Ended(env, k, status, left)
  {
    var cpus := env.cpus;
    forall j | 0 <= j < k - 1 ensures !StageOf(cpus[j]).Stops() { assert !Stages(cpus)[j].Stops(); }
    VisitedAt(cpus, if stop || left then k - 1 else k);
  }

  lemma LoopTraceNext(os: Translation, cpus: seq<CpuEnv>, wss: seq<seq<Write>>, i: nat,
                      start: seq<Event>, before: seq<Event>, after: seq<Event>)
    requires i < |cpus| == |wss|
    requires before == start + LoopTrace(os, cpus, wss, i)
    requires after == before + CpuTrace(os, i, cpus[i], wss[i])
    ensures after == start + LoopTrace(os, cpus, wss, i + 1)
  {
    JoinTwo(start, LoopTrace(os, cpus, wss, i), before, CpuTrace(os, i, cpus[i], wss[i]), after);
    assert CpuTraces(os, cpus, wss)[i] == CpuTrace(os, i, cpus[i], wss[i]);
  }

  lemma JoinTwo(start: seq<Event>, es: seq<Event>, before: seq<Event>, fs: seq<Event>, after: seq<Event>)
    requires before == start + es && after == before + fs
    ensures after == start + (es + fs)
  {
  }

  lemma SetupOnly(os: Translation, i: nat, e: CpuEnv, ws: seq<Write>)
    requires StageOf(e).Breaks()
    ensures CpuTrace(os, i, e, ws) == SetupTrace(os, i, e)
  {
    SetupFirst(os, i, e, ws);
  }

  lemma SetupThenInitialize(os: Translation, i: nat, e: CpuEnv, ws: seq<Write>,
                           start: seq<Event>, middle: seq<Event>, after: seq<Event>)
    requires !StageOf(e).Breaks()
    requires middle == start + SetupTrace(os, i, e)
    requires after == middle + InitializeVmcsTrace(os.toPa(e.vmcsMemory.value), e, ws)
    ensures after == start + CpuTrace(os, i, e, ws)
  {
    SetupFirst(os, i, e, ws);
    JoinTwo(start, SetupTrace(os, i, e), middle, CpuStep(os, i, e, ws, 3), after);
  }

  lemma JoinLog(start: seq<Event>, a: Event, b: Event, es: seq<Event>, fs: seq<Event>)
    ensures start + [a] + [b] + es + fs == start + ([a, b] + es + fs)
  {
  }

  // What the two region functions return and store.
  function VmxonStatus(e: CpuEnv): int {
    if e.vmxonMemory.None? then STATUS_MEMORY_NOT_ALLOCATED
    else if !e.vmxon.Success? then STATUS_ILLEGAL_INSTRUCTION
    else STATUS_SUCCESS
  }

  function VmcsStatus(e: CpuEnv): int {
    if e.vmcsMemory.None? then STATUS_INSUFFICIENT_RESOURCES
    else if !e.firstLoad.Success? then STATUS_ILLEGAL_INSTRUCTION
    else STATUS_SUCCESS
  }

  function WithVmxon(os: Translation, slot: VpData, e: CpuEnv): VpData {
    if e.vmxonMemory.None? then slot
    else slot.(vmxon := e.vmxonMemory.value, vmxonPad := os.toPa(e.vmxonMemory.value))
  }

  function WithVmcsRegion(os: Translation, slot: VpData, e: CpuEnv): VpData {
    if e.vmcsMemory.None? then slot
    else slot.(vmcs := e.vmcsMemory.value, vmcsPad := os.toPa(e.vmcsMemory.value))
  }

  // What InitializeVMCS returns.
  function InitializeStatus(e: CpuEnv): int {
    if !e.clear.Success? then e.clear.Code()
    else if !e.load.Success? then e.load.Code()
    else if e.launch.Rejected? then RejectedStatus(e.launch.invalid).Code()
    else STATUS_SUCCESS
  }

  // If ws had been written since `start`, and then exactly vs, then ws + vs has been.
  lemma Extend(start: seq<Event>, ws: seq<Write>, before: seq<Event>, vs: seq<Write>, after: seq<Event>)
    requires before == start + WriteEvents(ws) && after == before + WriteEvents(vs)
    ensures after == start + WriteEvents(ws + vs)
  {
    assert WriteEvents(ws) + WriteEvents(vs) == WriteEvents(ws + vs);
  }

  class Driver {
    const os: Translation
    ghost var log: seq<Event>
    var VmmState: array?<VpData>

    constructor (os: Translation)
      ensures this.os == os && log == [] && VmmState == null
    {
      this.os := os;
      log := [];
      VmmState := null;
    }

    method Emit(e: Event)
      modifies this`log
      ensures log == old(log) + [e]
    {
      log := log + [e];
    }

    method VmWrite(field: Component, value: Cell)
      modifies this`log
      ensures log == old(log) + [Event.VmWrite(Write(field, value))]
    {
      Emit(Event.VmWrite(Write(field, value)));
    }

    method WriteGuestRegisters(c: StateArea.Capture, cr4: Cell)
      modifies this`log
      ensures log == old(log) + WriteEvents(StateArea.GuestRegisters(c, cr4))
    {
      VmWrite(GUEST_CR0, c.cr0);
      VmWrite(GUEST_CR3, c.cr3);
      VmWrite(GUEST_CR4, cr4);
      VmWrite(GUEST_DR7, c.dr7);
      VmWrite(GUEST_RIP, c.restoreAfterLaunch);
      VmWrite(GUEST_RSP, StateArea.ZERO);
      VmWrite(GUEST_RFLAGS, c.rflags);
    }

    method WriteGuestSelectors(s: StateArea.VmxSelectors)
      modifies this`log
      ensures log == old(log) + WriteEvents(StateArea.GuestSelectors(s))
    {
      VmWrite(GUEST_CS_SELECTOR, s.cs.selector);
      VmWrite(GUEST_SS_SELECTOR, s.ss.selector);
      VmWrite(GUEST_DS_SELECTOR, s.ds.selector);
      VmWrite(GUEST_ES_SELECTOR, s.es.selector);
      VmWrite(GUEST_FS_SELECTOR, s.fs.selector);
      VmWrite(GUEST_GS_SELECTOR, s.gs.selector);
      VmWrite(GUEST_LDTR_SELECTOR, s.ldtr.selector);
      VmWrite(GUEST_TR_SELECTOR, s.tr.selector);
    }

    method WriteGuestLimits(s: StateArea.VmxSelectors)
      modifies this`log
      ensures log == old(log) + WriteEvents(StateArea.GuestLimits(s))
    {
      VmWrite(GUEST_CS_LIMIT, s.cs.limit);
      VmWrite(GUEST_SS_LIMIT, s.ss.limit);
      VmWrite(GUEST_DS_LIMIT, s.ds.limit);
      VmWrite(GUEST_ES_LIMIT, s.es.limit);
      VmWrite(GUEST_FS_LIMIT, s.fs.limit);
      VmWrite(GUEST_GS_LIMIT, s.gs.limit);
      VmWrite(GUEST_LDTR_LIMIT, s.ldtr.limit);
      VmWrite(GUEST_TR_LIMIT, s.tr.limit);
    }

    method WriteGuestBases(c: StateArea.Capture, s: StateArea.VmxSelectors)
      modifies this`log
      ensures log == old(log) + WriteEvents(StateArea.GuestBases(c, s))
    {
      VmWrite(GUEST_CS_BASE, s.cs.base);
      VmWrite(GUEST_SS_BASE, s.ss.base);
      VmWrite(GUEST_DS_BASE, s.ds.base);
      VmWrite(GUEST_ES_BASE, s.es.base);
      VmWrite(GUEST_FS_BASE, c.fsBase);
      VmWrite(GUEST_GS_BASE, c.gsBase);
      VmWrite(GUEST_LDTR_BASE, s.ldtr.base);
      VmWrite(GUEST_TR_BASE, s.tr.base);
    }

    method WriteGuestRights(s: StateArea.VmxSelectors)
      modifies this`log
      ensures log == old(log) + WriteEvents(StateArea.GuestRights(s))
    {
      VmWrite(GUEST_CS_ACCESS_RIGHTS, s.cs.rights);
      VmWrite(GUEST_SS_ACCESS_RIGHTS, s.ss.rights);
      VmWrite(GUEST_DS_ACCESS_RIGHTS, s.ds.rights);
      VmWrite(GUEST_ES_ACCESS_RIGHTS, s.es.rights);
      VmWrite(GUEST_FS_ACCESS_RIGHTS, s.fs.rights);
      VmWrite(GUEST_GS_ACCESS_RIGHTS, s.gs.rights);
      VmWrite(GUEST_LDTR_ACCESS_RIGHTS, s.ldtr.rights);
      VmWrite(GUEST_TR_ACCESS_RIGHTS, s.tr.rights);
    }

    method WriteGuestTables(c: StateArea.Capture)
      modifies this`log
      ensures log == old(log) + WriteEvents(StateArea.GuestTables(c))
    {
      VmWrite(GUEST_GDTR_BASE, c.gdtrBase);
      VmWrite(GUEST_IDTR_BASE, c.idtrBase);
      VmWrite(GUEST_GDTR_LIMIT, c.gdtrLimit);
      VmWrite(GUEST_IDTR_LIMIT, c.idtrLimit);
    }

    method WriteGuestMsrs(c: StateArea.Capture)
      modifies this`log
      ensures log == old(log) + WriteEvents(StateArea.GuestMsrs(c))
    {
      VmWrite(GUEST_IA32_DEBUGCTL, LowHalf(c.debugCtl));
      VmWrite(GUEST_IA32_DEBUGCTL_HIGH, HighHalf(c.debugCtl));
      VmWrite(GUEST_IA32_SYSENTER_CS, c.sysenterCs);
      VmWrite(GUEST_IA32_SYSENTER_ESP, c.sysenterEsp);
      VmWrite(GUEST_IA32_SYSENTER_EIP, c.sysenterEip);
    }

    method WriteGuestNonRegister()
      modifies this`log
      ensures log == old(log) + WriteEvents(StateArea.GuestNonRegister())
    {
      VmWrite(GUEST_INTERRUPTIBILITY_STATE, StateArea.ZERO);
      VmWrite(GUEST_ACTIVITY_STATE, StateArea.ACTIVITY_STATE_ACTIVE);
      VmWrite(VMCS_LINK_POINTER, StateArea.NO_LINK);
    }

    // The guest-state area, one group of fields after another.
    method InitGuestStateArea(c: StateArea.Capture, cr4: Cell, s: StateArea.VmxSelectors)
      modifies this`log
      ensures log == old(log) + WriteEvents(StateArea.GuestWrites(c, cr4, s))
    {
      ghost var start := log;
      WriteGuestRegisters(c, cr4);
      ghost var ws, before := StateArea.GuestRegisters(c, cr4), log;
      WriteGuestSelectors(s);
      Extend(start, ws, before, StateArea.GuestSelectors(s), log);
      ws, before := ws + StateArea.GuestSelectors(s), log;
      WriteGuestLimits(s);
      Extend(start, ws, before, StateArea.GuestLimits(s), log);
      ws, before := ws + StateArea.GuestLimits(s), log;
      WriteGuestBases(c, s);
      Extend(start, ws, before, StateArea.GuestBases(c, s), log);
      ws, before := ws + StateArea.GuestBases(c, s), log;
      WriteGuestRights(s);
      Extend(start, ws, before, StateArea.GuestRights(s), log);
      ws, before := ws + StateArea.GuestRights(s), log;
      WriteGuestTables(c);
      Extend(start, ws, before, StateArea.GuestTables(c), log);
      ws, before := ws + StateArea.GuestTables(c), log;
      WriteGuestMsrs(c);
      Extend(start, ws, before, StateArea.GuestMsrs(c), log);
      ws, before := ws + StateArea.GuestMsrs(c), log;
      WriteGuestNonRegister();
      Extend(start, ws, before, StateArea.GuestNonRegister(), log);
    }

    method WriteHostRegisters(c: StateArea.Capture, cr4: Cell, rsp: Cell)
      modifies this`log
      ensures log == old(log) + WriteEvents(StateArea.HostRegisters(c, cr4, rsp))
    {
      VmWrite(HOST_CR0, c.cr0);
      VmWrite(HOST_CR3, c.cr3);
      VmWrite(HOST_CR4, cr4);
      VmWrite(HOST_RIP, c.vmExitStub);
      VmWrite(HOST_RSP, rsp);
    }

    method WriteHostSelectors(s: StateArea.VmxSelectors)
      modifies this`log
      ensures log == old(log) + WriteEvents(StateArea.HostSelectors(s))
    {
      VmWrite(HOST_CS_SELECTOR, s.cs.host);
      VmWrite(HOST_SS_SELECTOR, s.ss.host);
      VmWrite(HOST_DS_SELECTOR, s.ds.host);
      VmWrite(HOST_ES_SELECTOR, s.es.host);
      VmWrite(HOST_FS_SELECTOR, s.fs.host);
      VmWrite(HOST_GS_SELECTOR, s.gs.host);
      VmWrite(HOST_TR_SELECTOR, s.tr.host);
    }

    method WriteHostMsrs(c: StateArea.Capture)
      modifies this`log
      ensures log == old(log) + WriteEvents(StateArea.HostMsrs(c))
    {
      VmWrite(HOST_IA32_SYSENTER_CS, c.sysenterCs);
      VmWrite(HOST_IA32_SYSENTER_ESP, c.sysenterEsp);
      VmWrite(HOST_IA32_SYSENTER_EIP, c.sysenterEip);
    }

    method WriteHostBases(c: StateArea.Capture, s: StateArea.VmxSelectors)
      modifies this`log
      ensures log == old(log) + WriteEvents(StateArea.HostBases(c, s))
    {
      VmWrite(HOST_FS_BASE, c.fsBase);
      VmWrite(HOST_GS_BASE, c.gsBase);
      VmWrite(HOST_TR_BASE, s.tr.base);
      VmWrite(HOST_GDTR_BASE, c.gdtrBase);
      VmWrite(HOST_IDTR_BASE, c.idtrBase);
    }

    // The host-state area.
    method InitHostStateArea(c: StateArea.Capture, cr4: Cell, rsp: Cell, s: StateArea.VmxSelectors)
      modifies this`log
      ensures log == old(log) + WriteEvents(StateArea.HostWrites(c, cr4, rsp, s))
    {
      ghost var start := log;
      WriteHostRegisters(c, cr4, rsp);
      ghost var ws, before := StateArea.HostRegisters(c, cr4, rsp), log;
      WriteHostSelectors(s);
      Extend(start, ws, before, StateArea.HostSelectors(s), log);
      ws, before := ws + StateArea.HostSelectors(s), log;
      WriteHostMsrs(c);
      Extend(start, ws, before, StateArea.HostMsrs(c), log);
      ws, before := ws + StateArea.HostMsrs(c), log;
      WriteHostBases(c, s);
      Extend(start, ws, before, StateArea.HostBases(c, s), log);
    }

    method WritePinControl(c: StateArea.Capture)
      modifies this`log
      ensures log == old(log) + WriteEvents(StateArea.PinWrites(c))
    {
      var pinBased := new Controls.ControlWord(0);
      Controls.AdjustControl(Controls.PinBased, c.msrs, pinBased);
      VmWrite(PIN_BASED_VM_EXECUTION_CTLS, StateArea.Operand32(pinBased.All));
    }

    method WriteProcessorControls(c: StateArea.Capture)
      modifies this`log
      ensures log == old(log) + WriteEvents(StateArea.ProcessorWrites(c))
    {
      var primary := new Controls.ControlWord(Controls.PRIMARY_REQUEST);
      Controls.AdjustControl(Controls.ProcBased, c.msrs, primary);
      VmWrite(PRIMARY_PROC_BASED_VM_EXECUTION_CTLS, StateArea.Operand32(primary.All));
      var secondary := new Controls.ControlWord(Controls.ENABLE_RDTSCP);
      // The code passes the primary word a second time here.
      Controls.AdjustControl(Controls.ProcBased2, c.msrs, primary);
      VmWrite(SECONDARY_PROC_BASED_VM_EXECUTION_CTLS, StateArea.Operand32(secondary.All));
    }

    // The VM-execution control fields.
    method InitVmExecControl(c: StateArea.Capture, cr4: Cell)
      modifies this`log
      ensures log == old(log) + WriteEvents(StateArea.ExecWrites(c, cr4))
    {
      ghost var start := log;
      WritePinControl(c);
      ghost var ws, before := StateArea.PinWrites(c), log;
      WriteProcessorControls(c);
      Extend(start, ws, before, StateArea.ProcessorWrites(c), log);
      ws, before := ws + StateArea.ProcessorWrites(c), log;
      VmWrite(CR0_READ_SHADOW, c.cr0);
      VmWrite(CR4_READ_SHADOW, cr4);
      Extend(start, ws, before, StateArea.ShadowWrites(c, cr4), log);
    }

    method InitVmExitControl(c: StateArea.Capture)
      modifies this`log
      ensures log == old(log) + WriteEvents(StateArea.ExitWrites(c))
    {
      var exit := new Controls.ControlWord(Controls.HOST_ADDRESS_SPACE_SIZE);
      Controls.AdjustControl(Controls.VmExit, c.msrs, exit);
      VmWrite(VM_EXIT_CTLS, StateArea.Operand32(exit.All));
    }

    method InitVmEntryControl(c: StateArea.Capture)
      modifies this`log
      ensures log == old(log) + WriteEvents(StateArea.EntryWrites(c))
    {
      var entry := new Controls.ControlWord(Controls.IA32_MODE_GUEST);
      Controls.AdjustControl(Controls.VmEntry, c.msrs, entry);
      VmWrite(VM_ENTRY_CTLS, StateArea.Operand32(entry.All));
    }

    method ReadEntry(c: StateArea.Capture, selector: bv16) returns (segment: StateArea.Segment)
      ensures segment == StateArea.Operands(c.Entry(selector))
    {
      var entry := new Selectors.VmxGdtEntry();
      var _ := Selectors.GetVmxGdtEntry(c.gdtrBase.bits, c.memory, c.segmentLimit(selector), selector, entry);
      segment := StateArea.Operands(entry.Value());
    }

    method ReadSelectors(c: StateArea.Capture) returns (s: StateArea.VmxSelectors)
      ensures s == c.Selected()
    {
      var cs := ReadEntry(c, c.cs);
      var ss := ReadEntry(c, c.ss);
      var ds := ReadEntry(c, c.ds);
      var es := ReadEntry(c, c.es);
      var fs := ReadEntry(c, c.fs);
      var gs := ReadEntry(c, c.gs);
      var ldtr := ReadEntry(c, c.ldtr);
      var tr := ReadEntry(c, c.tr);
      s := StateArea.VmxSelectors(cs, ss, ds, es, fs, gs, ldtr, tr);
    }

    // The five writers of InitializeVMCS.
    method WriteVmcs(c: StateArea.Capture, cr4: Cell, rsp: Cell)
      modifies this`log
      ensures log == old(log) + WriteEvents(StateArea.AllWrites(c, cr4, rsp))
    {
      StateArea.AllWritesInOrder(c, cr4, rsp);
      var s := ReadSelectors(c);
      ghost var start := log;
      InitGuestStateArea(c, cr4, s);
      ghost var ws, before := StateArea.GuestWrites(c, cr4, s), log;
      InitHostStateArea(c, cr4, rsp, s);
      Extend(start, ws, before, StateArea.HostWrites(c, cr4, rsp, s), log);
      ws, before := ws + StateArea.HostWrites(c, cr4, rsp, s), log;
      InitVmExecControl(c, cr4);
      Extend(start, ws, before, StateArea.ExecWrites(c, cr4), log);
      ws, before := ws + StateArea.ExecWrites(c, cr4), log;
      InitVmExitControl(c);
      Extend(start, ws, before, StateArea.ExitWrites(c), log);
      ws, before := ws + StateArea.ExitWrites(c), log;
      InitVmEntryControl(c);
      Extend(start, ws, before, StateArea.EntryWrites(c), log);
    }

    /** `IsVmxSupported` */
    method IsVmxSupported(env: Env) returns (supported: bool)
      modifies this`log
      ensures log == old(log) + SupportTrace(env)
      ensures supported == Supported(env)
    {
      if !HasVmx(env.cpuidEcx) {
        return false;
      }
      var control := env.featureControl;
      if !Locked(control) {
        Emit(WriteFeatureControl(FeatureRequest(control)));
      } else if !VmxonEnabled(control) {
        return false;
      }
      return true;
    }

    /** `EnableVmxOperation` */
    method EnableVmxOperation(e: CpuEnv)
      modifies this`log
      ensures log == old(log) + EnableTrace(e)
    {
      Emit(WriteCr4(EnabledCr4(e.cr4)));
    }

    // Allocates, clears and heads a region; both region functions start like this.
    method PrepareRegion(e: CpuEnv, memory: Option<nat>, word: bv32)
      modifies this`log
      ensures log == old(log) + match memory
                                case None => [Allocate(AllocationSize(e.vmxBasic), None)]
                                case Some(va) => PrepareTrace(va, AllocationSize(e.vmxBasic), word)
    {
      var size := if RegionSize(e.vmxBasic) > 4096 then Size(4096) else Size(RegionSize(e.vmxBasic) as nat);
      Emit(Allocate(size, memory));
      if memory.Some? {
        Emit(Zero(memory.value, size));
        Emit(WriteHeader(memory.value, word));
      }
    }

    /** `AllocAndInitVmxonRegion` on the slot that `vp` points to, if it points anywhere. */
    method AllocAndInitVmxonRegion(vp: Option<nat>, e: CpuEnv) returns (status: int)
      requires VmmState != null && (vp.Some? ==> vp.value < VmmState.Length)
      modifies this`log, VmmState
      ensures VmmState == old(VmmState)
      ensures log == old(log) + if vp.None? then [] else VmxonTrace(os, e)
      ensures status == if vp.None? then STATUS_INVALID_PARAMETER else VmxonStatus(e)
      ensures VmmState[..] == if vp.None? then old(VmmState[..])
                              else old(VmmState[..])[vp.value := WithVmxon(os, old(VmmState[..])[vp.value], e)]
    {
      if vp.None? {
        return STATUS_INVALID_PARAMETER;
      }
      var i := vp.value;
      PrepareRegion(e, e.vmxonMemory, Revision(e.vmxBasic));
      if e.vmxonMemory.None? {
        return STATUS_MEMORY_NOT_ALLOCATED;
      }
      var buffer := e.vmxonMemory.value;
      VmmState[i] := VmmState[i].(vmxon := buffer);
      VmmState[i] := VmmState[i].(vmxonPad := os.toPa(buffer));
      Emit(Event.VmxOn(VmmState[i].vmxonPad, e.vmxon));
      if !e.vmxon.Success? {
        return STATUS_ILLEGAL_INSTRUCTION;
      }
      return STATUS_SUCCESS;
    }

    /** `AllocAndInitVmcsRegion` */
    method AllocAndInitVmcsRegion(vp: Option<nat>, e: CpuEnv) returns (status: int)
      requires VmmState != null && (vp.Some? ==> vp.value < VmmState.Length)
      modifies this`log, VmmState
      ensures VmmState == old(VmmState)
      ensures log == old(log) + if vp.None? then [] else VmcsTrace(os, e)
      ensures status == if vp.None? then STATUS_INVALID_PARAMETER else VmcsStatus(e)
      ensures VmmState[..] == if vp.None? then old(VmmState[..])
                              else old(VmmState[..])[vp.value := WithVmcsRegion(os, old(VmmState[..])[vp.value], e)]
    {
      if vp.None? {
        return STATUS_INVALID_PARAMETER;
      }
      var i := vp.value;
      PrepareRegion(e, e.vmcsMemory, VmcsHeader(e.vmxBasic));
      if e.vmcsMemory.None? {
        return STATUS_INSUFFICIENT_RESOURCES;
      }
      var buffer := e.vmcsMemory.value;
      VmmState[i] := VmmState[i].(vmcs := buffer);
      VmmState[i] := VmmState[i].(vmcsPad := os.toPa(buffer));
      Emit(Event.VmPtrLd(VmmState[i].vmcsPad, e.firstLoad));
      if !e.firstLoad.Success? {
        return STATUS_ILLEGAL_INSTRUCTION;
      }
      return STATUS_SUCCESS;
    }

    /** `InitializeVMCS`: `left` says that a VMLAUNCH took control away for good. */
    method InitializeVMCS(i: nat, e: CpuEnv, rsp: Cell) returns (status: int, left: bool)
      requires VmmState != null && i < VmmState.Length
      modifies this`log
      ensures log == old(log) + InitializeVmcsTrace(VmmState[i].vmcsPad, e, CpuWrites(e, rsp))
      ensures left == (e.clear.Success? && e.load.Success? && !e.launch.Rejected?)
      ensures !left ==> status == InitializeStatus(e)
    {
      Emit(Event.VmClear(VmmState[i].vmcsPad, e.clear, e.cleared));
      if !e.clear.Success? {
        return e.clear.Code(), false;
      }
      Emit(Event.VmPtrLd(VmmState[i].vmcsPad, e.load));
      if !e.load.Success? {
        return e.load.Code(), false;
      }
      ghost var start, ws := old(log), CpuWrites(e, rsp);
      WriteVmcs(e.capture, Cell(EnabledCr4(e.cr4)), rsp);
      status, left := Launch(e);
      JoinLog(start, VmClear(VmmState[i].vmcsPad, e.clear, e.cleared), VmPtrLd(VmmState[i].vmcsPad, e.load),
              WriteEvents(ws), LaunchTrace(e));
    }

    // The end of InitializeVMCS.
    method Launch(e: CpuEnv) returns (status: int, left: bool)
      modifies this`log
      ensures log == old(log) + LaunchTrace(e)
      ensures left == !e.launch.Rejected?
      ensures !left ==> status == RejectedStatus(e.launch.invalid).Code()
    {
      Emit(Event.VmLaunch(e.launch));
      if !e.launch.Rejected? {
        return STATUS_SUCCESS, true;
      }
      Emit(Event.VmRead(VM_INSTRUCTION_ERR));
      Emit(Event.VmxOff);
      return RejectedStatus(e.launch.invalid).Code(), false;
    }

    // The thread moves to processor i.
    method PinTo(i: nat)
      requires Int32(i)
      modifies this`log
      ensures log == old(log) + [Event.Pin(PinMask(i))]
    {
      var mask, overflowed := Util.Ipow(2, i);
      Emit(Event.Pin(mask));
    }

    // The part of the loop body that can end the loop by `break`.
    method SetUpProcessor(i: nat, e: CpuEnv, bitmap: nat) returns (status: int)
      requires VmmState != null && i < VmmState.Length && Int32(VmmState.Length) && VmmState[i] == ZERO_SLOT
      modifies this`log, VmmState
      ensures VmmState == old(VmmState)
      ensures log == old(log) + SetupTrace(os, i, e)
      ensures VmmState[..] == old(VmmState[..])[i := SlotAfter(os, e, bitmap)]
      ensures NtSuccess(status) <==> !StageOf(e).Breaks()
      ensures !NtSuccess(status) ==> status == StageStatus(e)
    {
      PinTo(i);
      EnableVmxOperation(e);
      status := AllocAndInitVmxonRegion(Some(i), e);
      if !NtSuccess(status) {
        return;
      }
      status := AllocAndInitVmcsRegion(Some(i), e);
      VmmState[i] := VmmState[i].(msrBitmapPad := os.toPa(bitmap));
    }

    // The body of the loop: `stop` says that it ends in `break`, `left` that control does
    // not come back to it.
    method BringUpProcessor(i: nat, e: CpuEnv, bitmap: nat, rsp: Cell) returns (status: int, stop: bool, left: bool)
      requires VmmState != null && i < VmmState.Length && Int32(VmmState.Length) && VmmState[i] == ZERO_SLOT
      modifies this`log, VmmState
      ensures VmmState == old(VmmState)
      ensures log == old(log) + CpuTrace(os, i, e, CpuWrites(e, rsp))
      ensures VmmState[..] == old(VmmState[..])[i := SlotAfter(os, e, bitmap)]
      ensures stop == StageOf(e).Breaks() && left == StageOf(e).Leaves()
      ensures !left ==> status == StageStatus(e)
    {
      ghost var start, ws := log, CpuWrites(e, rsp);
      status := SetUpProcessor(i, e, bitmap);
      if !NtSuccess(status) {
        SetupOnly(os, i, e, ws);
        return status, true, false;
      }
      ghost var middle := log;
      stop := false;
      status, left := InitializeVMCS(i, e, rsp);
      SetupThenInitialize(os, i, e, ws, start, middle, log);
    }

    // ExAllocatePoolWithTag and RtlZeroMemory, when there is memory.
    method AllocateVmmState(env: Env)
      requires env.pool.Some?
      modifies this`VmmState
      ensures VmmState != null && fresh(VmmState) && VmmState[..] == SlotsAfter(os, env, 0)
    {
      VmmState := new VpData[|env.cpus|](_ => ZERO_SLOT);
    }

    // One turn: `stop` says that it ends in `break`, `left` that control does not come back.
    method VisitProcessor(env: Env, i: nat, ghost next: nat, ghost start: seq<Event>, ghost earlier: int)
      returns (status: int, stop: bool, left: bool)
      requires next == i + 1 <= |env.cpus| && Int32(|env.cpus|) && VmmState != null
      requires InLoop(os, env, start, i, VmmState[..], log, earlier, false, false)
      modifies this`log, VmmState
      ensures VmmState == old(VmmState) && InLoop(os, env, start, next, VmmState[..], log, status, stop, left)
    {
      ghost var before, slots := log, VmmState[..];
      InLoopAt(os, env, start, i, slots, before, earlier);
      status, stop, left := BringUpProcessor(i, env.cpus[i], env.layout.Bitmap(env.pool.value, i), Rsp(env, i));
      InLoopNext(os, env, start, i, slots, before, earlier, next, VmmState[..], log, status, stop, left);
    }

    // The loop: it visits `visited` processors.
    method BringUpProcessors(env: Env) returns (status: int, stop: bool, left: bool, visited: nat)
      requires Int32(|env.cpus|) && VmmState != null
      requires InLoop(os, env, log, 0, VmmState[..], log, STATUS_SUCCESS, false, false)
      modifies this`log, VmmState
      ensures VmmState == old(VmmState) && InLoop(os, env, old(log), visited, VmmState[..], log, status, stop, left)
      ensures visited < |env.cpus| ==> stop || left
    {
      status, stop, left, visited := STATUS_SUCCESS, false, false, 0;
      ghost var start := log;
      while visited < |env.cpus| && !stop && !left
        invariant VmmState == old(VmmState) && InLoop(os, env, start, visited, VmmState[..], log, status, stop, left)
      {
        var next := visited + 1;
        status, stop, left := VisitProcessor(env, visited, next, start, status);
        visited := next;
      }
    }

    /** `InitHv`: `left` says that control does not come back. */
    method InitHv(env: Env) returns (status: int, left: bool)
      requires Int32(|env.cpus|)
      modifies this
      ensures log == old(log) + InitTrace(os, env, WritesOf(env))
      ensures left == (Supported(env) && (env.pool.None? || (|env.cpus| > 0 && LastStage(env).Leaves())))
      ensures !left ==> status == InitStatus(env)
      ensures !Supported(env) ==> VmmState == old(VmmState)
      ensures Supported(env) && env.pool.None? ==> VmmState == null
      ensures Supported(env) && env.pool.Some? ==>
                VmmState != null && fresh(VmmState) && VmmState[..] == SlotsAfter(os, env, Visited(env.cpus))
    {
      var supported := IsVmxSupported(env);
      if !supported {
        return STATUS_NOT_SUPPORTED, false;
      }
      if env.pool.None? {
        // ExAllocatePoolWithTag returned NULL, and RtlZeroMemory clears what it points to.
        VmmState := null;
        Emit(Event.NullAccess);
        return STATUS_SUCCESS, true;
      }
      AllocateVmmState(env);
      ghost var start, before := old(log), log;
      var stop, visited;
      status, stop, left, visited := BringUpProcessors(env);
      LoopingEnds(env, visited, status, stop, left);
      JoinTwo(start, SupportTrace(env), before, LoopTrace(os, env.cpus, WritesOf(env), Visited(env.cpus)), log);
    }

    /** `HvCreate`, which drops the status of InitHv. */
    method HvCreate(env: Env) returns (status: int, left: bool)
      requires Int32(|env.cpus|)
      modifies this
      ensures log == old(log) + InitTrace(os, env, WritesOf(env))
      ensures left == (Supported(env) && (env.pool.None? || (|env.cpus| > 0 && LastStage(env).Leaves())))
      ensures !left ==> status == STATUS_SUCCESS
      ensures Supported(env) && env.pool.Some? ==>
                VmmState != null && fresh(VmmState) && VmmState[..] == SlotsAfter(os, env, Visited(env.cpus))
    {
      status, left := InitHv(env);
      return STATUS_SUCCESS, left;
    }

    // The body of the loop in ExitVmxOperation.
    method TearDownProcessor(i: nat)
      requires Int32(i) && VmmState != null && i < VmmState.Length
      modifies this`log
      ensures log == old(log) + CpuTeardown(os, VmmState[i], i)
    {
      PinTo(i);
      Emit(Event.VmxOff);
      Emit(Event.Free(os.toVa(VmmState[i].vmcsPad)));
      Emit(Event.Free(os.toVa(VmmState[i].vmxonPad)));
    }

    /** `ExitVmxOperation`, the whole of `HvClose`, on n processors. Without a VmmState it
        reads through a null pointer after the first VMXOFF. */
    method ExitVmxOperation(n: nat)
      requires Int32(n) && (VmmState != null ==> VmmState.Length == n)
      modifies this`log
      ensures VmmState != null ==> log == old(log) + ExitTrace(os, VmmState[..], n)
      ensures VmmState == null ==> log == old(log) + NullExitTrace(n)
    {
      if VmmState == null {
        if n > 0 {
          PinTo(0);
          Emit(Event.VmxOff);
          Emit(Event.NullAccess);
        }
        return;
      }
      for i := 0 to n
        invariant log == old(log) + ExitTrace(os, VmmState[..], i)
      {
        TearDownProcessor(i);
      }
    }
  }
}
