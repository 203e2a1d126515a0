// Whole runs of `InitHv` (hv/src/main.c): the trace over all processors, the machine it
// leaves, and what holds of that machine for every outcome of every step.
module Runs {
  import opened Power
  import opened Machine
  import opened NtStatus
  import opened VmcsStore
  import opened BringUp
  import Bits
  import ExitStack
  import StateArea

  // Everything the driver's environment decides in one run.
  datatype Env = Env(
    cpuidEcx: bv32,             // CPUID.1:ECX where InitHv starts
    featureControl: bv64,       // IA32_FEATURE_CONTROL there
    pool: Option<nat>,          // where VmmState is allocated
    layout: ExitStack.Layout,
    cpus: seq<CpuEnv>)

  function FeatureRequest(msr: bv64): bv64 { msr | 5 }

  predicate HasVmx(ecx: bv32) { ecx & 0x20 != 0 }

  // What IsVmxSupported returns.
  predicate Supported(env: Env) {
    HasVmx(env.cpuidEcx) && (Locked(env.featureControl) ==> VmxonEnabled(env.featureControl))
  }

  /** By number: VMX is supported when bit 5 of ECX is set, unless IA32_FEATURE_CONTROL is locked
      (bit 0) with VMXON disabled (bit 2). */
  lemma SupportedByNumber(env: Env)
    ensures Supported(env) <==>
              env.cpuidEcx as nat / 32 % 2 == 1
              && !(env.featureControl as nat % 2 == 1 && env.featureControl as nat / 4 % 2 == 0)
  {
    Bits.Bit5(env.cpuidEcx);
    BitsByNumber(0, env.featureControl);
  }

  lemma FeatureRequestBits(msr: bv64)
    ensures CanVmxon(FeatureRequest(msr))
    ensures FeatureRequest(msr) & !(5 as bv64) == msr & !(5 as bv64)
  {
  }

  function SupportTrace(env: Env): seq<Event> {
    if HasVmx(env.cpuidEcx) && !Locked(env.featureControl)
    then [WriteFeatureControl(FeatureRequest(env.featureControl))]
    else []
  }

  /** The MSR is written exactly when VMX is there and the lock bit is clear, with bits 0 and 2
      added to what it held. */
  lemma SupportTraceByNumber(env: Env)
    ensures SupportTrace(env) == if env.cpuidEcx as nat / 32 % 2 == 1 && env.featureControl as nat % 2 == 0
                                 then [WriteFeatureControl(env.featureControl | 5)] else []
  {
    Bits.Bit5(env.cpuidEcx);
    BitsByNumber(0, env.featureControl);
  }

  function Base(env: Env): nat { if env.pool.Some? then env.pool.value else 0 }

  // HOST_RSP of processor i as a 64-bit word.
  function Rsp(env: Env, i: nat): Cell {
    Cell((env.layout.HostRsp(Base(env), i) % TWO_64) as bv64)
  }

  /** It is one CONTEXT below the end of VmmStack in slot i of VmmState, as soon as that is a
      64-bit address. */
  lemma RspIsHostRsp(env: Env, i: nat, pool: nat, a: nat)
    requires env.pool == Some(pool) && a < TWO_64
    requires a + env.layout.contextSize
             == pool + i * env.layout.vpSize + env.layout.stackOffset + env.layout.stackSize
    ensures Rsp(env, i) == Cell(a as bv64)
  {
  }

  // What the writers write on a processor whose HOST_RSP is rsp, and on processor i.
  function CpuWrites(e: CpuEnv, rsp: Cell): seq<Write> {
    StateArea.AllWrites(e.capture, Cell(EnabledCr4(e.cr4)), rsp)
  }

  function LaunchWrites(env: Env, i: nat): seq<Write>
    requires i < |env.cpus|
  {
    CpuWrites(env.cpus[i], Rsp(env, i))
  }

  function WritesOf(env: Env): (wss: seq<seq<Write>>)
    ensures |wss| == |env.cpus|
  {
    seq(|env.cpus|, i requires 0 <= i < |env.cpus| => LaunchWrites(env, i))
  }

  // The number of processors the loop visits: up to and including the first that stops it.
  function Visited(cpus: seq<CpuEnv>): (v: nat)
    ensures v <= |cpus|
    ensures |cpus| > 0 ==> v > 0
  {
    if |cpus| == 0 then 0
    else if StageOf(cpus[0]).Stops() then 1
    else 1 + Visited(cpus[1..])
  }

  lemma {:induction false} VisitedIsFirstStop(cpus: seq<CpuEnv>)
    ensures forall j :: 0 <= j < |cpus| && j < Visited(cpus) - 1 ==> !StageOf(cpus[j]).Stops()
    ensures Visited(cpus) < |cpus| ==> StageOf(cpus[Visited(cpus) - 1]).Stops()
  {
    if |cpus| > 0 && !StageOf(cpus[0]).Stops() {
      VisitedIsFirstStop(cpus[1..]);
      forall j | 0 <= j < |cpus| && j < Visited(cpus) - 1
        ensures !StageOf(cpus[j]).Stops()
      {
        if j > 0 { assert cpus[j] == cpus[1..][j - 1]; }
      }
    }
  }

  function CpuTraces(os: Translation, cpus: seq<CpuEnv>, wss: seq<seq<Write>>): (parts: seq<seq<Event>>)
    requires |cpus| == |wss|
    ensures |parts| == |cpus|
  {
    seq(|cpus|, i requires 0 <= i < |cpus| => CpuTrace(os, i, cpus[i], wss[i]))
  }

  // What the first k turns of the loop do.
  function LoopTrace(os: Translation, cpus: seq<CpuEnv>, wss: seq<seq<Write>>, k: nat): seq<Event>
    requires k <= |cpus| == |wss|
  {
    Joined(CpuTraces(os, cpus, wss), k)
  }

  // wss is what the writers write on each processor (WritesOf, for the driver's own).
  function InitTrace(os: Translation, env: Env, wss: seq<seq<Write>>): seq<Event>
    requires |wss| == |env.cpus|
  {
    SupportTrace(env) +
    if !Supported(env) then []
    else if env.pool.None? then [NullAccess]
    else LoopTrace(os, env.cpus, wss, Visited(env.cpus))
  }

  // The stage that ended the loop.
  function LastStage(env: Env): Stage
    requires |env.cpus| > 0
  {
    StageOf(env.cpus[Visited(env.cpus) - 1])
  }

  // The status InitHv returns, when it returns.
  function InitStatus(env: Env): int {
    if !Supported(env) then STATUS_NOT_SUPPORTED
    else if Visited(env.cpus) == 0 then STATUS_SUCCESS
    else StageStatus(env.cpus[Visited(env.cpus) - 1])
  }

  // The region addresses of one processor's environment.
  function Address(e: CpuEnv, vmcs: bool): Option<nat> {
    if vmcs then e.vmcsMemory else e.vmxonMemory
  }

  // The allocator returns page-aligned memory that is not in use, and the two address
  // translations are inverse on it.
  ghost predicate GoodAddress(m: Machine, va: nat) {
    va != 0 && va !in m.heap && m.os.toPa(va) % PAGE_SIZE == 0 && m.os.toVa(m.os.toPa(va)) == va
  }

  ghost predicate GoodAllocations(m: Machine, cpus: seq<CpuEnv>) {
    && (forall i, a :: 0 <= i < |cpus| && Address(cpus[i], a).Some? ==> GoodAddress(m, Address(cpus[i], a).value))
    && (forall i, a, j, b :: 0 <= i < |cpus| && 0 <= j < |cpus| && (i != j || a != b)
                        && Address(cpus[i], a).Some? && Address(cpus[j], b).Some?
                        ==> Address(cpus[i], a) != Address(cpus[j], b))
  }

  // What a processor shows the driver is its own CR4 and IA32_VMX_BASIC.
  ghost predicate Shows(c: Cpu, e: CpuEnv) {
    c.cr4 == e.cr4 && c.vmxBasic == e.vmxBasic == e.capture.msrs.vmxBasic
  }

  // env describes what machine m, with no processor in VMX operation, shows and allows.
  ghost predicate Fits(m: Machine, env: Env) {
    && m.running && m.on < |m.cpus| == |env.cpus|
    && env.featureControl == m.cpus[m.on].featureControl
    && (forall i :: 0 <= i < |m.cpus| ==> m.cpus[i].mode.Off? && Shows(m.cpus[i], env.cpus[i]))
    && GoodAllocations(m, env.cpus)
  }

  ghost function AfterSupport(m: Machine, env: Env): Machine
    requires m.on < |m.cpus|
  {
    if HasVmx(env.cpuidEcx) && !Locked(env.featureControl)
    then m.(cpus := m.cpus[m.on := m.cpus[m.on].(featureControl := FeatureRequest(env.featureControl))])
    else m
  }

  // The machine after k processors.
  ghost function LoopMachine(m: Machine, cpus: seq<CpuEnv>, wss: seq<seq<Write>>, k: nat): (r: Machine)
    requires k <= |cpus| == |m.cpus| == |wss|
    ensures |r.cpus| == |m.cpus| && r.os == m.os
  {
    if k == 0 then m
    else After(LoopMachine(m, cpus, wss, k - 1), k - 1, cpus[k - 1], WrittenFields(cpus[k - 1], wss[k - 1]))
  }

  // A processor's final state: only CR4 and the mode change, as its own stage decides.
  ghost function CpuAfter(c: Cpu, os: Translation, e: CpuEnv): Cpu {
    c.(cr4 := EnabledCr4(e.cr4), mode := ModeAfter(os, e))
  }

  lemma AfterCpus(r: Machine, i: nat, e: CpuEnv, written: Store)
    requires i < |r.cpus|
    ensures var a := After(r, i, e, written);
      && a.cpus == r.cpus[i := CpuAfter(r.cpus[i], r.os, e)]
      && a.on == i && a.running == !StageOf(e).Leaves() && a.ok == r.ok
  {
  }

  // r is where the first k processors have been brought up, starting from m.
  ghost predicate LoopedTo(m: Machine, cpus: seq<CpuEnv>, k: nat, r: Machine) {
    && k <= |cpus| == |m.cpus| == |r.cpus|
    && (forall j :: 0 <= j < k ==> r.cpus[j] == CpuAfter(m.cpus[j], m.os, cpus[j]))
    && (forall j :: k <= j < |m.cpus| ==> r.cpus[j] == m.cpus[j])
    && r.on == (if k == 0 then m.on else k - 1)
    && r.running == (if k == 0 then m.running else !StageOf(cpus[k - 1]).Leaves())
  }

  lemma LoopedNext(m: Machine, cpus: seq<CpuEnv>, k: nat, r: Machine, a: Machine)
    requires 0 < k <= |cpus| && LoopedTo(m, cpus, k - 1, r)
    requires a.cpus == r.cpus[k - 1 := CpuAfter(r.cpus[k - 1], m.os, cpus[k - 1])]
    requires a.on == k - 1 && a.running == !StageOf(cpus[k - 1]).Leaves()
    ensures LoopedTo(m, cpus, k, a)
  {
  }

  lemma {:induction false} LoopCpus(m: Machine, cpus: seq<CpuEnv>, wss: seq<seq<Write>>, k: nat)
    requires k <= |cpus| == |m.cpus| == |wss|
    ensures LoopedTo(m, cpus, k, LoopMachine(m, cpus, wss, k))
  {
    if k > 0 {
      var r := LoopMachine(m, cpus, wss, k - 1);
      LoopCpus(m, cpus, wss, k - 1);
      AfterCpus(r, k - 1, cpus[k - 1], WrittenFields(cpus[k - 1], wss[k - 1]));
      LoopedNext(m, cpus, k, r, LoopMachine(m, cpus, wss, k));
    }
  }

  lemma {:induction false} LoopKeepsOk(m: Machine, cpus: seq<CpuEnv>, wss: seq<seq<Write>>, k: nat)
    requires k <= |cpus| == |m.cpus| == |wss|
    ensures LoopMachine(m, cpus, wss, k).ok == m.ok
  {
    if k > 0 { LoopKeepsOk(m, cpus, wss, k - 1); }
  }

  // The first k turns of the loop can go through.
  ghost predicate MayTurns(m: Machine, cpus: seq<CpuEnv>, k: nat)
    requires k <= |cpus| == |m.cpus|
  {
    forall j :: 0 <= j < k ==> MayTurn(m, j, cpus[j])
  }

  // How many of the first v turns go through before one does not.
  ghost function Turns(m: Machine, cpus: seq<CpuEnv>, v: nat): (t: nat)
    requires v <= |cpus| == |m.cpus|
    ensures t <= v && (t < v ==> !MayTurn(m, t, cpus[t]))
  {
    if v == 0 then 0
    else
      var t := Turns(m, cpus, v - 1);
      if t < v - 1 || !MayTurn(m, v - 1, cpus[v - 1]) then t else v
  }

  lemma {:induction false} TurnsGoThrough(m: Machine, cpus: seq<CpuEnv>, v: nat)
    requires v <= |cpus| == |m.cpus|
    ensures MayTurns(m, cpus, Turns(m, cpus, v))
  {
    if v > 0 { TurnsGoThrough(m, cpus, v - 1); }
  }

  // The machine InitHv leaves, or the one it stops in.
  ghost function InitMachine(m: Machine, env: Env, wss: seq<seq<Write>>): Machine
    requires m.on < |m.cpus| == |env.cpus| == |wss|
  {
    var s := AfterSupport(m, env);
    if !Supported(env) then s
    else if env.pool.None? then Fault(s)
    else
      var t := Turns(s, env.cpus, Visited(env.cpus));
      var r := LoopMachine(s, env.cpus, wss, t);
      if t == Visited(env.cpus) then r
      else LoopCpus(s, env.cpus, wss, t); Faulted(r, t, env.cpus[t])
  }

  lemma AddressesReady(m: Machine, env: Env, i: nat)
    requires i < |env.cpus| && GoodAllocations(m, env.cpus)
    ensures var e := env.cpus[i];
      && (e.vmxonMemory.Some? ==> m.os.toPa(e.vmxonMemory.value) % PAGE_SIZE == 0)
      && (e.vmcsMemory.Some? ==> m.os.toPa(e.vmcsMemory.value) % PAGE_SIZE == 0)
      && (e.vmxonMemory.Some? && e.vmcsMemory.Some? ==>
            m.os.toPa(e.vmxonMemory.value) != m.os.toPa(e.vmcsMemory.value))
  {
    var e := env.cpus[i];
    assert Address(e, false) == e.vmxonMemory && Address(e, true) == e.vmcsMemory;
  }

  lemma LoopStartable(m: Machine, env: Env, wss: seq<seq<Write>>, k: nat)
    requires Fits(m, env) && |wss| == |env.cpus|
    requires k < Visited(env.cpus) <= |env.cpus|
    ensures Startable(LoopMachine(m, env.cpus, wss, k), k, env.cpus[k])
    ensures MayTurn(LoopMachine(m, env.cpus, wss, k), k, env.cpus[k]) <==> MayTurn(m, k, env.cpus[k])
  {
    LoopCpus(m, env.cpus, wss, k);
    VisitedIsFirstStop(env.cpus);
    AddressesReady(m, env, k);
  }

  lemma TurnRun(m: Machine, env: Env, wss: seq<seq<Write>>, k: nat)
    requires Fits(m, env) && |wss| == |env.cpus| && k < Visited(env.cpus) <= |env.cpus| && MayTurn(m, k, env.cpus[k])
    ensures Run(LoopMachine(m, env.cpus, wss, k), CpuTrace(m.os, k, env.cpus[k], wss[k]))
            == LoopMachine(m, env.cpus, wss, k + 1)
  {
    LoopStartable(m, env, wss, k);
    CpuRun(LoopMachine(m, env.cpus, wss, k), k, env.cpus[k], wss[k]);
  }

  lemma TraceNext(os: Translation, cpus: seq<CpuEnv>, wss: seq<seq<Write>>, k: nat)
    requires k < |cpus| == |wss|
    ensures LoopTrace(os, cpus, wss, k + 1) == LoopTrace(os, cpus, wss, k) + CpuTrace(os, k, cpus[k], wss[k])
  {
  }

  lemma {:induction false} LoopRun(m: Machine, env: Env, wss: seq<seq<Write>>, t: nat)
    requires Fits(m, env) && |wss| == |env.cpus| && t <= Visited(env.cpus) <= |env.cpus| && MayTurns(m, env.cpus, t)
    ensures Run(m, LoopTrace(m.os, env.cpus, wss, t)) == LoopMachine(m, env.cpus, wss, t)
  {
    if t > 0 {
      var k := t - 1;
      LoopRun(m, env, wss, k);
      TurnRun(m, env, wss, k);
      TraceNext(m.os, env.cpus, wss, k);
      RunConcat(m, LoopTrace(m.os, env.cpus, wss, k), CpuTrace(m.os, k, env.cpus[k], wss[k]));
    }
  }

  lemma TurnFaults(m: Machine, env: Env, wss: seq<seq<Write>>, t: nat, r: Machine)
    requires Fits(m, env) && |wss| == |env.cpus| && t < Visited(env.cpus) <= |env.cpus| && !MayTurn(m, t, env.cpus[t])
    requires r == LoopMachine(m, env.cpus, wss, t)
    ensures t < |r.cpus| && !MayTurn(r, t, env.cpus[t])
    ensures Run(r, CpuTrace(m.os, t, env.cpus[t], wss[t])) == Faulted(r, t, env.cpus[t])
  {
    LoopStartable(m, env, wss, t);
    CpuFaults(r, t, env.cpus[t], wss[t]);
  }

  lemma LoopFaults(m: Machine, env: Env, wss: seq<seq<Write>>, t: nat, v: nat)
    requires Fits(m, env) && |wss| == |env.cpus| && t < v == Visited(env.cpus) <= |env.cpus|
    requires MayTurns(m, env.cpus, t) && !MayTurn(m, t, env.cpus[t])
    ensures var r := LoopMachine(m, env.cpus, wss, t);
      !MayTurn(r, t, env.cpus[t]) && Run(m, LoopTrace(m.os, env.cpus, wss, v)) == Faulted(r, t, env.cpus[t])
  {
    var parts, r := CpuTraces(m.os, env.cpus, wss), LoopMachine(m, env.cpus, wss, t);
    LoopRun(m, env, wss, t);
    TurnFaults(m, env, wss, t, r);
    var rest := JoinedAround(parts, t, v);
    StopsBetween(m, Joined(parts, t), parts[t], rest, Joined(parts, v), r, Faulted(r, t, env.cpus[t]));
  }

  lemma SupportRun(m: Machine, env: Env)
    requires Fits(m, env)
    ensures Run(m, SupportTrace(env)) == AfterSupport(m, env)
    ensures Supported(env) ==> CanVmxon(AfterSupport(m, env).cpus[m.on].featureControl)
    ensures Fits(AfterSupport(m, env), env.(featureControl := AfterSupport(m, env).cpus[m.on].featureControl))
  {
    FeatureRequestBits(env.featureControl);
    if HasVmx(env.cpuidEcx) && !Locked(env.featureControl) {
      Run1(m, WriteFeatureControl(FeatureRequest(env.featureControl)));
    }
  }

  /** So the answer is yes exactly when bit 5 of ECX is set and, after what IsVmxSupported does,
      VMXON can be executed where it ran. */
  lemma SupportedIff(m: Machine, env: Env)
    requires Fits(m, env)
    ensures var r := Run(m, SupportTrace(env));
      && m.on < |r.cpus|
      && (Supported(env) <==> env.cpuidEcx as nat / 32 % 2 == 1 && CanVmxon(r.cpus[m.on].featureControl))
  {
    SupportRun(m, env);
    SupportedByNumber(env);
    Bits.Bit5(env.cpuidEcx);
  }

  lemma SupportThenLoop(m: Machine, env: Env, wss: seq<seq<Write>>)
    requires Fits(m, env) && |wss| == |env.cpus| && Supported(env) && env.pool.Some?
    ensures Run(m, SupportTrace(env) + LoopTrace(m.os, env.cpus, wss, Visited(env.cpus))) == InitMachine(m, env, wss)
  {
    var s, v := AfterSupport(m, env), Visited(env.cpus);
    var e, t := env.(featureControl := s.cpus[m.on].featureControl), Turns(s, env.cpus, v);
    SupportRun(m, env);
    RunConcat(m, SupportTrace(env), LoopTrace(m.os, env.cpus, wss, v));
    TurnsGoThrough(s, env.cpus, v);
    if t == v {
      LoopRun(s, e, wss, v);
    } else {
      LoopFaults(s, e, wss, t, v);
    }
  }

  lemma SupportThenCrash(m: Machine, env: Env)
    requires Fits(m, env)
    ensures Run(m, SupportTrace(env) + [NullAccess]) == Fault(AfterSupport(m, env))
  {
    SupportRun(m, env);
    FaultingRun(m, SupportTrace(env), AfterSupport(m, env), NullAccess);
  }

  /** The machine that a run of InitHv leaves or stops in, for every outcome of every step. */
  lemma InitRun(m: Machine, env: Env, wss: seq<seq<Write>>)
    requires Fits(m, env) && |wss| == |env.cpus|
    ensures Run(m, InitTrace(m.os, env, wss)) == InitMachine(m, env, wss)
  {
    if !Supported(env) {
      SupportRun(m, env);
      assert InitTrace(m.os, env, wss) == SupportTrace(env);
    } else if env.pool.None? {
      SupportThenCrash(m, env);
    } else {
      SupportThenLoop(m, env, wss);
    }
  }

  // What the code takes for granted: that VmmState could be allocated, that the index of
  // every processor it visits has an affinity mask of its own, and that every other processor
  // it executes VMXON on has VMXON enabled in IA32_FEATURE_CONTROL.
  ghost predicate Assumptions(m: Machine, env: Env)
    requires |m.cpus| == |env.cpus|
  {
    && env.pool.Some?
    && (|m.cpus| <= 32 || Visited(env.cpus) <= 31)
    && forall j :: 0 <= j < Visited(env.cpus) && j != m.on && env.cpus[j].vmxonMemory.Some? ==>
                     CanVmxon(m.cpus[j].featureControl)
  }

  lemma SupportMayTurn(m: Machine, env: Env, j: nat)
    requires Fits(m, env) && Supported(env) && j < |env.cpus|
    ensures MayTurn(AfterSupport(m, env), j, env.cpus[j]) <==>
      HasMask(j, |m.cpus|) && (j == m.on || env.cpus[j].vmxonMemory.None? || CanVmxon(m.cpus[j].featureControl))
  {
    SupportRun(m, env);
  }

  lemma TurnsIffAssumptions(m: Machine, env: Env)
    requires Fits(m, env) && Supported(env) && env.pool.Some?
    ensures Turns(AfterSupport(m, env), env.cpus, Visited(env.cpus)) == Visited(env.cpus) <==> Assumptions(m, env)
  {
    var s, v := AfterSupport(m, env), Visited(env.cpus);
    var t := Turns(s, env.cpus, v);
    TurnsGoThrough(s, env.cpus, v);
    if t < v {
      SupportMayTurn(m, env, t);
    } else {
      forall j | 0 <= j < v && j != m.on && env.cpus[j].vmxonMemory.Some?
        ensures CanVmxon(m.cpus[j].featureControl)
      {
        SupportMayTurn(m, env, j);
      }
      if v > 0 { SupportMayTurn(m, env, v - 1); }
    }
  }

  /** Protocol safety over every run: InitHv uses the machine legally throughout exactly
      when it stops at IsVmxSupported or what it takes for granted holds. */
  lemma InitSafe(m: Machine, env: Env, wss: seq<seq<Write>>)
    requires Fits(m, env) && m.ok && |wss| == |env.cpus|
    ensures Run(m, InitTrace(m.os, env, wss)).ok <==> !Supported(env) || Assumptions(m, env)
  {
    InitRun(m, env, wss);
    if Supported(env) && env.pool.Some? {
      TurnsIffAssumptions(m, env);
      OkIfAllTurns(m, env, wss, AfterSupport(m, env), Visited(env.cpus));
    }
  }

  lemma OkIfAllTurns(m: Machine, env: Env, wss: seq<seq<Write>>, s: Machine, v: nat)
    requires m.on < |m.cpus| == |env.cpus| == |wss| && m.ok && Supported(env) && env.pool.Some?
    requires s == AfterSupport(m, env) && v == Visited(env.cpus)
    ensures InitMachine(m, env, wss).ok <==> Turns(s, env.cpus, v) == v
  {
    LoopKeepsOk(s, env.cpus, wss, Turns(s, env.cpus, v));
  }

  /** ... so that then every single step of the run is legal when it is taken. */
  lemma InitSafeAtEveryStep(m: Machine, env: Env, wss: seq<seq<Write>>, k: nat)
    requires Fits(m, env) && m.ok && |wss| == |env.cpus| && (!Supported(env) || Assumptions(m, env))
    requires k < |InitTrace(m.os, env, wss)|
    ensures Legal(Run(m, InitTrace(m.os, env, wss)[..k]), InitTrace(m.os, env, wss)[k])
  {
    InitSafe(m, env, wss);
    EveryStepLegal(m, InitTrace(m.os, env, wss), k);
  }

  /** What a caller can check before the call: with at most 32 processors, all but the current
      one with VMXON locked in and enabled, a run that gets its VmmState is legal whatever the
      outcome of its steps ... */
  lemma SafeIfAllEnabled(m: Machine, env: Env, wss: seq<seq<Write>>)
    requires Fits(m, env) && m.ok && |wss| == |env.cpus| && env.pool.Some?
    requires |m.cpus| <= 32 && forall j :: 0 <= j < |m.cpus| && j != m.on ==> CanVmxon(m.cpus[j].featureControl)
    ensures Run(m, InitTrace(m.os, env, wss)).ok
  {
    InitSafe(m, env, wss);
  }

  /** ... and a run that reaches a processor without that, with memory for its VMXON region,
      is not. */
  lemma UnsafeIfOneIsNot(m: Machine, env: Env, wss: seq<seq<Write>>, j: nat)
    requires Fits(m, env) && m.ok && |wss| == |env.cpus| && Supported(env)
    requires j < Visited(env.cpus) && j != m.on && env.cpus[j].vmxonMemory.Some? && !CanVmxon(m.cpus[j].featureControl)
    ensures !Run(m, InitTrace(m.os, env, wss)).ok
  {
    InitSafe(m, env, wss);
  }

  /** Nor is one that gets past index 30 with more than 32 processors. */
  lemma UnsafeIfTooMany(m: Machine, env: Env, wss: seq<seq<Write>>)
    requires Fits(m, env) && m.ok && |wss| == |env.cpus| && Supported(env)
    requires |m.cpus| > 32 && Visited(env.cpus) > 31
    ensures !Run(m, InitTrace(m.os, env, wss)).ok
  {
    InitSafe(m, env, wss);
  }

  lemma InitCompletes(m: Machine, env: Env, wss: seq<seq<Write>>)
    requires Fits(m, env) && |wss| == |env.cpus| && Supported(env) && Assumptions(m, env)
    ensures Run(m, InitTrace(m.os, env, wss)) == LoopMachine(AfterSupport(m, env), env.cpus, wss, Visited(env.cpus))
  {
    InitRun(m, env, wss);
    TurnsIffAssumptions(m, env);
  }

  // The first v processors ended in the mode of their stage, the others were not touched.
  ghost predicate CpusAfter(m: Machine, cpus: seq<CpuEnv>, v: nat, r: Machine)
    requires v <= |cpus| == |m.cpus|
  {
    && |r.cpus| == |cpus|
    && (forall j :: 0 <= j < v ==> r.cpus[j].mode == ModeAfter(m.os, cpus[j]))
    && (forall j :: 0 <= j < v ==> r.cpus[j].cr4 == EnabledCr4(cpus[j].cr4))
    && (forall j :: v <= j < |cpus| ==> r.cpus[j].mode.Off? && r.cpus[j].cr4 == m.cpus[j].cr4)
  }

  lemma LoopOutcome(m: Machine, s: Machine, cpus: seq<CpuEnv>, wss: seq<seq<Write>>, v: nat, r: Machine)
    requires v <= |cpus| == |m.cpus| == |s.cpus| == |wss| && s.os == m.os && r == LoopMachine(s, cpus, wss, v)
    requires forall j :: 0 <= j < |cpus| ==> s.cpus[j].mode.Off? && s.cpus[j].cr4 == m.cpus[j].cr4
    ensures CpusAfter(m, cpus, v, r)
    ensures v > 0 ==> (r.running <==> !StageOf(cpus[v - 1]).Leaves()) && r.on == v - 1
  {
    LoopCpus(s, cpus, wss, v);
  }

  lemma SupportKeepsModes(m: Machine, env: Env)
    requires Fits(m, env)
    ensures var s := AfterSupport(m, env);
      |s.cpus| == |m.cpus| && s.os == m.os
      && forall j :: 0 <= j < |env.cpus| ==> s.cpus[j].mode.Off? && s.cpus[j].cr4 == m.cpus[j].cr4
  {
  }

  lemma LoopOutcomeOf(m: Machine, env: Env, wss: seq<seq<Write>>, v: nat, r: Machine)
    requires Fits(m, env) && |wss| == |env.cpus| && 0 < v <= |env.cpus|
    requires r == LoopMachine(AfterSupport(m, env), env.cpus, wss, v)
    ensures CpusAfter(m, env.cpus, v, r)
    ensures (r.running <==> !StageOf(env.cpus[v - 1]).Leaves()) && r.on == v - 1
  {
    SupportKeepsModes(m, env);
    LoopOutcome(m, AfterSupport(m, env), env.cpus, wss, v, r);
  }

  /** The exact outcome: the loop visits every processor up to and including the first
      that stops it and no later one (VisitedIsFirstStop), and each ends in the mode of its
      stage. Control comes back unless that first one left for the guest or for the host RIP. */
  lemma InitOutcome(m: Machine, env: Env, wss: seq<seq<Write>>)
    requires Fits(m, env) && |wss| == |env.cpus| && Supported(env) && Assumptions(m, env)
    ensures CpusAfter(m, env.cpus, Visited(env.cpus), Run(m, InitTrace(m.os, env, wss)))
    ensures Run(m, InitTrace(m.os, env, wss)).running <==> !LastStage(env).Leaves()
    ensures Run(m, InitTrace(m.os, env, wss)).on == Visited(env.cpus) - 1
  {
    InitCompletes(m, env, wss);
    LoopOutcomeOf(m, env, wss, Visited(env.cpus), Run(m, InitTrace(m.os, env, wss)));
  }

  /** On the processors visited bring-up sets CR4.VMXE and keeps every other bit of CR4, and on
      the others it keeps CR4. */
  lemma KeepsCr4(m: Machine, env: Env, wss: seq<seq<Write>>, j: nat)
    requires Fits(m, env) && |wss| == |env.cpus| && Supported(env) && Assumptions(m, env) && j < |m.cpus|
    ensures KeptCr4(m, Visited(env.cpus), Run(m, InitTrace(m.os, env, wss)), j)
  {
    InitOutcome(m, env, wss);
    Cr4After(m, env.cpus, Visited(env.cpus), Run(m, InitTrace(m.os, env, wss)), j);
  }

  ghost predicate KeptCr4(m: Machine, v: nat, r: Machine, j: nat) {
    j < |m.cpus| == |r.cpus| && r.cpus[j].cr4 == if j < v then m.cpus[j].cr4 | 0x2000 else m.cpus[j].cr4
  }

  lemma Cr4After(m: Machine, cpus: seq<CpuEnv>, v: nat, r: Machine, j: nat)
    requires j < |cpus| == |m.cpus| && v <= |cpus| && CpusAfter(m, cpus, v, r) && Shows(m.cpus[j], cpus[j])
    ensures KeptCr4(m, v, r, j)
  {
  }

  // Where a run that takes too much for granted stops.
  ghost function StopsAt(m: Machine, env: Env): nat
    requires m.on < |m.cpus| == |env.cpus|
  {
    Turns(AfterSupport(m, env), env.cpus, Visited(env.cpus))
  }

  // The run stopped in turn t: the processors before it ended in the mode of their stage, and
  // it and those after it never entered VMX operation.
  ghost predicate StoppedInTurn(m: Machine, cpus: seq<CpuEnv>, t: nat, r: Machine) {
    && t < |cpus| == |r.cpus| && !r.running && !r.ok
    && (forall j :: 0 <= j < t ==> r.cpus[j].mode == ModeAfter(m.os, cpus[j]))
    && (forall j :: t <= j < |cpus| ==> r.cpus[j].mode.Off?)
  }

  lemma FaultedModes(l: Machine, t: nat, e: CpuEnv)
    requires t < |l.cpus| && !MayTurn(l, t, e)
    ensures var r := Faulted(l, t, e);
      && |r.cpus| == |l.cpus| && !r.running && !r.ok
      && forall j :: 0 <= j < |l.cpus| ==> r.cpus[j].mode == l.cpus[j].mode
  {
  }

  lemma FaultedStopped(m: Machine, env: Env, wss: seq<seq<Write>>, t: nat, l: Machine)
    requires Fits(m, env) && |wss| == |env.cpus| && t < |env.cpus|
    requires l == LoopMachine(AfterSupport(m, env), env.cpus, wss, t) && !MayTurn(l, t, env.cpus[t])
    ensures StoppedInTurn(m, env.cpus, t, Faulted(l, t, env.cpus[t]))
  {
    SupportKeepsModes(m, env);
    LoopOutcome(m, AfterSupport(m, env), env.cpus, wss, t, l);
    FaultedModes(l, t, env.cpus[t]);
  }

  lemma InitFaults(m: Machine, env: Env, wss: seq<seq<Write>>)
    requires Fits(m, env) && |wss| == |env.cpus| && Supported(env) && env.pool.Some? && !Assumptions(m, env)
    ensures var s, t := AfterSupport(m, env), StopsAt(m, env);
      var l := LoopMachine(s, env.cpus, wss, t);
      && t < Visited(env.cpus) && !MayTurn(l, t, env.cpus[t])
      && Run(m, InitTrace(m.os, env, wss)) == Faulted(l, t, env.cpus[t])
  {
    InitRun(m, env, wss);
    TurnsIffAssumptions(m, env);
    LoopCpus(AfterSupport(m, env), env.cpus, wss, StopsAt(m, env));
  }

  /** When what the loop takes for granted does not hold, the run stops in the turn of the first
      processor it does not hold for. */
  lemma InitStops(m: Machine, env: Env, wss: seq<seq<Write>>)
    requires Fits(m, env) && |wss| == |env.cpus| && Supported(env) && env.pool.Some? && !Assumptions(m, env)
    ensures StopsAt(m, env) < Visited(env.cpus)
    ensures !MayTurn(AfterSupport(m, env), StopsAt(m, env), env.cpus[StopsAt(m, env)])
    ensures forall j :: 0 <= j < StopsAt(m, env) ==> MayTurn(AfterSupport(m, env), j, env.cpus[j])
    ensures StoppedInTurn(m, env.cpus, StopsAt(m, env), Run(m, InitTrace(m.os, env, wss)))
  {
    var s, t := AfterSupport(m, env), StopsAt(m, env);
    InitFaults(m, env, wss);
    TurnsGoThrough(s, env.cpus, Visited(env.cpus));
    FaultedStopped(m, env, wss, t, LoopMachine(s, env.cpus, wss, t));
  }

  // The loop visited the first v processors and came back.
  ghost predicate CameBack(cpus: seq<CpuEnv>, v: nat) {
    && v <= |cpus|
    && forall j :: 0 <= j < v ==> !StageOf(cpus[j]).Leaves()
  }

  lemma ReturnsIffCameBack(env: Env)
    requires |env.cpus| > 0
    ensures CameBack(env.cpus, Visited(env.cpus)) <==> !LastStage(env).Leaves()
  {
    VisitedIsFirstStop(env.cpus);
  }

  /** Whenever InitHv returns, no processor is in guest mode; a processor whose VMLAUNCH was
      rejected is out of VMX operation, and one stopped at VMCLEAR or VMPTRLD in root. */
  lemma NoGuestOnReturn(m: Machine, cpus: seq<CpuEnv>, v: nat, r: Machine, j: nat)
    requires j < |cpus| == |m.cpus| && CameBack(cpus, v) && CpusAfter(m, cpus, v, r)
    ensures !r.cpus[j].mode.Guest?
    ensures r.cpus[j].mode.Off? <==>
      (j >= v || StageOf(cpus[j]).NoVmxonMemory? || StageOf(cpus[j]).VmxonFailed? || StageOf(cpus[j]).LaunchRejected?)
  {
    if j < v { assert r.cpus[j].mode == ModeAfter(m.os, cpus[j]); }
  }

  /** InitHv returns a failure exactly when the loop broke: the status of a failed VMCLEAR,
      VMPTRLD or VMLAUNCH is 1 or 2, which NT_SUCCESS accepts. */
  lemma FailureOnlyOnBreak(env: Env)
    requires Supported(env) && |env.cpus| > 0
    ensures NtSuccess(InitStatus(env)) <==> !LastStage(env).Breaks()
    ensures InitStatus(env) in {1, 2} <==>
      (LastStage(env).ClearFailed? || LastStage(env).LoadFailed? || LastStage(env).LaunchRejected?)
  {
  }

  // The status a failed instruction leaves.
  function FailureCode(s: Status): int { match s case Success => 0 case FailValid => 1 case FailInvalid => 2 }

  /** Which code: that of each breaking stage, and 1 or 2 for an instruction that failed with or
      without a current VMCS to report to. */
  lemma StatusByStage(env: Env)
    ensures !Supported(env) ==> InitStatus(env) == 0xC000_00BB - 0x1_0000_0000
    ensures Supported(env) && |env.cpus| > 0 ==>
      var e := env.cpus[Visited(env.cpus) - 1];
      match LastStage(env)
      case NoVmxonMemory => InitStatus(env) == 0xC000_00A0 - 0x1_0000_0000
      case NoVmcsMemory => InitStatus(env) == 0xC000_009A - 0x1_0000_0000
      case VmxonFailed => InitStatus(env) == 0xC000_001D - 0x1_0000_0000
      case FirstLoadFailed => InitStatus(env) == 0xC000_001D - 0x1_0000_0000
      case ClearFailed => InitStatus(env) == FailureCode(e.clear)
      case LoadFailed => InitStatus(env) == FailureCode(e.load)
      case LaunchRejected => InitStatus(env) == if e.launch.invalid then 2 else 1
      case _ => true
  {
  }

  /** The first processor that stops the loop, or the absence of one, fixes the number
      visited. */
  lemma {:induction false} VisitedAt(cpus: seq<CpuEnv>, i: nat)
    requires i <= |cpus| && forall j :: 0 <= j < i ==> !StageOf(cpus[j]).Stops()
    requires i < |cpus| ==> StageOf(cpus[i]).Stops()
    ensures Visited(cpus) == if i < |cpus| then i + 1 else |cpus|
    decreases i
  {
    if i > 0 {
      assert forall j :: 0 <= j < i - 1 ==> cpus[1..][j] == cpus[j + 1];
      VisitedAt(cpus[1..], i - 1);
    }
  }
}
