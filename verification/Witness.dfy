// Runs that show the two sides of the conditions the theorems give: that what they assume can
// hold, and inputs at which the code does not do what is intended.
module Witness {
  import opened Machine
  import opened BringUp
  import opened Runs
  import opened Memory
  import opened Teardown
  import opened Close
  import Controls
  import ExitStack
  import Selectors
  import StateArea

  const IDENTITY := Translation((va: nat) => va, (pa: nat) => pa)

  // A processor out of VMX operation, by its IA32_FEATURE_CONTROL: 5 has VMXON locked in and
  // enabled, 0 has neither.
  ghost function Processor(featureControl: bv64, c: StateArea.Capture): Cpu {
    Cpu(0, featureControl, c.msrs.vmxBasic, Off)
  }

  ghost function MachineOf(cpus: seq<Cpu>): Machine { Machine(cpus, 0, map[], map[], IDENTITY, true, true) }

  ghost function One(c: StateArea.Capture): Machine { MachineOf([Processor(5, c)]) }

  // Processors with these values in IA32_FEATURE_CONTROL.
  ghost function Many(fcs: seq<bv64>, c: StateArea.Capture): (m: Machine)
    ensures |m.cpus| == |fcs|
  {
    MachineOf(seq(|fcs|, i requires 0 <= i < |fcs| => Processor(fcs[i], c)))
  }

  // A processor with two regions at these addresses, that gets as far as VMLAUNCH if the
  // second VMPTRLD succeeds.
  ghost function Turn(va: nat, va': nat, load: Status, c: StateArea.Capture, launch: LaunchOutcome): CpuEnv {
    CpuEnv(c.msrs.vmxBasic, 0, Some(va), Success, Some(va'), Success, Success, map[], load, c, launch)
  }

  // CPUID reports VMX, and IA32_FEATURE_CONTROL is 5 where InitHv starts.
  ghost function EnvOf(pool: Option<nat>, l: ExitStack.Layout, cpus: seq<CpuEnv>): Env {
    Env(0x20, 5, pool, l, cpus)
  }

  const REJECTED := Rejected(false)

  ghost function OneTurn(load: Status, c: StateArea.Capture, launch: LaunchOutcome): seq<CpuEnv> {
    [Turn(4096, 8192, load, c, launch)]
  }

  // Every VMLAUNCH is rejected, so the loop visits them all.
  ghost function ManyTurns(n: nat, c: StateArea.Capture): (cpus: seq<CpuEnv>)
    ensures |cpus| == n
  {
    seq(n, i requires 0 <= i < n => Turn(8192 * i + 4096, 8192 * i + 8192, Success, c, REJECTED))
  }

  lemma OneFits(pool: Option<nat>, l: ExitStack.Layout, load: Status, c: StateArea.Capture, launch: LaunchOutcome)
    ensures Fits(One(c), EnvOf(pool, l, OneTurn(load, c, launch)))
    ensures Supported(EnvOf(pool, l, OneTurn(load, c, launch)))
    ensures ZeroIsFree(One(c), OneTurn(load, c, launch))
    ensures Visited(OneTurn(load, c, launch)) == 1
  {
  }

  lemma ManyAllocations(fcs: seq<bv64>, c: StateArea.Capture, m: Machine, cpus: seq<CpuEnv>)
    requires m == Many(fcs, c) && cpus == ManyTurns(|fcs|, c)
    ensures GoodAllocations(m, cpus)
  {
    forall i, a | 0 <= i < |cpus| ensures Address(cpus[i], a) == Some(8192 * i + if a then 8192 else 4096) {}
  }

  lemma ManyFit(fcs: seq<bv64>, l: ExitStack.Layout, c: StateArea.Capture)
    requires |fcs| > 0 && fcs[0] == 5
    ensures var env := EnvOf(Some(0x10_0000), l, ManyTurns(|fcs|, c));
      Fits(Many(fcs, c), env) && Supported(env) && Visited(env.cpus) == |fcs|
  {
    var cpus := ManyTurns(|fcs|, c);
    ManyAllocations(fcs, c, Many(fcs, c), cpus);
    VisitedAt(cpus, |fcs|);
  }

  // What HvCreate leaves, and HvClose after it.
  ghost function InitFinal(m: Machine, env: Env): Machine {
    Run(m, InitTrace(m.os, env, WritesOf(env)))
  }

  ghost function CloseFinal(m: Machine, env: Env): Machine
    requires env.pool.Some?
  {
    Run(InitFinal(m, env), ExitTrace(m.os, SlotsAfter(m.os, env, Visited(env.cpus)), |env.cpus|))
  }

  /** A run that is legal throughout and ends with the processor a guest. */
  lemma LaunchIsLegal(l: ExitStack.Layout, c: StateArea.Capture)
    ensures var r := InitFinal(One(c), EnvOf(Some(0x10_0000), l, OneTurn(Success, c, Entered)));
      r.ok && !r.running && |r.cpus| == 1 && r.cpus[0].mode == Guest(4096, 8192)
  {
    var env := EnvOf(Some(0x10_0000), l, OneTurn(Success, c, Entered));
    OneFits(env.pool, l, Success, c, Entered);
    EnteredStage(c);
    EntersGuest(c, env, Turn(4096, 8192, Success, c, Entered), InitFinal(One(c), env));
  }

  lemma EnteredStage(c: StateArea.Capture)
    ensures var e := Turn(4096, 8192, Success, c, Entered);
      StageOf(e).LaunchEntered? && ModeAfter(IDENTITY, e) == Guest(4096, 8192)
  {
  }

  lemma EntersGuest(c: StateArea.Capture, env: Env, e: CpuEnv, r: Machine)
    requires Fits(One(c), env) && Supported(env) && env.pool.Some? && env.cpus == [e] && Visited(env.cpus) == 1
    requires StageOf(e).LaunchEntered? && r == InitFinal(One(c), env)
    ensures r.ok && !r.running && |r.cpus| == 1 && r.cpus[0].mode == ModeAfter(IDENTITY, e)
  {
    SafeIfAllEnabled(One(c), env, WritesOf(env));
    InitOutcome(One(c), env, WritesOf(env));
  }

  /** So is one that starts where firmware left IA32_FEATURE_CONTROL zero, and unlocked: it is
      locked with VMXON enabled on the way. */
  lemma UnlockedIsLegal(l: ExitStack.Layout, c: StateArea.Capture)
    ensures var env := EnvOf(Some(0x10_0000), l, OneTurn(Success, c, Entered)).(featureControl := 0);
      var r := InitFinal(MachineOf([Processor(0, c)]), env);
      r.ok && !r.running && |r.cpus| == 1 && r.cpus[0].mode == Guest(4096, 8192)
      && r.cpus[0].featureControl == 5
  {
    var env := EnvOf(Some(0x10_0000), l, OneTurn(Success, c, Entered)).(featureControl := 0);
    var e := Turn(4096, 8192, Success, c, Entered);
    UnlockedFits(l, c, env);
    EnteredStage(c);
    EntersUnlocked(c, env, e, InitFinal(MachineOf([Processor(0, c)]), env));
  }

  lemma UnlockedFits(l: ExitStack.Layout, c: StateArea.Capture, env: Env)
    requires env == EnvOf(Some(0x10_0000), l, OneTurn(Success, c, Entered)).(featureControl := 0)
    ensures Fits(MachineOf([Processor(0, c)]), env) && Supported(env) && Visited(env.cpus) == 1
  {
  }

  lemma EntersUnlocked(c: StateArea.Capture, env: Env, e: CpuEnv, r: Machine)
    requires Fits(MachineOf([Processor(0, c)]), env) && Supported(env) && env.pool.Some?
    requires env.cpus == [e] && Visited(env.cpus) == 1 && env.featureControl == 0 && env.cpuidEcx == 0x20
    requires StageOf(e).LaunchEntered? && r == InitFinal(MachineOf([Processor(0, c)]), env)
    ensures r.ok && !r.running && |r.cpus| == 1 && r.cpus[0].mode == ModeAfter(IDENTITY, e)
    ensures r.cpus[0].featureControl == 5
  {
    var m := MachineOf([Processor(0, c)]);
    SafeIfAllEnabled(m, env, WritesOf(env));
    InitOutcome(m, env, WritesOf(env));
    InitCompletes(m, env, WritesOf(env));
    LoopCpus(AfterSupport(m, env), env.cpus, WritesOf(env), 1);
  }

  /** Without memory for VmmState the same run is not legal. */
  lemma NullPoolIsIllegal(l: ExitStack.Layout, c: StateArea.Capture)
    ensures !InitFinal(One(c), EnvOf(None, l, OneTurn(Success, c, Entered))).ok
  {
    var env := EnvOf(None, l, OneTurn(Success, c, Entered));
    OneFits(None, l, Success, c, Entered);
    InitSafe(One(c), env, WritesOf(env));
  }

  /** Nor is one that goes on to a second processor where IA32_FEATURE_CONTROL is zero. */
  lemma UncheckedProcessorIsIllegal(l: ExitStack.Layout, c: StateArea.Capture)
    ensures !InitFinal(Many([5, 0], c), EnvOf(Some(0x10_0000), l, ManyTurns(2, c))).ok
  {
    var fcs: seq<bv64> := [5, 0];
    var env := EnvOf(Some(0x10_0000), l, ManyTurns(2, c));
    ManyFit(fcs, l, c);
    UnsafeIfOneIsNot(Many(fcs, c), env, WritesOf(env), 1);
  }

  /** On n processors, all with VMXON enabled, that all reject VMLAUNCH, the run is legal exactly
      up to 32 of them. */
  lemma LegalUpTo32(n: nat, l: ExitStack.Layout, c: StateArea.Capture)
    requires n > 0
    ensures InitFinal(Many(seq(n, _ => 5), c), EnvOf(Some(0x10_0000), l, ManyTurns(n, c))).ok <==> n <= 32
  {
    var fcs: seq<bv64> := seq(n, _ => 5);
    var env := EnvOf(Some(0x10_0000), l, ManyTurns(n, c));
    ManyFit(fcs, l, c);
    if n <= 32 {
      SafeIfAllEnabled(Many(fcs, c), env, WritesOf(env));
    } else {
      UnsafeIfTooMany(Many(fcs, c), env, WritesOf(env));
    }
  }

  lemma CloseOfOne(c: StateArea.Capture, env: Env, e: CpuEnv)
    requires Fits(One(c), env) && Supported(env) && env.pool.Some? && env.cpus == [e] && Visited(env.cpus) == 1
    requires ZeroIsFree(One(c), env.cpus) && !StageOf(e).Leaves()
    ensures InitFinal(One(c), env).ok && (CloseFinal(One(c), env).ok <==> LeftInRoot(e))
    ensures LeftInRoot(e) ==> CloseFinal(One(c), env).heap == One(c).heap
    ensures !LeftInRoot(e) ==> CloseFinal(One(c), env).heap == One(c).heap + GainedFrom(env.cpus, 0, 1)
  {
    SafeIfAllEnabled(One(c), env, WritesOf(env));
    CreateThenClose(One(c), env, WritesOf(env));
    assert AllLeftInRoot(env.cpus, 1, 1) <==> LeftInRoot(env.cpus[0]);
    PrefixLeftInRoot(env.cpus, 1, 1);
  }

  /** When the second VMPTRLD fails, HvClose is legal and gives both regions back. */
  lemma FailedLoadCloses(l: ExitStack.Layout, c: StateArea.Capture)
    ensures var env := EnvOf(Some(0x10_0000), l, OneTurn(FailValid, c, REJECTED));
      CloseFinal(One(c), env).ok && CloseFinal(One(c), env).heap == One(c).heap
  {
    OneFits(Some(0x10_0000), l, FailValid, c, REJECTED);
    CloseOfOne(c, EnvOf(Some(0x10_0000), l, OneTurn(FailValid, c, REJECTED)), Turn(4096, 8192, FailValid, c, REJECTED));
  }

  /** When VMLAUNCH is rejected, HvCreate is legal, HvClose is not, and both regions stay. */
  lemma RejectedLaunchCannotClose(l: ExitStack.Layout, c: StateArea.Capture)
    ensures var env := EnvOf(Some(0x10_0000), l, OneTurn(Success, c, REJECTED));
      InitFinal(One(c), env).ok && !CloseFinal(One(c), env).ok && CloseFinal(One(c), env).heap.Keys == {4096, 8192}
  {
    var env := EnvOf(Some(0x10_0000), l, OneTurn(Success, c, REJECTED));
    OneFits(Some(0x10_0000), l, Success, c, REJECTED);
    CloseOfOne(c, env, Turn(4096, 8192, Success, c, REJECTED));
    TwoRegions(env.cpus, c);
  }

  lemma TwoRegions(cpus: seq<CpuEnv>, c: StateArea.Capture)
    requires cpus == OneTurn(Success, c, REJECTED)
    ensures GainedFrom(cpus, 0, 1).Keys == {4096, 8192}
  {
    forall va: nat ensures va in GainedFrom(cpus, 0, 1) <==> va == 4096 || va == 8192 {
      GainedFromKeys(One(c), cpus, 0, 1, va);
      assert Obtained(cpus[0], va) <==> va == 4096 || va == 8192;
    }
  }

  /** On a processor that allows no secondary control, the secondary word is not legal. */
  lemma RdtscpNotAllowed(c: StateArea.Capture)
    requires c.msrs.proc2 == 0
    ensures !Controls.LegalBy(StateArea.SecondaryControl(), c.msrs.For(Controls.ProcBased2))
  {
  }

  /** A 64-bit code descriptor with base 0, followed in the GDT by a data descriptor, both of
      limit 0xFFFFF: the code finds the base 0xFFFF00000000. */
  lemma CodeBaseIsWrong()
    ensures var code, data := 0x00AF_9B00_0000_FFFF, 0x00CF_9300_0000_FFFF;
      && Selectors.ArchitecturalBase(code, data) == 0
      && Selectors.TranslatedBase(code, data) == 0xFFFF_0000_0000
  {
  }

  /** The descriptor of a task state segment at 0xFFFFF80000001000: the code finds 0x1000. */
  lemma TaskBaseIsWrong()
    ensures var low, high := 0x0000_8B00_1000_0067, 0xFFFF_F800;
      && Selectors.ArchitecturalBase(low, high) == 0xFFFF_F800_0000_1000
      && Selectors.TranslatedBase(low, high) == 0x1000
  {
  }

  const Nothing: ExitStack.Memory := x => ExitStack.Unmapped

  /** A guest that exits with 4096 in RCX, where nothing is mapped: what the handler takes for
      RCX is not there. */
  lemma RcxIsLost(call: ExitStack.Call, contextSize: nat, depth: nat, rsp: int)
    requires call.Fits(contextSize, depth) && ExitStack.KeepsRcx(4096, call.home) && rsp >= 8192 + depth
    ensures ExitStack.Recovered(ExitStack.StubMemory(Nothing, rsp, 4096, call), rsp - 8) == ExitStack.NoValue
  {
    ExitStack.RcxSurvivesIff(Nothing, rsp, 4096, call, contextSize, depth);
    ExitStack.ReadElsewhere(Nothing, rsp, 4096, call, contextSize, depth, 4088);
  }
}
