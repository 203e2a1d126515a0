// What bring-up and VM exits have to do with each other: the stacks that the VMCSs of a run
// lead their exits to, and the guest that runs from one of them.
module Guests {
  import opened Power
  import opened Machine
  import opened VmcsStore
  import opened BringUp
  import opened Runs
  import opened Memory
  import Fields
  import ExitStack
  import StateArea
  import VmExit

  // A run whose bring-up of processor i executed VMLAUNCH.
  ghost predicate LaunchedAt(m: Machine, env: Env, wss: seq<seq<Write>>, i: nat) {
    && Fits(m, env) && |wss| == |env.cpus| && Supported(env) && Assumptions(m, env)
    && i < Visited(env.cpus) && Launches(StageOf(env.cpus[i])) && wss[i] == LaunchWrites(env, i)
    && StateArea.HasEntryPoints(env.cpus[i].cleared)
  }

  // The fields of the VMCS of processor i at the end of the run.
  ghost predicate Holds(m: Machine, r: Machine, e: CpuEnv, fields: Store) {
    && e.vmcsMemory.Some? && m.os.toPa(e.vmcsMemory.value) in r.regions
    && r.regions[m.os.toPa(e.vmcsMemory.value)].fields == fields
  }

  lemma HeldFields(m: Machine, env: Env, wss: seq<seq<Write>>, i: nat, e: CpuEnv, fields: Store)
    requires LaunchedAt(m, env, wss, i) && e == env.cpus[i]
    requires Holds(m, Run(m, InitTrace(m.os, env, wss)), e, fields)
    ensures fields == Apply(e.cleared, StateArea.AllWrites(e.capture, Cell(EnabledCr4(e.cr4)), Rsp(env, i)))
    ensures StateArea.HasEntryPoints(e.cleared)
  {
    LaunchedFields(m, env, wss, i);
  }

  // a is one CONTEXT below the end of VmmStack in slot i of VmmState, and a 64-bit address.
  ghost predicate IsStackTop(env: Env, i: nat, a: nat) {
    && env.pool.Some? && a < TWO_64
    && a + env.layout.contextSize
       == env.pool.value + i * env.layout.vpSize + env.layout.stackOffset + env.layout.stackSize
  }

  /** The VMCS of a processor that VMLAUNCH was executed on leads its exits there. */
  lemma LaunchedHostRsp(m: Machine, env: Env, wss: seq<seq<Write>>, i: nat, fields: Store, a: nat)
    requires LaunchedAt(m, env, wss, i) && Holds(m, Run(m, InitTrace(m.os, env, wss)), env.cpus[i], fields)
    requires IsStackTop(env, i, a)
    ensures FieldOf(Fields.HOST_RSP) in fields && fields[FieldOf(Fields.HOST_RSP)] == Cell(a as bv64)
  {
    var e := env.cpus[i];
    HeldFields(m, env, wss, i, e, fields);
    StateArea.EntryPointsStored(e.cleared, e.capture, Cell(EnabledCr4(e.cr4)), Rsp(env, i));
    RspIsHostRsp(env, i, env.pool.value, a);
  }

  // The bytes an exit with HOST_RSP a may write.
  ghost predicate InFrameAt(l: ExitStack.Layout, a: nat, x: int) {
    a - ExitStack.FRAME - l.depth <= x < a + l.contextSize
  }

  /** The frames that the exits of two processors write there have no byte in common, and each
      lies in the stack of its own slot. */
  lemma LaunchedFramesApart(env: Env, i: nat, j: nat, a: nat, b: nat, x: int)
    requires i != j && env.layout.Valid() && IsStackTop(env, i, a) && IsStackTop(env, j, b)
    requires InFrameAt(env.layout, a, x)
    ensures !InFrameAt(env.layout, b, x) && ExitStack.InStack(env.layout, env.pool.value, i, x)
  {
    ExitStack.FrameInStack(env.layout, env.pool.value, i);
    ExitStack.FrameInStack(env.layout, env.pool.value, j);
    ExitStack.FramesApart(env.layout, env.pool.value, i, j, x);
  }

  // CR4 is what the guest and the host get, and what the guest is shown.
  ghost predicate HasCr4(s: Store) {
    StateArea.HasRest(s) && FieldOf(Fields.HOST_CR4) in s && FieldOf(Fields.GUEST_CR4) in s
  }

  ghost predicate HoldsCr4(s: Store, cr4: Cell) {
    && HasCr4(s)
    && s[FieldOf(Fields.GUEST_CR4)] == s[FieldOf(Fields.HOST_CR4)] == s[FieldOf(Fields.CR4_READ_SHADOW)] == cr4
  }

  /** That VMCS gives guest and host, and shows the guest, the processor's own CR4 with VMXE set. */
  lemma LaunchedCr4(m: Machine, env: Env, wss: seq<seq<Write>>, i: nat, fields: Store, cr4: bv64)
    requires LaunchedAt(m, env, wss, i) && Holds(m, Run(m, InitTrace(m.os, env, wss)), env.cpus[i], fields)
    requires HasCr4(env.cpus[i].cleared)
    requires cr4 == m.cpus[i].cr4
    ensures HoldsCr4(fields, Cell(cr4 | 0x2000))
  {
    var e := env.cpus[i];
    HeldFields(m, env, wss, i, e, fields);
    Cr4Of(fields, e.cleared, e.capture, cr4, Rsp(env, i));
  }

  lemma Cr4Of(fields: Store, s: Store, c: StateArea.Capture, cr4: bv64, rsp: Cell)
    requires fields == Apply(s, StateArea.AllWrites(c, Cell(EnabledCr4(cr4)), rsp)) && HasCr4(s)
    ensures HoldsCr4(fields, Cell(cr4 | 0x2000))
  {
    StateArea.Cr4Stored(s, c, Cell(EnabledCr4(cr4)), rsp);
    EnabledIs(cr4);
  }

  lemma EnabledIs(cr4: bv64)
    ensures EnabledCr4(cr4) == cr4 | 0x2000
  {
  }

  // After these exits RIP is as far past start as the sum of their advances.
  ghost predicate Advanced(fields: Store, start: Cell, xs: seq<VmExit.Exit>)
    requires VmExit.HasExitFields(VmExit.Numbers(fields))
  {
    VmExit.Rip(VmExit.AfterExits(VmExit.Numbers(fields), xs)) == (VmExit.Number(start) + VmExit.Total(xs)) % TWO_64
  }

  lemma RipOf(fields: Store, s: Store, c: StateArea.Capture, cr4: Cell, rsp: Cell, xs: seq<VmExit.Exit>)
    requires fields == Apply(s, StateArea.AllWrites(c, cr4, rsp))
    requires StateArea.HasEntryPoints(s) && VmExit.HasExitFields(VmExit.Numbers(fields))
    ensures Advanced(fields, c.restoreAfterLaunch, xs)
  {
    VmExit.RunFromLaunch(s, c, cr4, rsp, xs);
  }

  /** A guest that runs from a VMCS of the run is, after any sequence of exits, as far past
      RestoreAfterLaunch as the sum of their advances. */
  lemma GuestRip(m: Machine, env: Env, wss: seq<seq<Write>>, i: nat, fields: Store, xs: seq<VmExit.Exit>)
    requires LaunchedAt(m, env, wss, i) && Holds(m, Run(m, InitTrace(m.os, env, wss)), env.cpus[i], fields)
    requires VmExit.HasExitFields(VmExit.Numbers(fields))
    ensures Advanced(fields, env.cpus[i].capture.restoreAfterLaunch, xs)
  {
    var e := env.cpus[i];
    HeldFields(m, env, wss, i, e, fields);
    RipOf(fields, e.cleared, e.capture, Cell(EnabledCr4(e.cr4)), Rsp(env, i), xs);
  }
}
