// What bring-up does to the contiguous heap: which regions each processor adds, that they
// are distinct, and what they hold when InitHv ends.
module Memory {
  import opened Machine
  import opened VmcsStore
  import opened BringUp
  import opened Runs
  import Fields
  import StateArea

  // The regions the first k processors obtained.
  ghost function Gained(cpus: seq<CpuEnv>, k: nat): map<nat, Size>
    requires k <= |cpus|
  {
    if k == 0 then map[] else HeapAfter(Gained(cpus, k - 1), cpus[k - 1])
  }

  lemma HeapAfterSum(a: map<nat, Size>, b: map<nat, Size>, e: CpuEnv)
    ensures HeapAfter(a + b, e) == a + HeapAfter(b, e)
  {
  }

  lemma {:induction false} HeapGrows(m: Machine, cpus: seq<CpuEnv>, wss: seq<seq<Write>>, k: nat)
    requires k <= |cpus| == |m.cpus| == |wss|
    ensures LoopMachine(m, cpus, wss, k).heap == m.heap + Gained(cpus, k)
  {
    if k == 0 {
      assert m.heap + map[] == m.heap;
    } else {
      HeapGrows(m, cpus, wss, k - 1);
      HeapAfterSum(m.heap, Gained(cpus, k - 1), cpus[k - 1]);
    }
  }

  ghost predicate Obtained(e: CpuEnv, va: nat) {
    e.vmxonMemory == Some(va) || (ReachesVmcs(e) && e.vmcsMemory == Some(va))
  }

  lemma {:induction false} GainedKeys(cpus: seq<CpuEnv>, k: nat, va: nat)
    requires k <= |cpus|
    ensures va in Gained(cpus, k) <==> exists j :: 0 <= j < k && Obtained(cpus[j], va)
  {
    if k > 0 {
      GainedKeys(cpus, k - 1, va);
      assert va in Gained(cpus, k) <==> va in Gained(cpus, k - 1) || Obtained(cpus[k - 1], va);
    }
  }

  // How many regions a processor obtained.
  function RegionCount(e: CpuEnv): nat {
    if e.vmxonMemory.None? then 0 else if ReachesVmcs(e) then 2 else 1
  }

  function RegionTotal(cpus: seq<CpuEnv>, k: nat): nat
    requires k <= |cpus|
  {
    if k == 0 then 0 else RegionTotal(cpus, k - 1) + RegionCount(cpus[k - 1])
  }

  lemma ObtainedAddress(e: CpuEnv, va: nat) returns (vmcs: bool)
    requires Obtained(e, va)
    ensures Address(e, vmcs) == Some(va)
  {
    vmcs := e.vmxonMemory != Some(va);
  }

  // Different processors obtain different regions, and all of them are new.
  lemma ObtainedApart(m: Machine, cpus: seq<CpuEnv>, i: nat, j: nat, va: nat)
    requires GoodAllocations(m, cpus) && i < |cpus| && j < |cpus|
    requires Obtained(cpus[i], va) && Obtained(cpus[j], va)
    ensures i == j && va !in m.heap && va != 0 && m.os.toVa(m.os.toPa(va)) == va
  {
    var a := ObtainedAddress(cpus[i], va);
    var b := ObtainedAddress(cpus[j], va);
    assert Address(cpus[i], a) == Address(cpus[j], b);
  }

  lemma HeapAfterCount(heap: map<nat, Size>, e: CpuEnv)
    requires forall va :: Obtained(e, va) ==> va !in heap
    requires e.vmxonMemory.Some? ==> e.vmxonMemory != e.vmcsMemory
    ensures |HeapAfter(heap, e)| == |heap| + RegionCount(e)
  {
    if e.vmxonMemory.Some? {
      assert Obtained(e, e.vmxonMemory.value);
      if ReachesVmcs(e) { assert Obtained(e, e.vmcsMemory.value); }
    }
  }

  /** Conservation: after k processors the heap has grown by exactly the regions they
      obtained, all distinct and all new. */
  lemma {:induction false} GainedCount(m: Machine, cpus: seq<CpuEnv>, k: nat)
    requires k <= |cpus| && GoodAllocations(m, cpus)
    ensures |Gained(cpus, k)| == RegionTotal(cpus, k)
    ensures m.heap.Keys !! Gained(cpus, k).Keys
  {
    if k > 0 {
      GainedCount(m, cpus, k - 1);
      var e := cpus[k - 1];
      forall va | Obtained(e, va)
        ensures va !in Gained(cpus, k - 1)
      {
        GainedKeys(cpus, k - 1, va);
        if va in Gained(cpus, k - 1) {
          var j :| 0 <= j < k - 1 && Obtained(cpus[j], va);
          ObtainedApart(m, cpus, j, k - 1, va);
        }
      }
      if cpus[k - 1].vmxonMemory.Some? {
        assert Address(cpus[k - 1], false) != Address(cpus[k - 1], true);
      }
      HeapAfterCount(Gained(cpus, k - 1), cpus[k - 1]);
      forall va | va in Gained(cpus, k)
        ensures va !in m.heap
      {
        GainedKeys(cpus, k, va);
        var j :| 0 <= j < k && Obtained(cpus[j], va);
        ObtainedApart(m, cpus, j, j, va);
      }
    }
  }

  lemma {:induction false} TwoEach(cpus: seq<CpuEnv>, k: nat)
    requires k <= |cpus| && forall j :: 0 <= j < k ==> ReachesVmcs(cpus[j])
    ensures RegionTotal(cpus, k) == 2 * k
  {
    if k > 0 { TwoEach(cpus, k - 1); }
  }

  lemma DisjointSum(a: map<nat, Size>, b: map<nat, Size>)
    requires a.Keys !! b.Keys
    ensures |a + b| == |a| + |b|
  {
    assert (a + b).Keys == a.Keys + b.Keys;
    assert |(a + b).Keys| == |a.Keys| + |b.Keys|;
  }

  lemma InitHeap(m: Machine, env: Env, wss: seq<seq<Write>>)
    requires Fits(m, env) && |wss| == |env.cpus| && Supported(env) && Assumptions(m, env)
    ensures Run(m, InitTrace(m.os, env, wss)).heap == m.heap + Gained(env.cpus, Visited(env.cpus))
    ensures Run(m, InitTrace(m.os, env, wss)).os == m.os
  {
    InitCompletes(m, env, wss);
    HeapGrows(AfterSupport(m, env), env.cpus, wss, Visited(env.cpus));
  }

  /** A run that stops because one processor may not go through leaves the regions of those
      before it, and its own VMXON region if it got as far as VMXON. */
  lemma StoppedHeap(m: Machine, env: Env, wss: seq<seq<Write>>)
    requires Fits(m, env) && |wss| == |env.cpus| && Supported(env) && env.pool.Some? && !Assumptions(m, env)
    ensures var t := StopsAt(m, env);
      && t < |env.cpus| && (HasMask(t, |m.cpus|) ==> env.cpus[t].vmxonMemory.Some?)
      && var before := m.heap + Gained(env.cpus, t);
         Run(m, InitTrace(m.os, env, wss)).heap
         == if !HasMask(t, |m.cpus|) then before
            else before[env.cpus[t].vmxonMemory.value := AllocationSize(env.cpus[t].vmxBasic)]
  {
    InitFaults(m, env, wss);
    HeapGrows(AfterSupport(m, env), env.cpus, wss, StopsAt(m, env));
  }

  lemma TotalOfVisited(cpus: seq<CpuEnv>)
    requires |cpus| > 0
    ensures RegionTotal(cpus, Visited(cpus)) == 2 * (Visited(cpus) - 1) + RegionCount(cpus[Visited(cpus) - 1])
  {
    CompletedReachVmcs(cpus, Visited(cpus));
    TwoEach(cpus, Visited(cpus) - 1);
  }

  lemma GrowthOfVisited(m: Machine, cpus: seq<CpuEnv>, v: nat)
    requires v == Visited(cpus) && |cpus| > 0 && GoodAllocations(m, cpus)
    ensures |m.heap + Gained(cpus, v)| == |m.heap| + 2 * (v - 1) + RegionCount(cpus[v - 1])
  {
    GainedCount(m, cpus, v);
    DisjointSum(m.heap, Gained(cpus, v));
    TotalOfVisited(cpus);
  }

  /** Every region obtained is exactly as many bytes long as its processor needs. */
  lemma {:induction false} GainedBytes(cpus: seq<CpuEnv>, k: nat, va: nat) returns (j: nat)
    requires k <= |cpus| && va in Gained(cpus, k)
    ensures j < k && Obtained(cpus[j], va) && Gained(cpus, k)[va].bytes == NeededBytes(cpus[j].vmxBasic)
  {
    var e := cpus[k - 1];
    if Obtained(e, va) {
      j := k - 1;
      AllocationFits(e.vmxBasic);
    } else {
      j := GainedBytes(cpus, k - 1, va);
    }
  }

  /** When InitHv has visited v processors, the heap holds the two regions of each of the
      first v - 1 and what the last one obtained before it stopped. */
  lemma InitGrowth(m: Machine, env: Env, wss: seq<seq<Write>>)
    requires Fits(m, env) && |wss| == |env.cpus| && Supported(env) && Assumptions(m, env)
    ensures |Run(m, InitTrace(m.os, env, wss)).heap|
            == |m.heap| + 2 * (Visited(env.cpus) - 1) + RegionCount(env.cpus[Visited(env.cpus) - 1])
  {
    InitHeap(m, env, wss);
    GrowthTo(m, env.cpus, Visited(env.cpus), Run(m, InitTrace(m.os, env, wss)).heap);
  }

  lemma GrowthTo(m: Machine, cpus: seq<CpuEnv>, v: nat, heap: map<nat, Size>)
    requires 0 < v == Visited(cpus) && GoodAllocations(m, cpus) && heap == m.heap + Gained(cpus, v)
    ensures |heap| == |m.heap| + 2 * (v - 1) + RegionCount(cpus[v - 1])
  {
    GrowthOfVisited(m, cpus, v);
  }

  lemma CompletedReachVmcs(cpus: seq<CpuEnv>, v: nat)
    requires v == Visited(cpus)
    ensures forall j :: 0 <= j < |cpus| && j < v - 1 ==> ReachesVmcs(cpus[j])
  {
    VisitedIsFirstStop(cpus);
  }

  // Regions of different processors, and the two of one, have different physical addresses.
  lemma PhysicalApart(m: Machine, cpus: seq<CpuEnv>, i: nat, a: bool, j: nat, b: bool)
    requires GoodAllocations(m, cpus) && i < |cpus| && j < |cpus| && (i != j || a != b)
    requires Address(cpus[i], a).Some? && Address(cpus[j], b).Some?
    ensures m.os.toPa(Address(cpus[i], a).value) != m.os.toPa(Address(cpus[j], b).value)
  {
    var x, y := Address(cpus[i], a).value, Address(cpus[j], b).value;
    assert m.os.toVa(m.os.toPa(x)) == x && m.os.toVa(m.os.toPa(y)) == y;
    assert x != y;
  }

  lemma OtherRegionsKept(m: Machine, r: map<nat, Region>, cpus: seq<CpuEnv>, i: nat, written: Store, j: nat, b: bool)
    requires GoodAllocations(m, cpus) && i < |cpus| && j < |cpus| && i != j && Address(cpus[j], b).Some?
    ensures var pa := m.os.toPa(Address(cpus[j], b).value);
      (pa in RegionsAfter(r, m.os, cpus[i], written) <==> pa in r)
      && (pa in r ==> RegionsAfter(r, m.os, cpus[i], written)[pa] == r[pa])
  {
    if Address(cpus[i], false).Some? { PhysicalApart(m, cpus, i, false, j, b); }
    if Address(cpus[i], true).Some? { PhysicalApart(m, cpus, i, true, j, b); }
  }

  lemma OwnRegions(m: Machine, r: map<nat, Region>, cpus: seq<CpuEnv>, j: nat, written: Store)
    requires GoodAllocations(m, cpus) && j < |cpus| && cpus[j].vmxonMemory.Some?
    ensures var r' := RegionsAfter(r, m.os, cpus[j], written);
      && m.os.toPa(cpus[j].vmxonMemory.value) in r'
      && r'[m.os.toPa(cpus[j].vmxonMemory.value)] == NewRegion(cpus[j])
      && (ReachesVmcs(cpus[j]) ==>
            && m.os.toPa(cpus[j].vmcsMemory.value) in r'
            && r'[m.os.toPa(cpus[j].vmcsMemory.value)] == VmcsAfter(cpus[j], written))
  {
    assert Address(cpus[j], false) == cpus[j].vmxonMemory && Address(cpus[j], true) == cpus[j].vmcsMemory;
    if ReachesVmcs(cpus[j]) { PhysicalApart(m, cpus, j, false, j, true); }
  }

  /** The regions of a visited processor keep, to the end of the run, what its own bring-up
      left in them. */
  lemma {:induction false} RegionsHold(m: Machine, s: Machine, cpus: seq<CpuEnv>, wss: seq<seq<Write>>, k: nat, j: nat)
    requires j < k <= |cpus| == |s.cpus| == |wss| && GoodAllocations(m, cpus) && s.os == m.os
    requires cpus[j].vmxonMemory.Some?
    ensures var r := LoopMachine(s, cpus, wss, k).regions;
      && m.os.toPa(cpus[j].vmxonMemory.value) in r
      && r[m.os.toPa(cpus[j].vmxonMemory.value)] == NewRegion(cpus[j])
      && (ReachesVmcs(cpus[j]) ==>
            && m.os.toPa(cpus[j].vmcsMemory.value) in r
            && r[m.os.toPa(cpus[j].vmcsMemory.value)] == VmcsAfter(cpus[j], WrittenFields(cpus[j], wss[j])))
  {
    var i, written := k - 1, WrittenFields(cpus[k - 1], wss[k - 1]);
    var before := LoopMachine(s, cpus, wss, k - 1).regions;
    assert LoopMachine(s, cpus, wss, k).regions == RegionsAfter(before, m.os, cpus[i], written);
    assert Address(cpus[j], false) == cpus[j].vmxonMemory && Address(cpus[j], true) == cpus[j].vmcsMemory;
    if j == k - 1 {
      OwnRegions(m, before, cpus, j, written);
    } else {
      RegionsHold(m, s, cpus, wss, k - 1, j);
      OtherRegionsKept(m, before, cpus, i, written, j, false);
      if ReachesVmcs(cpus[j]) { OtherRegionsKept(m, before, cpus, i, written, j, true); }
    }
  }

  lemma LoopRegions(m: Machine, env: Env, wss: seq<seq<Write>>, j: nat)
    requires Fits(m, env) && |wss| == |env.cpus| && Supported(env) && Assumptions(m, env)
    requires j < Visited(env.cpus) && ReachesVmcs(env.cpus[j])
    ensures var r, pa := Run(m, InitTrace(m.os, env, wss)).regions, m.os.toPa(env.cpus[j].vmcsMemory.value);
      pa in r && r[pa] == VmcsAfter(env.cpus[j], WrittenFields(env.cpus[j], wss[j]))
  {
    InitCompletes(m, env, wss);
    RegionsHold(m, AfterSupport(m, env), env.cpus, wss, Visited(env.cpus), j);
  }

  // VMLAUNCH was executed on a processor.
  predicate Launches(s: Stage) { s.LaunchRejected? || s.LaunchEntered? || s.LaunchEntryFailed? }

  lemma LaunchedRegion(e: CpuEnv, written: Store)
    requires Launches(StageOf(e))
    ensures ReachesVmcs(e) && VmcsAfter(e, written).fields == written
  {
  }

  /** Every VMCS that VMLAUNCH was executed on holds, field for field, what the writes made
      for its processor leave in whatever VMCLEAR had put there. */
  lemma LaunchedFields(m: Machine, env: Env, wss: seq<seq<Write>>, j: nat)
    requires Fits(m, env) && |wss| == |env.cpus| && Supported(env) && Assumptions(m, env)
    requires j < Visited(env.cpus) && Launches(StageOf(env.cpus[j]))
    ensures var r, pa := Run(m, InitTrace(m.os, env, wss)).regions, m.os.toPa(env.cpus[j].vmcsMemory.value);
      pa in r && r[pa].fields == Apply(env.cpus[j].cleared, wss[j])
  {
    LaunchedRegion(env.cpus[j], WrittenFields(env.cpus[j], wss[j]));
    LoopRegions(m, env, wss, j);
  }

  /** Each of them enters the guest at RestoreAfterLaunch and exits to the stub, on the stack
      of its own slot of VmmState. */
  lemma LaunchedEntryPoints(m: Machine, env: Env, wss: seq<seq<Write>>, j: nat)
    requires Fits(m, env) && |wss| == |env.cpus| && Supported(env) && Assumptions(m, env)
    requires j < Visited(env.cpus) && Launches(StageOf(env.cpus[j])) && wss[j] == LaunchWrites(env, j)
    requires StateArea.HasEntryPoints(env.cpus[j].cleared)
    ensures var r, pa := Run(m, InitTrace(m.os, env, wss)).regions, m.os.toPa(env.cpus[j].vmcsMemory.value);
      && pa in r && StateArea.HasEntryPoints(r[pa].fields)
      && r[pa].fields[FieldOf(Fields.GUEST_RIP)] == env.cpus[j].capture.restoreAfterLaunch
      && r[pa].fields[FieldOf(Fields.HOST_RIP)] == env.cpus[j].capture.vmExitStub
      && r[pa].fields[FieldOf(Fields.HOST_RSP)] == Rsp(env, j)
  {
    LaunchedFields(m, env, wss, j);
    var e := env.cpus[j];
    StateArea.EntryPointsStored(e.cleared, e.capture, Cell(EnabledCr4(e.cr4)), Rsp(env, j));
  }

  /** At the end of every run each of them still holds the control words of ControlsByNumber for
      the MSRs of its own processor. */
  lemma LaunchedControls(m: Machine, env: Env, wss: seq<seq<Write>>, j: nat)
    requires Fits(m, env) && |wss| == |env.cpus| && Supported(env) && Assumptions(m, env)
    requires j < Visited(env.cpus) && Launches(StageOf(env.cpus[j])) && wss[j] == LaunchWrites(env, j)
    requires StateArea.HasControls(env.cpus[j].cleared)
    ensures var r, pa := Run(m, InitTrace(m.os, env, wss)).regions, m.os.toPa(env.cpus[j].vmcsMemory.value);
      pa in r && StateArea.HoldsControls(r[pa].fields, env.cpus[j].capture.msrs)
  {
    var e := env.cpus[j];
    LaunchedFields(m, env, wss, j);
    StateArea.ControlsByNumber(e.cleared, e.capture, Cell(EnabledCr4(e.cr4)), Rsp(env, j));
  }
}
