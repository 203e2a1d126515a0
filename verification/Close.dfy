// `HvClose` after `HvCreate` (hv/src/main.c): how far teardown gets, for every way bring-up
// can come back, and what is left in the contiguous heap.
module Close {
  import opened Machine
  import opened VmcsStore
  import opened BringUp
  import opened Runs
  import opened Memory
  import opened Teardown

  // The address translation of 0, which unfilled slots lead to, is not a contiguous
  // allocation.
  ghost predicate ZeroIsFree(m: Machine, cpus: seq<CpuEnv>) {
    && m.os.toVa(0) !in m.heap
    && forall j, a :: 0 <= j < |cpus| ==> Address(cpus[j], a) != Some(m.os.toVa(0))
  }

  // Bring-up got as far as a VMCS region and left the processor in root operation: it
  // stopped at the first VMPTRLD, at VMCLEAR or at the second VMPTRLD.
  predicate LeftInRoot(e: CpuEnv) {
    StageOf(e).FirstLoadFailed? || StageOf(e).ClearFailed? || StageOf(e).LoadFailed?
  }

  // The regions that processors k and later, of the first v, obtained.
  ghost function GainedFrom(cpus: seq<CpuEnv>, k: nat, v: nat): map<nat, Size>
    requires k <= v <= |cpus|
  {
    Gained(cpus, v) - Gained(cpus, k).Keys
  }

  lemma GainedFromKeys(m: Machine, cpus: seq<CpuEnv>, k: nat, v: nat, va: nat)
    requires k <= v <= |cpus| && GoodAllocations(m, cpus)
    ensures va in GainedFrom(cpus, k, v) <==> exists j :: k <= j < v && Obtained(cpus[j], va)
  {
    GainedKeys(cpus, v, va);
    GainedKeys(cpus, k, va);
    if j :| k <= j < v && Obtained(cpus[j], va) {
      if va in Gained(cpus, k) {
        var i :| 0 <= i < k && Obtained(cpus[i], va);
        ObtainedApart(m, cpus, i, j, va);
      }
    }
  }

  lemma {:induction false} GainedGrows(cpus: seq<CpuEnv>, k: nat, v: nat)
    requires k <= v <= |cpus|
    ensures Gained(cpus, k).Keys <= Gained(cpus, v).Keys
  {
    if k < v { GainedGrows(cpus, k, v - 1); }
  }

  lemma MinusCount(a: map<nat, Size>, s: set<nat>)
    requires s <= a.Keys
    ensures |a - s| == |a| - |s|
  {
    assert (a - s).Keys == a.Keys - s;
    assert |a.Keys - s| == |a.Keys| - |s|;
  }

  lemma GainedFromCount(m: Machine, cpus: seq<CpuEnv>, k: nat, v: nat)
    requires k <= v <= |cpus| && GoodAllocations(m, cpus) && forall j :: 0 <= j < k ==> ReachesVmcs(cpus[j])
    ensures |GainedFrom(cpus, k, v)| == RegionTotal(cpus, v) - 2 * k
  {
    GainedCount(m, cpus, v);
    GainedCount(m, cpus, k);
    TwoEach(cpus, k);
    GainedGrows(cpus, k, v);
    MinusCount(Gained(cpus, v), Gained(cpus, k).Keys);
  }

  // r is where InitHv came back, having visited v processors.
  ghost predicate Returned(m: Machine, cpus: seq<CpuEnv>, v: nat, r: Machine) {
    && v <= |cpus| == |m.cpus| && (|cpus| <= 32 || v <= 31) && CameBack(cpus, v) && CpusAfter(m, cpus, v, r)
    && r.heap == m.heap + Gained(cpus, v) && r.os == m.os
    && r.running && r.on < |r.cpus|
    && GoodAllocations(m, cpus) && ZeroIsFree(m, cpus)
  }

  ghost predicate AllLeftInRoot(cpus: seq<CpuEnv>, v: nat, k: nat)
    requires k <= |cpus|
  {
    forall j {:trigger cpus[j]} :: 0 <= j < k ==> j < v && LeftInRoot(cpus[j])
  }

  lemma FreedNext(m: Machine, env: Env, v: nat, k: nat)
    requires env.pool.Some? && k < v <= |env.cpus| && GoodAllocations(m, env.cpus) && ReachesVmcs(env.cpus[k])
    ensures FreedAddresses(m.os, SlotsAfter(m.os, env, v), k + 1)
            == FreedAddresses(m.os, SlotsAfter(m.os, env, v), k)
               + {env.cpus[k].vmcsMemory.value, env.cpus[k].vmxonMemory.value}
  {
    SlotAddresses(m, env.cpus, k, env.layout.Bitmap(env.pool.value, k));
  }

  // What the first k turns free is what the first k processors obtained.
  lemma {:induction false} FreedIsGained(m: Machine, env: Env, v: nat, k: nat)
    requires env.pool.Some? && k <= v <= |env.cpus| && GoodAllocations(m, env.cpus)
    requires forall j :: 0 <= j < k ==> ReachesVmcs(env.cpus[j])
    ensures FreedAddresses(m.os, SlotsAfter(m.os, env, v), k) == Gained(env.cpus, k).Keys
  {
    if k > 0 {
      var j := k - 1;
      FreedIsGained(m, env, v, j);
      GainedTwo(m, env.cpus, j);
      FreedNext(m, env, v, j);
    }
  }

  lemma SplitHeap(heap: map<nat, Size>, gained: map<nat, Size>, s: set<nat>)
    requires heap.Keys !! s
    ensures heap + gained - s == heap + (gained - s)
  {
  }

  // The heap after the turns of the first k processors, all of which were left in root.
  lemma HeapAfterTurns(m: Machine, env: Env, v: nat, r: Machine, k: nat)
    requires env.pool.Some? && Returned(m, env.cpus, v, r) && k <= v && AllLeftInRoot(env.cpus, v, k)
    ensures ExitMachine(r, SlotsAfter(m.os, env, v), k).heap == m.heap + GainedFrom(env.cpus, k, v)
  {
    ExitHeap(r, SlotsAfter(m.os, env, v), k);
    FreedIsGained(m, env, v, k);
    GainedCount(m, env.cpus, k);
    SplitHeap(m.heap, Gained(env.cpus, v), Gained(env.cpus, k).Keys);
  }

  lemma ZeroNotGained(m: Machine, cpus: seq<CpuEnv>, v: nat)
    requires v <= |cpus| && ZeroIsFree(m, cpus)
    ensures m.os.toVa(0) !in m.heap + Gained(cpus, v)
  {
    GainedKeys(cpus, v, m.os.toVa(0));
    if m.os.toVa(0) in Gained(cpus, v) {
      var j :| 0 <= j < v && Obtained(cpus[j], m.os.toVa(0));
      var a := ObtainedAddress(cpus[j], m.os.toVa(0));
      assert false;
    }
  }

  // No other processor uses the regions of processor k.
  lemma NotInUse(m: Machine, cpus: seq<CpuEnv>, v: nat, r: Machine, k: nat, a: bool, j: nat)
    requires Returned(m, cpus, v, r) && k < v && j < |cpus| && j != k && Address(cpus[k], a).Some?
    ensures !InUse(r.cpus[j], m.os.toPa(Address(cpus[k], a).value))
  {
    if j < v {
      assert r.cpus[j].mode == ModeAfter(m.os, cpus[j]);
      assert Address(cpus[j], false) == cpus[j].vmxonMemory && Address(cpus[j], true) == cpus[j].vmcsMemory;
      if Address(cpus[j], false).Some? { PhysicalApart(m, cpus, k, a, j, false); }
      if Address(cpus[j], true).Some? { PhysicalApart(m, cpus, k, a, j, true); }
    }
  }

  lemma FreesAreLegal(o: Machine, va: nat, va': nat)
    requires o.running && o.on < |o.cpus| && va in o.heap && va' in o.heap && va != va'
    requires forall j :: 0 <= j < |o.cpus| ==> !InUse(o.cpus[j], o.os.toPa(va)) && !InUse(o.cpus[j], o.os.toPa(va'))
    ensures FreesLegal(o, va, va')
  {
    assert Legal(o, Free(va));
    assert Legal(Effect(o, Free(va)), Free(va'));
  }

  lemma OwnFreesLegal(m: Machine, env: Env, v: nat, r: Machine, k: nat, o: Machine)
    requires env.pool.Some? && Returned(m, env.cpus, v, r) && k < v && LeftInRoot(env.cpus[k])
    requires o.running && o.on < |o.cpus| == |r.cpus| && o.os == m.os
    requires o.heap == m.heap + GainedFrom(env.cpus, k, v)
    requires forall j :: 0 <= j <= k ==> o.cpus[j].mode == Off
    requires forall j :: k < j < |o.cpus| ==> o.cpus[j] == r.cpus[j]
    ensures FreesLegal(o, env.cpus[k].vmcsMemory.value, env.cpus[k].vmxonMemory.value)
  {
    var e := env.cpus[k];
    assert Address(e, false) == e.vmxonMemory && Address(e, true) == e.vmcsMemory;
    var va, va' := e.vmcsMemory.value, e.vmxonMemory.value;
    assert Obtained(e, va) && Obtained(e, va');
    GainedFromKeys(m, env.cpus, k, v, va);
    GainedFromKeys(m, env.cpus, k, v, va');
    forall j | 0 <= j < |o.cpus|
      ensures !InUse(o.cpus[j], m.os.toPa(va)) && !InUse(o.cpus[j], m.os.toPa(va'))
    {
      if j > k {
        NotInUse(m, env.cpus, v, r, k, true, j);
        NotInUse(m, env.cpus, v, r, k, false, j);
      }
    }
    FreesAreLegal(o, va, va');
  }

  lemma RootFreesLegal(m: Machine, env: Env, v: nat, r: Machine, k: nat, t: Machine)
    requires env.pool.Some? && Returned(m, env.cpus, v, r) && k < v && AllLeftInRoot(env.cpus, v, k + 1)
    requires t == ExitMachine(r, SlotsAfter(m.os, env, v), k)
    ensures FreesLegal(Off1(t, k), env.cpus[k].vmcsMemory.value, env.cpus[k].vmxonMemory.value)
  {
    var slots := SlotsAfter(m.os, env, v);
    ExitCpus(r, slots, k);
    ExitKeeps(r, slots, k);
    HeapAfterTurns(m, env, v, r, k);
    OwnFreesLegal(m, env, v, r, k, Off1(t, k));
  }

  lemma TurnOfRoot(m: Machine, env: Env, v: nat, r: Machine, k: nat, t: Machine)
    requires env.pool.Some? && Returned(m, env.cpus, v, r) && k < v && AllLeftInRoot(env.cpus, v, k + 1)
    requires t == ExitMachine(r, SlotsAfter(m.os, env, v), k)
    ensures TurnGoes(t, SlotsAfter(m.os, env, v)[k], k)
  {
    ExitCpus(r, SlotsAfter(m.os, env, v), k);
    RootFreesLegal(m, env, v, r, k, t);
    SlotAddresses(m, env.cpus, k, env.layout.Bitmap(env.pool.value, k));
    assert r.cpus[k].mode == ModeAfter(m.os, env.cpus[k]);
  }

  // A processor in root operation that LeftInRoot excludes has no VMCS region.
  lemma RootWithoutVmcs(m: Machine, cpus: seq<CpuEnv>, v: nat, r: Machine, k: nat)
    requires Returned(m, cpus, v, r) && k < |cpus| && !(k < v && LeftInRoot(cpus[k])) && r.cpus[k].mode.Root?
    ensures k < v && StageOf(cpus[k]).NoVmcsMemory?
  {
    NoGuestOnReturn(m, cpus, v, r, k);
  }

  lemma TurnOfOther(m: Machine, env: Env, v: nat, r: Machine, k: nat, t: Machine)
    requires env.pool.Some? && Returned(m, env.cpus, v, r) && k <= v && k < |env.cpus|
    requires !(k < v && LeftInRoot(env.cpus[k]))
    requires t == ExitMachine(r, SlotsAfter(m.os, env, v), k)
    ensures TurnStops(t, SlotsAfter(m.os, env, v)[k], k)
  {
    var slots := SlotsAfter(m.os, env, v);
    ExitCpus(r, slots, k);
    if r.cpus[k].mode.Root? {
      RootWithoutVmcs(m, env.cpus, v, r, k);
      ExitHeap(r, slots, k);
      ZeroNotGained(m, env.cpus, v);
      SlotAddresses(m, env.cpus, k, env.layout.Bitmap(env.pool.value, k));
    }
    StopsIf(t, slots[k], k);
  }

  // The number of processors before the first that was not left in root.
  ghost function RootPrefix(cpus: seq<CpuEnv>, v: nat, n: nat): (k: nat)
    requires v <= |cpus| && n <= |cpus|
    ensures k <= n && k <= v
    ensures k < n ==> !(k < v && LeftInRoot(cpus[k]))
  {
    if n == 0 then 0
    else
      var k := RootPrefix(cpus, v, n - 1);
      if k < n - 1 || !(n - 1 < v && LeftInRoot(cpus[n - 1])) then k else n
  }

  lemma LeftAt(cpus: seq<CpuEnv>, v: nat, n: nat, k: nat)
    requires k < n <= |cpus| && AllLeftInRoot(cpus, v, n)
    ensures k < v && LeftInRoot(cpus[k])
  {
  }

  lemma {:induction false} PrefixLeftInRoot(cpus: seq<CpuEnv>, v: nat, n: nat)
    requires v <= |cpus| && n <= |cpus|
    ensures AllLeftInRoot(cpus, v, RootPrefix(cpus, v, n))
    ensures RootPrefix(cpus, v, n) == n <==> AllLeftInRoot(cpus, v, n)
  {
    if n > 0 {
      PrefixLeftInRoot(cpus, v, n - 1);
      if RootPrefix(cpus, v, n) < n && AllLeftInRoot(cpus, v, n) {
        LeftAt(cpus, v, n, RootPrefix(cpus, v, n));
      }
    }
  }

  lemma RootTurnRun(m: Machine, env: Env, v: nat, r: Machine, k: nat)
    requires env.pool.Some? && Returned(m, env.cpus, v, r) && k < v && AllLeftInRoot(env.cpus, v, k + 1)
    ensures var slots := SlotsAfter(m.os, env, v);
      Run(ExitMachine(r, slots, k), CpuTeardown(r.os, slots[k], k)) == ExitMachine(r, slots, k + 1)
  {
    TurnOfRoot(m, env, v, r, k, ExitMachine(r, SlotsAfter(m.os, env, v), k));
    TurnRuns(r, SlotsAfter(m.os, env, v), k);
  }

  lemma {:induction false} RootRun(m: Machine, env: Env, v: nat, r: Machine, k: nat)
    requires env.pool.Some? && Returned(m, env.cpus, v, r) && k <= v && AllLeftInRoot(env.cpus, v, k)
    ensures var slots := SlotsAfter(m.os, env, v); Run(r, ExitTrace(r.os, slots, k)) == ExitMachine(r, slots, k)
  {
    if k > 0 {
      var slots, j := SlotsAfter(m.os, env, v), k - 1;
      RootRun(m, env, v, r, j);
      RootTurnRun(m, env, v, r, j);
      ExitTraceNext(r.os, slots, j);
      RunConcat(r, ExitTrace(r.os, slots, j), CpuTeardown(r.os, slots[j], j));
    }
  }

  lemma CloseRun(m: Machine, env: Env, v: nat, r: Machine, k: nat)
    requires env.pool.Some? && Returned(m, env.cpus, v, r) && k == RootPrefix(env.cpus, v, |env.cpus|)
    ensures var slots, t := SlotsAfter(m.os, env, v), ExitMachine(r, SlotsAfter(m.os, env, v), k);
      && Run(r, ExitTrace(r.os, slots, k)) == t
      && if k == |env.cpus| then Run(r, ExitTrace(r.os, slots, |slots|)) == t
         else TurnStops(t, slots[k], k) && Run(r, ExitTrace(r.os, slots, |slots|)) == Stopped(t, slots[k], k)
  {
    var slots := SlotsAfter(m.os, env, v);
    var t := ExitMachine(r, slots, k);
    PrefixLeftInRoot(env.cpus, v, |env.cpus|);
    RootRun(m, env, v, r, k);
    if k < |env.cpus| {
      TurnOfOther(m, env, v, r, k, t);
      ExitKeeps(r, slots, k);
      ExitStops(r, slots, k, t);
    }
  }

  lemma StopKeepsHeap(t: Machine, slot: VpData, i: nat)
    requires TurnStops(t, slot, i)
    ensures var r := Stopped(t, slot, i); r.heap == t.heap && !r.ok && !r.running
  {
  }

  /** How far HvClose gets after HvCreate. It goes through the turns of the processors before
      the first that was not left in root operation with both its regions, and stops in the
      turn of that one. The heap it leaves is the one before bring-up, and the regions that
      processor and later ones obtained. */
  lemma CloseOutcome(m: Machine, env: Env, v: nat, r: Machine)
    requires env.pool.Some? && Returned(m, env.cpus, v, r) && r.ok
    ensures var n, slots := |env.cpus|, SlotsAfter(m.os, env, v);
      var k := RootPrefix(env.cpus, v, n);
      var t, before := Run(r, ExitTrace(r.os, slots, n)), Run(r, ExitTrace(r.os, slots, k));
      && before.ok && before.running
      && (t.ok <==> k == n) && (t.running <==> k == n)
      && t.heap == before.heap == m.heap + GainedFrom(env.cpus, k, v)
  {
    var k, slots := RootPrefix(env.cpus, v, |env.cpus|), SlotsAfter(m.os, env, v);
    CloseRun(m, env, v, r, k);
    PrefixLeftInRoot(env.cpus, v, |env.cpus|);
    ExitKeeps(r, slots, k);
    HeapAfterTurns(m, env, v, r, k);
    if k < |env.cpus| { StopKeepsHeap(ExitMachine(r, slots, k), slots[k], k); }
  }

  // ... so many that this is their number.
  lemma HeapCount(m: Machine, cpus: seq<CpuEnv>, v: nat, k: nat)
    requires k <= v <= |cpus| && GoodAllocations(m, cpus) && AllLeftInRoot(cpus, v, k)
    ensures |m.heap + GainedFrom(cpus, k, v)| == |m.heap| + RegionTotal(cpus, v) - 2 * k
    ensures m.heap + GainedFrom(cpus, k, v) == m.heap <==> RegionTotal(cpus, v) == 2 * k
  {
    GainedFromCount(m, cpus, k, v);
    GainedCount(m, cpus, v);
    DisjointSum(m.heap, GainedFrom(cpus, k, v));
    if RegionTotal(cpus, v) == 2 * k {
      assert GainedFrom(cpus, k, v) == map[];
      assert m.heap + map[] == m.heap;
    }
  }

  /** HvClose restores the heap exactly when the processors it does not get past obtained no
      region: in particular when every processor was left in root operation. */
  lemma TeardownConservesHeap(m: Machine, env: Env, v: nat, r: Machine)
    requires env.pool.Some? && Returned(m, env.cpus, v, r) && r.ok
    ensures var n, t := |env.cpus|, Run(r, ExitTrace(r.os, SlotsAfter(m.os, env, v), |env.cpus|));
      && (t.heap == m.heap <==> RegionTotal(env.cpus, v) == 2 * RootPrefix(env.cpus, v, n))
      && (AllLeftInRoot(env.cpus, v, n) ==> t.heap == m.heap)
  {
    var n := |env.cpus|;
    CloseOutcome(m, env, v, r);
    PrefixLeftInRoot(env.cpus, v, n);
    HeapCount(m, env.cpus, v, RootPrefix(env.cpus, v, n));
    if AllLeftInRoot(env.cpus, v, n) { TwoEach(env.cpus, v); }
  }

  /** HvClose after HvCreate is legal exactly when bring-up visited every processor and left
      each in root operation with both its regions: in particular never after a VMLAUNCH
      that was rejected, since that path has executed VMXOFF already. */
  lemma TeardownLegalIff(m: Machine, env: Env, v: nat, r: Machine)
    requires env.pool.Some? && Returned(m, env.cpus, v, r) && r.ok
    ensures Run(r, ExitTrace(r.os, SlotsAfter(m.os, env, v), |env.cpus|)).ok
            <==> AllLeftInRoot(env.cpus, v, |env.cpus|)
  {
    CloseOutcome(m, env, v, r);
    PrefixLeftInRoot(env.cpus, v, |env.cpus|);
  }

  /** A processor whose VMLAUNCH was rejected stops teardown, so both its regions stay. */
  lemma RejectedLaunchLeaks(m: Machine, env: Env, v: nat, r: Machine, j: nat)
    requires env.pool.Some? && Returned(m, env.cpus, v, r) && r.ok
    requires j < v && StageOf(env.cpus[j]).LaunchRejected?
    ensures var t := Run(r, ExitTrace(r.os, SlotsAfter(m.os, env, v), |env.cpus|));
      !t.ok && env.cpus[j].vmxonMemory.value in t.heap && env.cpus[j].vmcsMemory.value in t.heap
  {
    var n, e := |env.cpus|, env.cpus[j];
    var k := RootPrefix(env.cpus, v, n);
    CloseOutcome(m, env, v, r);
    PrefixLeftInRoot(env.cpus, v, n);
    assert k <= j;
    assert Obtained(e, e.vmxonMemory.value) && Obtained(e, e.vmcsMemory.value);
    GainedFromKeys(m, env.cpus, k, v, e.vmxonMemory.value);
    GainedFromKeys(m, env.cpus, k, v, e.vmcsMemory.value);
  }

  /** Every run of InitHv that comes back ends in such a machine. */
  lemma InitReturned(m: Machine, env: Env, wss: seq<seq<Write>>)
    requires Fits(m, env) && |wss| == |env.cpus| && Supported(env) && Assumptions(m, env) && ZeroIsFree(m, env.cpus)
    requires Run(m, InitTrace(m.os, env, wss)).running
    ensures Returned(m, env.cpus, Visited(env.cpus), Run(m, InitTrace(m.os, env, wss)))
  {
    InitHeap(m, env, wss);
    InitOutcome(m, env, wss);
    ReturnsIffCameBack(env);
  }

  /** HvClose after an InitHv that stopped at IsVmxSupported: VmmState was never set, but the run
      ends before that matters, at the VMXOFF of processor 0, which never entered VMX operation. */
  lemma UnsupportedThenClose(m: Machine, env: Env, wss: seq<seq<Write>>)
    requires Fits(m, env) && m.ok && |wss| == |env.cpus| && !Supported(env)
    ensures var r := Run(m, InitTrace(m.os, env, wss));
      r.ok && r.running && r.heap == m.heap && Run(r, NullExitTrace(|env.cpus|)) == Fault(r.(on := 0))
  {
    var r := Run(m, InitTrace(m.os, env, wss));
    InitRun(m, env, wss);
    OffRun(r, 0);
    Run2(r, Pin(PinMask(0)), VmxOff);
    assert NullExitTrace(|env.cpus|) == [Pin(PinMask(0)), VmxOff] + [NullAccess];
    StoppedRun(r, [Pin(PinMask(0)), VmxOff], Fault(r.(on := 0)), [NullAccess]);
  }

  /** HvCreate and then HvClose, for every run in which bring-up was legal and came back:
      teardown is legal exactly when every processor was left in root operation, and what it
      leaves in the heap is what CloseOutcome says. */
  lemma CreateThenClose(m: Machine, env: Env, wss: seq<seq<Write>>)
    requires Fits(m, env) && m.ok && |wss| == |env.cpus| && Supported(env) && Assumptions(m, env)
    requires ZeroIsFree(m, env.cpus) && !LastStage(env).Leaves()
    ensures var r, v, n := Run(m, InitTrace(m.os, env, wss)), Visited(env.cpus), |env.cpus|;
      var t := Run(r, ExitTrace(m.os, SlotsAfter(m.os, env, v), n));
      && (t.ok <==> AllLeftInRoot(env.cpus, v, n))
      && (AllLeftInRoot(env.cpus, v, n) ==> t.heap == m.heap)
      && t.heap == m.heap + GainedFrom(env.cpus, RootPrefix(env.cpus, v, n), v)
  {
    var r := Run(m, InitTrace(m.os, env, wss));
    InitOutcome(m, env, wss);
    InitSafe(m, env, wss);
    InitReturned(m, env, wss);
    CloseOutcome(m, env, Visited(env.cpus), r);
    TeardownConservesHeap(m, env, Visited(env.cpus), r);
    TeardownLegalIff(m, env, Visited(env.cpus), r);
  }
}
