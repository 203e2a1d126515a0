// `ExitVmxOperation` (hv/src/vmx.c) after `InitHv`: what it frees, and when it is legal.
module Teardown {
  import opened Machine
  import opened VmcsStore
  import opened BringUp
  import opened Runs
  import opened Memory

  function CpuTeardown(os: Translation, slot: VpData, i: nat): seq<Event> {
    [Pin(PinMask(i)), VmxOff, Free(os.toVa(slot.vmcsPad)), Free(os.toVa(slot.vmxonPad))]
  }

  function Teardowns(os: Translation, slots: seq<VpData>): (parts: seq<seq<Event>>)
    ensures |parts| == |slots|
  {
    seq(|slots|, i requires 0 <= i < |slots| => CpuTeardown(os, slots[i], i))
  }

  // What the first k turns of the loop in ExitVmxOperation do.
  function ExitTrace(os: Translation, slots: seq<VpData>, k: nat): seq<Event>
    requires k <= |slots|
  {
    Joined(Teardowns(os, slots), k)
  }

  lemma ExitTraceNext(os: Translation, slots: seq<VpData>, k: nat)
    requires k < |slots|
    ensures ExitTrace(os, slots, k + 1) == ExitTrace(os, slots, k) + CpuTeardown(os, slots[k], k)
  {
  }

  // VmmState as InitHv leaves it.
  function SlotsAfter(os: Translation, env: Env, v: nat): (slots: seq<VpData>)
    requires env.pool.Some? && v <= |env.cpus|
    ensures |slots| == |env.cpus|
  {
    seq(|env.cpus|, i requires 0 <= i < |env.cpus| =>
      if i < v then SlotAfter(os, env.cpus[i], env.layout.Bitmap(env.pool.value, i)) else ZERO_SLOT)
  }

  // A slot holds a live region in both halves, with the physical address of each.
  ghost predicate Filled(os: Translation, heap: map<nat, Size>, slot: VpData) {
    && slot.vmxon in heap && slot.vmcs in heap && slot.vmxon != slot.vmcs
    && slot.vmxonPad == os.toPa(slot.vmxon) && slot.vmcsPad == os.toPa(slot.vmcs)
  }

  /** The slots InitHv leaves: those of processors it did not visit are still zero, and that of
      a visited processor is filled as soon as it got both its regions. */
  lemma SlotsHold(m: Machine, env: Env, wss: seq<seq<Write>>, j: nat)
    requires Fits(m, env) && |wss| == |env.cpus| && Supported(env) && Assumptions(m, env) && j < |env.cpus|
    ensures var v, slot := Visited(env.cpus), SlotsAfter(m.os, env, Visited(env.cpus))[j];
      && (j >= v ==> slot == ZERO_SLOT)
      && (j < v && ReachesVmcs(env.cpus[j]) ==> Filled(m.os, Run(m, InitTrace(m.os, env, wss)).heap, slot))
  {
    InitHeap(m, env, wss);
    var v, e := Visited(env.cpus), env.cpus[j];
    if j < v && ReachesVmcs(e) {
      assert Address(e, false) == e.vmxonMemory && Address(e, true) == e.vmcsMemory;
      assert Obtained(e, e.vmxonMemory.value) && Obtained(e, e.vmcsMemory.value);
      GainedKeys(env.cpus, v, e.vmxonMemory.value);
      GainedKeys(env.cpus, v, e.vmcsMemory.value);
    }
  }

  /** Every visited slot but the last is filled, with both regions, their physical addresses and
      that of its MSR bitmap, and so is the last one unless the loop broke before the VMCS region:
      then it is zero, or holds the VMXON region alone, with the address of its MSR bitmap
      exactly when it was the VMCS allocation that failed. */
  lemma LastSlot(os: Translation, env: Env, j: nat)
    requires env.pool.Some? && j < Visited(env.cpus)
    ensures j < Visited(env.cpus) - 1 ==> ReachesVmcs(env.cpus[j])
    ensures var e, slot := env.cpus[j], SlotsAfter(os, env, Visited(env.cpus))[j];
      match StageOf(e)
      case NoVmxonMemory => slot == ZERO_SLOT
      case VmxonFailed =>
        slot == ZERO_SLOT.(vmxon := e.vmxonMemory.value, vmxonPad := os.toPa(e.vmxonMemory.value))
      case NoVmcsMemory =>
        slot == ZERO_SLOT.(vmxon := e.vmxonMemory.value, vmxonPad := os.toPa(e.vmxonMemory.value),
                           msrBitmapPad := os.toPa(env.pool.value + j * env.layout.vpSize + env.layout.bitmapOffset))
      case _ =>
        ReachesVmcs(e)
        && slot == VpData(os.toPa(e.vmxonMemory.value), e.vmxonMemory.value,
                          os.toPa(e.vmcsMemory.value), e.vmcsMemory.value,
                          os.toPa(env.pool.value + j * env.layout.vpSize + env.layout.bitmapOffset))
  {
    CompletedReachVmcs(env.cpus, Visited(env.cpus));
  }

  // The two frees, legal one after the other.
  ghost predicate FreesLegal(t: Machine, va: nat, va': nat) {
    Legal(t, Free(va)) && Legal(Effect(t, Free(va)), Free(va'))
  }

  ghost function Off1(t: Machine, i: nat): Machine
    requires i < |t.cpus|
  {
    t.(on := i, cpus := t.cpus[i := t.cpus[i].(mode := Off)])
  }

  ghost function Freed(t: Machine, va: nat, va': nat): Machine {
    t.(heap := t.heap - {va} - {va'}, regions := t.regions - {t.os.toPa(va)} - {t.os.toPa(va')})
  }

  ghost function AfterTeardown(t: Machine, slot: VpData, i: nat): (r: Machine)
    requires i < |t.cpus|
    ensures |r.cpus| == |t.cpus| && r.os == t.os
  {
    Freed(Off1(t, i), t.os.toVa(slot.vmcsPad), t.os.toVa(slot.vmxonPad))
  }

  // The turn of processor i goes through.
  ghost predicate TurnGoes(t: Machine, slot: VpData, i: nat) {
    && HasMask(i, |t.cpus|) && i < |t.cpus| && t.cpus[i].mode.Root?
    && FreesLegal(Off1(t, i), t.os.toVa(slot.vmcsPad), t.os.toVa(slot.vmxonPad))
  }

  lemma FreesRun(t: Machine, va: nat, va': nat)
    requires t.on < |t.cpus| && FreesLegal(t, va, va')
    ensures Step(Step(t, Free(va)), Free(va')) == Freed(t, va, va')
  {
  }

  lemma OffRun(t: Machine, i: nat)
    requires t.running && t.on < |t.cpus| && i < |t.cpus| && HasMask(i, |t.cpus|)
    ensures Step(t, Pin(PinMask(i))) == t.(on := i)
    ensures Step(t.(on := i), VmxOff) == if t.cpus[i].mode.Root? then Off1(t, i) else Fault(t.(on := i))
  {
    PinMaskSelects(i, |t.cpus|);
  }

  lemma TurnStep(t: Machine, slot: VpData, i: nat)
    requires t.running && t.on < |t.cpus| && TurnGoes(t, slot, i)
    ensures Run(t, CpuTeardown(t.os, slot, i)) == AfterTeardown(t, slot, i)
  {
    var va, va' := t.os.toVa(slot.vmcsPad), t.os.toVa(slot.vmxonPad);
    Run4(t, Pin(PinMask(i)), VmxOff, Free(va), Free(va'));
    OffRun(t, i);
    FreesRun(Off1(t, i), va, va');
  }

  // The turn of processor i stops: at a VMXOFF on no single processor or out of root
  // operation, or at the first free.
  ghost predicate TurnStops(t: Machine, slot: VpData, i: nat) {
    && i < |t.cpus|
    && (!HasMask(i, |t.cpus|) || !t.cpus[i].mode.Root? || !Legal(Off1(t, i), Free(t.os.toVa(slot.vmcsPad))))
  }

  ghost function Stopped(t: Machine, slot: VpData, i: nat): Machine
    requires TurnStops(t, slot, i)
  {
    if !HasMask(i, |t.cpus|) then Fault(t.(on := |t.cpus|))
    else if !t.cpus[i].mode.Root? then Fault(t.(on := i))
    else Fault(Off1(t, i))
  }

  lemma StopsIf(t: Machine, slot: VpData, i: nat)
    requires i < |t.cpus| && (!HasMask(i, |t.cpus|) || !t.cpus[i].mode.Root? || t.os.toVa(slot.vmcsPad) !in t.heap)
    ensures TurnStops(t, slot, i)
  {
  }

  lemma StopStep(t: Machine, slot: VpData, i: nat)
    requires t.running && t.on < |t.cpus| && TurnStops(t, slot, i)
    ensures Run(t, CpuTeardown(t.os, slot, i)) == Stopped(t, slot, i)
  {
    var pin, va, va' := Pin(PinMask(i)), t.os.toVa(slot.vmcsPad), t.os.toVa(slot.vmxonPad);
    var r := Stopped(t, slot, i);
    if !HasMask(i, |t.cpus|) {
      PinMaskSelects(i, |t.cpus|);
      Run2(t, pin, VmxOff);
      assert CpuTeardown(t.os, slot, i) == [pin, VmxOff] + [Free(va), Free(va')];
      StoppedRun(t, [pin, VmxOff], r, [Free(va), Free(va')]);
    } else {
      OffRun(t, i);
      Run2(t, pin, VmxOff);
      if !t.cpus[i].mode.Root? {
        assert CpuTeardown(t.os, slot, i) == [pin, VmxOff] + [Free(va), Free(va')];
        StoppedRun(t, [pin, VmxOff], r, [Free(va), Free(va')]);
      } else {
        Run3(t, pin, VmxOff, Free(va));
        assert CpuTeardown(t.os, slot, i) == [pin, VmxOff, Free(va)] + [Free(va')];
        StoppedRun(t, [pin, VmxOff, Free(va)], r, [Free(va')]);
      }
    }
  }

  // The machine after k turns that go through.
  ghost function ExitMachine(r: Machine, slots: seq<VpData>, k: nat): (t: Machine)
    requires k <= |slots| == |r.cpus|
    ensures |t.cpus| == |r.cpus| && t.os == r.os
  {
    if k == 0 then r else AfterTeardown(ExitMachine(r, slots, k - 1), slots[k - 1], k - 1)
  }

  lemma {:induction false} ExitKeeps(r: Machine, slots: seq<VpData>, k: nat)
    requires k <= |slots| == |r.cpus| && r.on < |r.cpus|
    ensures var t := ExitMachine(r, slots, k);
      t.running == r.running && t.ok == r.ok && t.on < |t.cpus|
  {
    if k > 0 { ExitKeeps(r, slots, k - 1); }
  }

  lemma TurnRuns(r: Machine, slots: seq<VpData>, j: nat)
    requires j < |slots| == |r.cpus| && r.running && r.on < |r.cpus| && TurnGoes(ExitMachine(r, slots, j), slots[j], j)
    ensures Run(ExitMachine(r, slots, j), CpuTeardown(r.os, slots[j], j)) == ExitMachine(r, slots, j + 1)
  {
    ExitKeeps(r, slots, j);
    TurnStep(ExitMachine(r, slots, j), slots[j], j);
  }

  // Teardown whose first k turns go through and whose next one stops.
  lemma ExitStops(r: Machine, slots: seq<VpData>, k: nat, t: Machine)
    requires k < |slots| && t.running && t.on < |t.cpus| && t.os == r.os
    requires Run(r, ExitTrace(r.os, slots, k)) == t && TurnStops(t, slots[k], k)
    ensures Run(r, ExitTrace(r.os, slots, |slots|)) == Stopped(t, slots[k], k)
  {
    StopStep(t, slots[k], k);
    StopsInTurn(r, slots, k, t, Stopped(t, slots[k], k));
  }

  lemma StopsInTurn(r: Machine, slots: seq<VpData>, k: nat, t: Machine, s: Machine)
    requires k < |slots| && Run(r, ExitTrace(r.os, slots, k)) == t
    requires Run(t, CpuTeardown(r.os, slots[k], k)) == s && !s.running && !s.ok
    ensures Run(r, ExitTrace(r.os, slots, |slots|)) == s
  {
    var rest := JoinedAround(Teardowns(r.os, slots), k, |slots|);
    var all := ExitTrace(r.os, slots, |slots|);
    StopsBetween(r, ExitTrace(r.os, slots, k), CpuTeardown(r.os, slots[k], k), rest, all, t, s);
  }

  // The addresses handed to MmFreeContiguousMemory for the first k slots.
  ghost function FreedAddresses(os: Translation, slots: seq<VpData>, k: nat): set<nat>
    requires k <= |slots|
  {
    if k == 0 then {}
    else FreedAddresses(os, slots, k - 1) + {os.toVa(slots[k - 1].vmcsPad), os.toVa(slots[k - 1].vmxonPad)}
  }

  lemma MinusTwo(heap: map<nat, Size>, freed: set<nat>, va: nat, va': nat)
    ensures heap - freed - {va} - {va'} == heap - (freed + {va, va'})
  {
  }

  lemma {:induction false} ExitHeap(r: Machine, slots: seq<VpData>, k: nat)
    requires k <= |slots| == |r.cpus|
    ensures ExitMachine(r, slots, k).heap == r.heap - FreedAddresses(r.os, slots, k)
  {
    if k == 0 {
      assert r.heap - {} == r.heap;
    } else {
      ExitHeap(r, slots, k - 1);
      MinusTwo(r.heap, FreedAddresses(r.os, slots, k - 1),
               r.os.toVa(slots[k - 1].vmcsPad), r.os.toVa(slots[k - 1].vmxonPad));
    }
  }

  lemma {:induction false} FreedMembers(os: Translation, slots: seq<VpData>, k: nat, va: nat)
    requires k <= |slots|
    ensures va in FreedAddresses(os, slots, k) <==>
      exists j :: 0 <= j < k && (va == os.toVa(slots[j].vmcsPad) || va == os.toVa(slots[j].vmxonPad))
  {
    if k > 0 { FreedMembers(os, slots, k - 1, va); }
  }

  // What a slot says: its addresses translate back to the regions its processor obtained,
  // and an empty half to whatever address 0 translates to.
  lemma SlotAddresses(m: Machine, cpus: seq<CpuEnv>, j: nat, bitmap: nat)
    requires GoodAllocations(m, cpus) && j < |cpus|
    ensures var s, e := SlotAfter(m.os, cpus[j], bitmap), cpus[j];
      && m.os.toVa(s.vmxonPad) == (if e.vmxonMemory.Some? then e.vmxonMemory.value else m.os.toVa(0))
      && m.os.toVa(s.vmcsPad) == (if ReachesVmcs(e) then e.vmcsMemory.value else m.os.toVa(0))
  {
    assert Address(cpus[j], false) == cpus[j].vmxonMemory && Address(cpus[j], true) == cpus[j].vmcsMemory;
  }

  // The addresses a trace hands to MmFreeContiguousMemory, in order.
  ghost function Frees(es: seq<Event>): seq<nat> {
    if |es| == 0 then []
    else Frees(es[..|es| - 1]) + (if es[|es| - 1].Free? then [es[|es| - 1].va] else [])
  }

  lemma {:induction false} FreesConcat(es: seq<Event>, fs: seq<Event>)
    ensures Frees(es + fs) == Frees(es) + Frees(fs)
    decreases |fs|
  {
    if |fs| == 0 {
      assert es + fs == es;
    } else {
      assert (es + fs)[..|es + fs| - 1] == es + fs[..|fs| - 1];
      FreesConcat(es, fs[..|fs| - 1]);
    }
  }

  lemma TurnFrees(os: Translation, slot: VpData, i: nat)
    ensures Frees(CpuTeardown(os, slot, i)) == [os.toVa(slot.vmcsPad), os.toVa(slot.vmxonPad)]
  {
    var pin, off, a, b := Pin(PinMask(i)), VmxOff, Free(os.toVa(slot.vmcsPad)), Free(os.toVa(slot.vmxonPad));
    assert [pin, off, a, b] == [pin, off, a] + [b];
    FreesConcat([pin, off, a], [b]);
    assert [pin, off, a] == [pin, off] + [a];
    FreesConcat([pin, off], [a]);
  }

  // A processor with both regions adds two new addresses.
  lemma GainedTwo(m: Machine, cpus: seq<CpuEnv>, k: nat)
    requires k < |cpus| && GoodAllocations(m, cpus) && ReachesVmcs(cpus[k])
    ensures var a, b := cpus[k].vmcsMemory.value, cpus[k].vmxonMemory.value;
      && a != b && a !in Gained(cpus, k) && b !in Gained(cpus, k)
      && Gained(cpus, k + 1).Keys == Gained(cpus, k).Keys + {a, b}
  {
    var e := cpus[k];
    assert Address(e, false) == e.vmxonMemory && Address(e, true) == e.vmcsMemory;
    forall va | Obtained(e, va)
      ensures va !in Gained(cpus, k)
    {
      GainedKeys(cpus, k, va);
      if va in Gained(cpus, k) {
        var j :| 0 <= j < k && Obtained(cpus[j], va);
        ObtainedApart(m, cpus, j, k, va);
      }
    }
    assert Obtained(e, e.vmxonMemory.value) && Obtained(e, e.vmcsMemory.value);
  }

  lemma AddTwo(s: set<nat>, a: nat, b: nat)
    requires a !in s && b !in s && a != b
    ensures multiset(s + {a, b}) == multiset(s) + multiset([a, b])
  {
  }

  // What the first k slots lead teardown to free.
  ghost function SlotFrees(os: Translation, slots: seq<VpData>, k: nat): seq<nat>
    requires k <= |slots|
  {
    if k == 0 then []
    else SlotFrees(os, slots, k - 1) + [os.toVa(slots[k - 1].vmcsPad), os.toVa(slots[k - 1].vmxonPad)]
  }

  lemma {:induction false} FreesOfSlots(os: Translation, slots: seq<VpData>, k: nat)
    requires k <= |slots|
    ensures Frees(ExitTrace(os, slots, k)) == SlotFrees(os, slots, k)
  {
    if k > 0 {
      var j := k - 1;
      FreesOfSlots(os, slots, j);
      ExitTraceNext(os, slots, j);
      FreesConcat(ExitTrace(os, slots, j), CpuTeardown(os, slots[j], j));
      TurnFrees(os, slots[j], j);
    }
  }

  // The two regions of each of the first k processors, in the order of teardown.
  ghost function RegionsInOrder(cpus: seq<CpuEnv>, k: nat): seq<nat>
    requires k <= |cpus| && forall j :: 0 <= j < |cpus| ==> ReachesVmcs(cpus[j])
  {
    if k == 0 then [] else RegionsInOrder(cpus, k - 1) + [cpus[k - 1].vmcsMemory.value, cpus[k - 1].vmxonMemory.value]
  }

  lemma {:induction false} FreesInOrder(m: Machine, env: Env, slots: seq<VpData>, k: nat)
    requires env.pool.Some? && k <= |env.cpus| == |slots| && GoodAllocations(m, env.cpus)
    requires forall j :: 0 <= j < |env.cpus| ==> ReachesVmcs(env.cpus[j])
    requires slots == SlotsAfter(m.os, env, |env.cpus|)
    ensures SlotFrees(m.os, slots, k) == RegionsInOrder(env.cpus, k)
  {
    if k > 0 {
      FreesInOrder(m, env, slots, k - 1);
      SlotAddresses(m, env.cpus, k - 1, env.layout.Bitmap(env.pool.value, k - 1));
    }
  }

  lemma {:induction false} RegionsAreGained(m: Machine, cpus: seq<CpuEnv>, k: nat)
    requires k <= |cpus| && GoodAllocations(m, cpus) && forall j :: 0 <= j < |cpus| ==> ReachesVmcs(cpus[j])
    ensures multiset(RegionsInOrder(cpus, k)) == multiset(Gained(cpus, k).Keys)
  {
    if k > 0 {
      RegionsAreGained(m, cpus, k - 1);
      GainedTwo(m, cpus, k - 1);
      AddTwo(Gained(cpus, k - 1).Keys, cpus[k - 1].vmcsMemory.value, cpus[k - 1].vmxonMemory.value);
    }
  }

  lemma SameMembers(a: seq<nat>, b: set<nat>)
    requires multiset(a) == multiset(b)
    ensures (set va | va in a) == b
  {
    forall va ensures va in a <==> va in b {
      assert va in a <==> va in multiset(a);
      assert va in b <==> va in multiset(b);
    }
  }

  lemma MinusGained(heap: map<nat, Size>, gained: map<nat, Size>)
    requires heap.Keys !! gained.Keys
    ensures heap + gained - gained.Keys == heap
  {
  }

  lemma Restore(heap: map<nat, Size>, gained: map<nat, Size>, frees: seq<nat>)
    requires heap.Keys !! gained.Keys && multiset(frees) == multiset(gained.Keys)
    ensures heap + gained - (set va | va in frees) == heap
  {
    SameMembers(frees, gained.Keys);
    MinusGained(heap, gained);
  }

  lemma FreesAre(m: Machine, env: Env)
    requires env.pool.Some? && GoodAllocations(m, env.cpus)
    requires forall j :: 0 <= j < |env.cpus| ==> ReachesVmcs(env.cpus[j])
    ensures Frees(ExitTrace(m.os, SlotsAfter(m.os, env, |env.cpus|), |env.cpus|))
            == RegionsInOrder(env.cpus, |env.cpus|)
  {
    var slots := SlotsAfter(m.os, env, |env.cpus|);
    FreesOfSlots(m.os, slots, |env.cpus|);
    FreesInOrder(m, env, slots, |env.cpus|);
  }

  /** Of memory alone: when every slot was filled, the addresses teardown frees are exactly the
      2n regions bring-up obtained, each of them once, so that without them the heap is the
      one before bring-up. */
  lemma FreesWhatWasGained(m: Machine, env: Env)
    requires env.pool.Some? && GoodAllocations(m, env.cpus)
    requires forall j :: 0 <= j < |env.cpus| ==> ReachesVmcs(env.cpus[j])
    ensures var n := |env.cpus|;
      var frees := Frees(ExitTrace(m.os, SlotsAfter(m.os, env, n), n));
      && multiset(frees) == multiset(Gained(env.cpus, n).Keys)
      && |Gained(env.cpus, n)| == 2 * n
      && m.heap + Gained(env.cpus, n) - (set va | va in frees) == m.heap
  {
    var n := |env.cpus|;
    FreesAre(m, env);
    RegionsAreGained(m, env.cpus, n);
    GainedCount(m, env.cpus, n);
    TwoEach(env.cpus, n);
    Restore(m.heap, Gained(env.cpus, n), Frees(ExitTrace(m.os, SlotsAfter(m.os, env, n), n)));
  }

  lemma {:induction false} ExitCpus(r: Machine, slots: seq<VpData>, k: nat)
    requires k <= |slots| == |r.cpus|
    ensures forall j :: 0 <= j < k ==> ExitMachine(r, slots, k).cpus[j].mode == Off
    ensures forall j :: k <= j < |r.cpus| ==> ExitMachine(r, slots, k).cpus[j] == r.cpus[j]
  {
    if k > 0 { ExitCpus(r, slots, k - 1); }
  }

  // ExitVmxOperation when VmmState was never set, or set to NULL.
  function NullExitTrace(n: nat): seq<Event> {
    if n == 0 then [] else [Pin(PinMask(0)), VmxOff, NullAccess]
  }

  /** HvClose after an InitHv that stopped at IsVmxSupported is never legal. */
  lemma CloseWithoutState(m: Machine, n: nat)
    requires n > 0
    ensures !Run(m, NullExitTrace(n)).ok
  {
    assert NullExitTrace(n) == [Pin(PinMask(0)), VmxOff] + [NullAccess];
    RunSnoc(m, [Pin(PinMask(0)), VmxOff], NullAccess);
  }
}
