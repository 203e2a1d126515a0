// The machine the driver runs on: processors, physical regions and the contiguous-memory
// heap. Every action the driver takes on it is an event; `Legal` says what the Intel SDM
// and the memory manager ask of the event, `Effect` what it does. The outcome of an
// instruction or allocation is part of its event, so runs range over all outcomes. After an
// event that is not legal the processor has faulted, or what happens is no longer determined:
// a run is followed up to there.
module Machine {
  import opened Power
  import opened VmcsStore
  import Bits
  import Fields
  import Util

  datatype Option<T> = None | Some(value: T)

  // Return values of the VMX intrinsics.
  datatype Status = Success | FailValid | FailInvalid {
    function Code(): int {
      match this case Success => 0 case FailValid => 1 case FailInvalid => 2
    }
  }

  // A VMLAUNCH that is not rejected does not return: it enters the guest or, when loading
  // the guest state fails, resumes at the host RIP.
  datatype LaunchOutcome = Rejected(invalid: bool) | Entered | EntryFailed

  datatype Mode = Off | Root(vmxon: nat, current: Option<nat>) | Guest(vmxon: nat, vmcs: nat)

  datatype Cpu = Cpu(cr4: bv64, featureControl: bv64, vmxBasic: bv64, mode: Mode)

  datatype Header = Garbage | Word(bits: bv32)
  datatype LaunchState = Undefined | Clear | Launched
  datatype Size = Size(bytes: nat)

  // A region of contiguous memory, by what VMX needs to know of it.
  datatype Region = Region(size: Size, zeroed: bool, header: Header, launch: LaunchState, fields: Store)

  // MmGetPhysicalAddress and MmGetVirtualForPhysical
  datatype Translation = Translation(toPa: nat -> nat, toVa: nat -> nat)

  datatype Machine = Machine(
    cpus: seq<Cpu>,
    on: nat,                  // the processor the driver's thread is bound to, |cpus| for no single one
    heap: map<nat, Size>,     // live contiguous allocations, by virtual address
    regions: map<nat, Region>,// their contents, by physical address
    os: Translation,
    running: bool,            // control is with the driver, and what it does is determined
    ok: bool)                 // every event so far was legal

  datatype Event =
    | WriteFeatureControl(msr: bv64)
    | Pin(mask: int)
    | WriteCr4(cr4: bv64)
    | Allocate(size: Size, result: Option<nat>)
    | Zero(va: nat, size: Size)
    | WriteHeader(va: nat, word: bv32)
    | VmxOn(pa: nat, status: Status)
    | VmPtrLd(pa: nat, status: Status)
    | VmClear(pa: nat, status: Status, contents: Store)
    | VmWrite(write: Write)
    | VmRead(field: Fields.Component)
    | VmLaunch(outcome: LaunchOutcome)
    | VmxOff
    | Free(va: nat)
    | NullAccess

  const PAGE_SIZE := 4096

  // CR4.VMXE, and the lock and VMXON-enable bits of IA32_FEATURE_CONTROL
  predicate Vmxe(cr4: bv64) { cr4 & 0x2000 != 0 }
  predicate Locked(msr: bv64) { msr & 1 != 0 }
  predicate VmxonEnabled(msr: bv64) { msr & 4 != 0 }

  function Revision(vmxBasic: bv64): bv32 { (vmxBasic & 0x7FFF_FFFF) as bv32 }

  /** What these bits are by number: CR4.VMXE is bit 13, which the shift shows, the lock bit is
      bit 0, VMXON is enabled by bit 2, and the revision identifier is bits 30:0. */
  lemma BitsByNumber(cr4: bv64, msr: bv64)
    ensures Vmxe(cr4) <==> (cr4 >> 13) & 1 == 1
    ensures Locked(msr) <==> msr as nat % 2 == 1
    ensures VmxonEnabled(msr) <==> msr as nat / 4 % 2 == 1
    ensures Revision(msr) as nat == msr as nat % TWO_31
  {
    VmxeBit(cr4);
    Bits.Bit0(msr);
    Bits.Bit2(msr);
    Bits.Low31(msr);
  }

  lemma VmxeBit(cr4: bv64)
    ensures Vmxe(cr4) <==> (cr4 >> 13) & 1 == 1
  {
  }

  // Processor p is in the affinity mask that a 32-bit int becomes when it is sign-extended.
  ghost predicate InAffinity(mask: int, p: nat) { Util.InMask(mask % TWO_64, p) }

  // p is the one of n processors that is in it.
  ghost predicate SelectsOnly(mask: int, n: nat, p: nat) {
    p < n && forall q: nat :: q < n ==> (InAffinity(mask, q) <==> q == p)
  }

  // The processor a mask binds the thread to, when it has exactly one of n in it.
  ghost function Selected(mask: int, n: nat): Option<nat> {
    if exists p: nat :: SelectsOnly(mask, n, p) then var p: nat :| SelectsOnly(mask, n, p); Some(p) else None
  }

  lemma SelectedIsInMask(mask: int, n: nat, p: nat)
    ensures Selected(mask, n) == Some(p) <==> SelectsOnly(mask, n, p)
  {
    if SelectsOnly(mask, n, p) {
      assert InAffinity(mask, p);
    }
  }

  // The mask the loops make for index i: `ipow(2, i)`, a 32-bit int.
  function PinMask(i: nat): int { Wrap32(Pow(2, i)) }

  // Index i of n has a mask with processor i alone in it.
  predicate HasMask(i: nat, n: nat) { i <= 30 || (i == 31 && n <= 32) }

  lemma InPinMask(i: nat, p: nat)
    ensures InAffinity(PinMask(i), p) <==> if i <= 30 then p == i else i == 31 && 31 <= p < 64
  {
    Util.MaskSelectsOnly(i);
    assert InAffinity(PinMask(i), p) <==> Util.InMask(Util.AffinityMask(i), p);
  }

  /** The mask for index i binds the thread to processor i up to index 30, and at index 31 when
      there are 32 processors. With more, index 31 has several in its mask, and later ones none. */
  lemma PinMaskSelects(i: nat, n: nat)
    requires i < n
    ensures Selected(PinMask(i), n) == if HasMask(i, n) then Some(i) else None
  {
    if HasMask(i, n) {
      forall q: nat | q < n ensures InAffinity(PinMask(i), q) <==> q == i { InPinMask(i, q); }
      SelectedIsInMask(PinMask(i), n, i);
    } else {
      forall p: nat ensures !SelectsOnly(PinMask(i), n, p) { SeveralOrNone(i, n, p); }
    }
  }

  lemma SeveralOrNone(i: nat, n: nat, p: nat)
    requires i < n && !HasMask(i, n)
    ensures !SelectsOnly(PinMask(i), n, p)
  {
    InPinMask(i, p);
    InPinMask(i, 31);
    InPinMask(i, 32);
  }

  // How many bytes of a region a processor uses: bits 44:32 of its IA32_VMX_BASIC, and never
  // more than a page (appendix A.1 of the Intel SDM).
  ghost function NeededBytes(vmxBasic: bv64): nat {
    var bytes := vmxBasic as nat / TWO_32 % 8192;
    if bytes > PAGE_SIZE then PAGE_SIZE else bytes
  }

  // A region VMXON and VMPTRLD accept on processor c: page aligned, large enough, cleared over
  // its whole length, and headed by the revision identifier of that processor (section 24.2 of
  // the Intel SDM).
  ghost predicate GoodRegion(m: Machine, c: Cpu, pa: nat) {
    && pa % PAGE_SIZE == 0
    && pa in m.regions
    && m.regions[pa].size.bytes >= NeededBytes(c.vmxBasic)
    && m.regions[pa].zeroed
    && m.regions[pa].header == Word(Revision(c.vmxBasic))
  }

  // Processor c has a current VMCS that has not been launched since it was cleared.
  ghost predicate ClearCurrent(m: Machine, c: Cpu) {
    && c.mode.Root? && c.mode.current.Some?
    && c.mode.current.value in m.regions
    && m.regions[c.mode.current.value].launch.Clear?
  }

  ghost predicate InUse(c: Cpu, pa: nat) {
    match c.mode
    case Off => false
    case Root(vmxon, current) => vmxon == pa || current == Some(pa)
    case Guest(vmxon, vmcs) => vmxon == pa || vmcs == pa
  }

  ghost predicate Legal(m: Machine, e: Event) {
    && m.running && m.on < |m.cpus|
    && var c := m.cpus[m.on];
    match e
    case WriteFeatureControl(_) => !Locked(c.featureControl)
    case Pin(_) => true
    case WriteCr4(_) => true
    case Allocate(_, _) => true
    case Zero(va, size) => va in m.heap && m.heap[va] == size
    case WriteHeader(va, _) => va in m.heap
    case VmxOn(pa, _) =>
      c.mode.Off? && Vmxe(c.cr4) && Locked(c.featureControl) && VmxonEnabled(c.featureControl) && GoodRegion(m, c, pa)
    case VmPtrLd(pa, _) => c.mode.Root? && pa != c.mode.vmxon && GoodRegion(m, c, pa)
    case VmClear(pa, _, _) => c.mode.Root? && pa != c.mode.vmxon && GoodRegion(m, c, pa)
    case VmWrite(_) => ClearCurrent(m, c)
    case VmRead(_) => c.mode.Root? && c.mode.current.Some?
    case VmLaunch(_) => ClearCurrent(m, c)
    case VmxOff => c.mode.Root?
    case Free(va) => va in m.heap && forall k :: 0 <= k < |m.cpus| ==> !InUse(m.cpus[k], m.os.toPa(va))
    case NullAccess => false
  }

  ghost function SetCpu(m: Machine, c: Cpu): Machine {
    if m.on < |m.cpus| then m.(cpus := m.cpus[m.on := c]) else m
  }

  ghost function SetMode(m: Machine, mode: Mode): Machine {
    if m.on < |m.cpus| then SetCpu(m, m.cpus[m.on].(mode := mode)) else m
  }

  ghost function SetRegion(m: Machine, pa: nat, r: Region): Machine {
    m.(regions := m.regions[pa := r])
  }

  ghost function Effect(m: Machine, e: Event): Machine {
    if m.on >= |m.cpus| then m else
    var c := m.cpus[m.on];
    match e
    case WriteFeatureControl(msr) => SetCpu(m, c.(featureControl := msr))
    case Pin(mask) =>
      var s := Selected(mask, |m.cpus|);
      m.(on := if s.Some? then s.value else |m.cpus|)
    case WriteCr4(cr4) => SetCpu(m, c.(cr4 := cr4))
    case Allocate(size, result) =>
      if result.None? then m
      else SetRegion(m.(heap := m.heap[result.value := size]), m.os.toPa(result.value),
                     Region(size, false, Garbage, Undefined, map[]))
    case Zero(va, _) =>
      if m.os.toPa(va) in m.regions
      then SetRegion(m, m.os.toPa(va), m.regions[m.os.toPa(va)].(zeroed := true, header := Word(0)))
      else m
    case WriteHeader(va, word) =>
      if m.os.toPa(va) in m.regions
      then SetRegion(m, m.os.toPa(va), m.regions[m.os.toPa(va)].(header := Word(word)))
      else m
    case VmxOn(pa, status) => if status.Success? then SetMode(m, Root(pa, None)) else m
    case VmPtrLd(pa, status) =>
      if status.Success? && c.mode.Root? then SetMode(m, Root(c.mode.vmxon, Some(pa))) else m
    case VmClear(pa, status, contents) =>
      if status.Success? && c.mode.Root? && pa in m.regions then
        SetRegion(SetMode(m, if c.mode.current == Some(pa) then Root(c.mode.vmxon, None) else c.mode),
                  pa, m.regions[pa].(launch := Clear, fields := contents))
      else m
    case VmWrite(w) =>
      if c.mode.Root? && c.mode.current.Some? && c.mode.current.value in m.regions then
        var r := m.regions[c.mode.current.value];
        SetRegion(m, c.mode.current.value, r.(fields := Put(r.fields, w)))
      else m
    case VmRead(_) => m
    case VmLaunch(outcome) =>
      if outcome.Rejected? then m
      else if outcome.EntryFailed? then m.(running := false)
      else if c.mode.Root? && c.mode.current.Some? && c.mode.current.value in m.regions then
        var pa := c.mode.current.value;
        SetRegion(SetMode(m, Guest(c.mode.vmxon, pa)), pa, m.regions[pa].(launch := Launched)).(running := false)
      else m.(running := false)
    case VmxOff => SetMode(m, Off)
    case Free(va) => m.(heap := m.heap - {va}, regions := m.regions - {m.os.toPa(va)})
    case NullAccess => m.(running := false)
  }

  // A run is not followed past an illegal event.
  ghost function Fault(m: Machine): Machine { m.(running := false, ok := false) }

  ghost function Step(m: Machine, e: Event): Machine {
    if Legal(m, e) then Effect(m, e) else Fault(m)
  }

  ghost function Run(m: Machine, es: seq<Event>): Machine {
    if |es| == 0 then m else Step(Run(m, es[..|es| - 1]), es[|es| - 1])
  }

  lemma RunSnoc(m: Machine, es: seq<Event>, e: Event)
    ensures Run(m, es + [e]) == Step(Run(m, es), e)
  {
    assert (es + [e])[..|es + [e]| - 1] == es;
  }

  lemma {:induction false} RunConcat(m: Machine, es: seq<Event>, fs: seq<Event>)
    ensures Run(m, es + fs) == Run(Run(m, es), fs)
    decreases |fs|
  {
    if |fs| == 0 {
      assert es + fs == es;
    } else {
      var front := fs[..|fs| - 1];
      assert (es + fs)[..|es + fs| - 1] == es + front;
      RunConcat(m, es, front);
    }
  }

  // The first k of several traces, one after the other.
  function Joined<E>(parts: seq<seq<E>>, k: nat): seq<E>
    requires k <= |parts|
  {
    if k == 0 then [] else Joined(parts, k - 1) + parts[k - 1]
  }

  lemma {:induction false} JoinedRest<E>(parts: seq<seq<E>>, k: nat, n: nat) returns (rest: seq<E>)
    requires k <= n <= |parts|
    ensures Joined(parts, n) == Joined(parts, k) + rest
  {
    if k == n {
      rest := [];
    } else {
      rest := JoinedRest(parts, k, n - 1);
      rest := rest + parts[n - 1];
    }
  }

  lemma JoinedAround<E>(parts: seq<seq<E>>, k: nat, n: nat) returns (rest: seq<E>)
    requires k < n <= |parts|
    ensures Joined(parts, n) == Joined(parts, k) + parts[k] + rest
  {
    rest := JoinedRest(parts, k + 1, n);
  }

  lemma StepOk(m: Machine, e: Event)
    ensures Step(m, e).ok <==> m.ok && Legal(m, e)
  {
  }

  lemma StepStopped(m: Machine, e: Event)
    requires !m.running && !m.ok
    ensures Step(m, e) == m
  {
  }

  /** A run that ends ok was legal at every step. */
  lemma {:induction false} EveryStepLegal(m: Machine, es: seq<Event>, k: nat)
    requires Run(m, es).ok && k < |es|
    ensures Legal(Run(m, es[..k]), es[k])
    decreases |es|
  {
    var front, e := es[..|es| - 1], es[|es| - 1];
    StepOk(Run(m, front), e);
    if k < |front| {
      assert front[..k] == es[..k];
      EveryStepLegal(m, front, k);
    }
  }

  // Nothing happens once a run has stopped at a fault.
  lemma {:induction false} StaysStopped(m: Machine, es: seq<Event>)
    requires !m.running && !m.ok
    ensures Run(m, es) == m
  {
    if |es| > 0 {
      StaysStopped(m, es[..|es| - 1]);
      StepStopped(m, es[|es| - 1]);
    }
  }

  lemma StoppedRun(m: Machine, es: seq<Event>, r: Machine, fs: seq<Event>)
    requires Run(m, es) == r && !r.running && !r.ok
    ensures Run(m, es + fs) == r
  {
    RunConcat(m, es, fs);
    StaysStopped(r, fs);
  }

  lemma StopsBetween(m: Machine, es: seq<Event>, fs: seq<Event>, gs: seq<Event>, all: seq<Event>,
                     t: Machine, r: Machine)
    requires Run(m, es) == t && Run(t, fs) == r && !r.running && !r.ok && all == es + fs + gs
    ensures Run(m, all) == r
  {
    RunConcat(m, es, fs);
    StoppedRun(m, es + fs, r, gs);
  }

  lemma FaultingRun(m: Machine, es: seq<Event>, r: Machine, e: Event)
    requires Run(m, es) == r && !Legal(r, e)
    ensures Run(m, es + [e]) == Fault(r)
  {
    RunSnoc(m, es, e);
  }

  /** A run that does not end ok is legal up to some event, and is followed up to there. */
  lemma {:induction false} StopsAtFault(m: Machine, es: seq<Event>) returns (k: nat)
    requires m.ok && !Run(m, es).ok
    ensures k < |es| && Run(m, es[..k]).ok && !Legal(Run(m, es[..k]), es[k])
    ensures Run(m, es) == Fault(Run(m, es[..k]))
  {
    var front, e := es[..|es| - 1], es[|es| - 1];
    var r := Run(m, front);
    StepOk(r, e);
    if r.ok {
      k := |es| - 1;
    } else {
      k := StopsAtFault(m, front);
      assert front[..k] == es[..k];
      StepStopped(r, e);
    }
  }

  lemma Run1(m: Machine, a: Event)
    ensures Run(m, [a]) == Step(m, a)
  {
    assert [a] == [] + [a];
    RunSnoc(m, [], a);
  }

  lemma Run2(m: Machine, a: Event, b: Event)
    ensures Run(m, [a, b]) == Step(Step(m, a), b)
  {
    Run1(m, a);
    assert [a, b] == [a] + [b];
    RunSnoc(m, [a], b);
  }

  lemma Run3(m: Machine, a: Event, b: Event, d: Event)
    ensures Run(m, [a, b, d]) == Step(Step(Step(m, a), b), d)
  {
    Run2(m, a, b);
    assert [a, b, d] == [a, b] + [d];
    RunSnoc(m, [a, b], d);
  }

  lemma Run4(m: Machine, a: Event, b: Event, d: Event, e: Event)
    ensures Run(m, [a, b, d, e]) == Step(Step(Step(Step(m, a), b), d), e)
  {
    Run3(m, a, b, d);
    assert [a, b, d, e] == [a, b, d] + [e];
    RunSnoc(m, [a, b, d], e);
  }

  function WriteEvents(ws: seq<Write>): (es: seq<Event>)
    ensures |es| == |ws| && forall k :: 0 <= k < |ws| ==> es[k] == VmWrite(ws[k])
  {
    seq(|ws|, k requires 0 <= k < |ws| => VmWrite(ws[k]))
  }

  // What m becomes when its current VMCS holds other fields.
  ghost function WithFields(m: Machine, fields: Store): Machine
    requires m.on < |m.cpus| && ClearCurrent(m, m.cpus[m.on])
  {
    var pa := m.cpus[m.on].mode.current.value;
    SetRegion(m, pa, m.regions[pa].(fields := fields))
  }

  ghost function CurrentFields(m: Machine): Store
    requires m.on < |m.cpus| && ClearCurrent(m, m.cpus[m.on])
  {
    m.regions[m.cpus[m.on].mode.current.value].fields
  }

  lemma WriteStep(m: Machine, fields: Store, w: Write)
    requires m.running && m.on < |m.cpus| && ClearCurrent(m, m.cpus[m.on])
    ensures Step(WithFields(m, fields), VmWrite(w)) == WithFields(m, Put(fields, w))
  {
    var pa, f := m.cpus[m.on].mode.current.value, WithFields(m, fields);
    assert f.cpus == m.cpus && f.on == m.on;
    assert ClearCurrent(f, f.cpus[f.on]);
    assert Legal(f, VmWrite(w));
    assert f.regions[pa := f.regions[pa].(fields := Put(fields, w))] == WithFields(m, Put(fields, w)).regions;
  }

  /** A run of VMWRITEs on a processor with a clear current VMCS is legal throughout and
      changes nothing but the fields of that VMCS. */
  lemma {:induction false} RunWrites(m: Machine, ws: seq<Write>)
    requires m.running && m.on < |m.cpus| && ClearCurrent(m, m.cpus[m.on])
    ensures Run(m, WriteEvents(ws)) == WithFields(m, Apply(CurrentFields(m), ws))
  {
    if |ws| == 0 {
      assert WithFields(m, CurrentFields(m)).regions == m.regions;
    } else {
      var front, w := ws[..|ws| - 1], ws[|ws| - 1];
      RunWrites(m, front);
      assert WriteEvents(ws)[..|ws| - 1] == WriteEvents(front);
      WriteStep(m, Apply(CurrentFields(m), front), w);
    }
  }
}
