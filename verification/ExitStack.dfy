// Where a VM exit lands on the stack: HOST_RSP (hv/src/vmx.c), the layout of VP_DATA
// (hv/include/hv.h), the stub of hv/src/asm/_vmexit.asm, and how hv/src/vmexit.c looks for
// the guest's RCX.
module ExitStack {
  import opened Power

  // The size of VP_DATA, the offsets of VmmStack and MsrBitmap in it, KERNEL_STACK_SIZE,
  // sizeof(CONTEXT), and how far below its return address CaptureContext uses the stack.
  datatype Layout = Layout(vpSize: nat, stackOffset: nat, bitmapOffset: nat, stackSize: nat, contextSize: nat,
                           depth: nat)
  {
    // A stack lies inside its slot and has room for what an exit puts on it.
    ghost predicate Valid() {
      stackOffset + stackSize <= vpSize && contextSize + FRAME + depth <= stackSize && HOME - 8 <= contextSize
    }

    // The addresses of slot i of VmmState, of its stack and of its MSR bitmap.
    function Slot(base: nat, i: nat): nat { base + i * vpSize }
    function Stack(base: nat, i: nat): nat { Slot(base, i) + stackOffset }
    function Bitmap(base: nat, i: nat): nat { Slot(base, i) + bitmapOffset }

    // The value written to HOST_RSP for processor i.
    function HostRsp(base: nat, i: nat): int { Stack(base, i) + stackSize - contextSize }
  }

  // The saved RCX and the return address of the call, below the CONTEXT.
  const FRAME: nat := 16

  // The area above its return address that a callee may store its arguments in.
  const HOME: nat := 32

  type Byte = b: int | 0 <= b < 256
  type Quad = v: int | 0 <= v < TWO_64

  // What is at each address.
  datatype Content = Unmapped | Held(byte: Byte)
  type Memory = int -> Content

  // The n low bytes of v, lowest first, and the number that bytes make.
  function Bytes(v: nat, n: nat): (bytes: seq<Byte>)
    ensures |bytes| == n
  {
    if n == 0 then [] else [v % 256] + Bytes(v / 256, n - 1)
  }

  function Number(bytes: seq<Byte>): nat {
    if |bytes| == 0 then 0 else bytes[0] + 256 * Number(bytes[1..])
  }

  lemma {:induction false} NumberOfBytes(v: nat, n: nat)
    requires v < Pow(256, n)
    ensures Number(Bytes(v, n)) == v
  {
    if n > 0 {
      assert Bytes(v, n)[1..] == Bytes(v / 256, n - 1);
      NumberOfBytes(v / 256, n - 1);
    }
  }

  lemma {:induction false} BytesOfNumber(bytes: seq<Byte>)
    ensures Bytes(Number(bytes), |bytes|) == bytes
  {
    if |bytes| > 0 {
      var n := Number(bytes[1..]);
      BytesOfNumber(bytes[1..]);
      assert Number(bytes) % 256 == bytes[0] && Number(bytes) / 256 == n;
      assert bytes == [bytes[0]] + bytes[1..];
    }
  }

  lemma EightBytes()
    ensures Pow(256, 8) == TWO_64
  {
    assert Pow(256, 4) == TWO_32;
    PowAdd(256, 4, 4);
  }

  function Qword(v: Quad): (bytes: seq<Byte>)
    ensures |bytes| == 8
  {
    Bytes(v, 8)
  }

  function ByteOf(c: Content): Byte { if c.Held? then c.byte else 0 }

  function Stored(memory: Memory, a: int, bytes: seq<Byte>): Memory {
    x => if a <= x < a + |bytes| then Held(bytes[x - a]) else memory(x)
  }

  predicate Mapped(memory: Memory, a: int) {
    forall x :: a <= x < a + 8 ==> memory(x).Held?
  }

  // The eight bytes at a, and the quadword there, if they are mapped.
  function Read(memory: Memory, a: int): seq<Byte>
    requires Mapped(memory, a)
  {
    seq<Byte>(8, k requires 0 <= k < 8 => ByteOf(memory(a + k)))
  }

  lemma ReadAt(memory: Memory, a: int, k: int)
    requires Mapped(memory, a) && 0 <= k < 8
    ensures memory(a + k) == Held(Read(memory, a)[k])
  {
    assert Read(memory, a)[k] == ByteOf(memory(a + k));
  }

  datatype Value = NoValue | Value(v: int)

  function QwordAt(memory: Memory, a: int): Value {
    if Mapped(memory, a) then Value(Number(Read(memory, a))) else NoValue
  }

  // A quadword is v exactly when its bytes are those of v.
  lemma QwordAtIff(memory: Memory, a: int, v: Quad)
    ensures QwordAt(memory, a) == Value(v) <==> Mapped(memory, a) && Read(memory, a) == Qword(v)
  {
    EightBytes();
    NumberOfBytes(v, 8);
    if Mapped(memory, a) { BytesOfNumber(Read(memory, a)); }
  }

  lemma QwordUnchanged(memory: Memory, after: Memory, a: int)
    requires forall x :: a <= x < a + 8 ==> after(x) == memory(x)
    ensures QwordAt(after, a) == QwordAt(memory, a)
  {
    if Mapped(memory, a) { assert Read(after, a) == Read(memory, a); }
  }

  // What the call of CaptureContext puts into memory: its return address, whatever it stores
  // below that and, from the bottom of its home area, in the home area, and the CONTEXT; and
  // what it leaves in RCX.
  datatype Call = Call(returnTo: Quad, below: seq<Byte>, home: seq<Byte>, context: seq<Byte>, rcx: Quad) {
    ghost predicate Fits(contextSize: nat, depth: nat) {
      |context| == contextSize && |below| <= depth && |home| <= HOME && HOME - 8 <= contextSize
    }
  }

  // The memory when the stub jumps to VmExitHandler, RSP having been rsp at the exit.
  function StubMemory(memory: Memory, rsp: int, rcx: Quad, call: Call): Memory {
    Captured(Stored(Stored(memory, rsp - 8, Qword(rcx)), rsp - 16, Qword(call.returnTo)), rsp - 16, rsp, call)
  }

  // ... and what CaptureContext makes of it, RSP pointing at its return address and RCX at
  // the CONTEXT.
  function Captured(memory: Memory, rsp: int, rcx: int, call: Call): Memory {
    Stored(Stored(Stored(memory, rsp - |call.below|, call.below), rsp + 8, call.home), rcx, call.context)
  }

  // What the stub works on.
  class StubState {
    var rsp: int
    var rcx: int
    var memory: Memory

    method Push(v: Quad)
      modifies this`rsp, this`memory
      ensures rsp == old(rsp) - 8 && memory == Stored(old(memory), rsp, Qword(v))
    {
      rsp := rsp - 8;
      memory := Stored(memory, rsp, Qword(v));
    }

    // The call of CaptureContext, which fills the CONTEXT that RCX points to.
    method CallCaptureContext(call: Call)
      modifies this
      ensures rsp == old(rsp) && rcx == call.rcx
      ensures memory == Captured(Stored(old(memory), rsp - 8, Qword(call.returnTo)), rsp - 8, old(rcx), call)
    {
      Push(call.returnTo);
      memory := Captured(memory, rsp, rcx, call);
      rsp, rcx := rsp + 8, call.rcx;
    }

    /** `VmExitStub`, up to its jump to VmExitHandler. */
    method VmExitStub(call: Call)
      requires 0 <= rcx < TWO_64
      modifies this
      ensures rsp == old(rsp) - 8 && rcx == call.rcx
      ensures memory == StubMemory(old(memory), old(rsp), old(rcx), call)
    {
      Push(rcx);
      rcx := rsp + 8;
      CallCaptureContext(call);
    }

    // The value VmExitHandler gives Context->Rcx. The stub jumps to the handler, so
    // `_ReturnAddress` is whatever quadword RSP then points at.
    method RecoverRcx() returns (value: Value)
      ensures value == Recovered(memory, rsp)
    {
      var returnAddress := QwordAt(memory, rsp);
      value := if returnAddress.NoValue? then NoValue else QwordAt(memory, Below(returnAddress.v));
    }
  }

  // The address of the quadword below the address v.
  function Below(v: int): int { (v - 8) % TWO_64 }

  function Recovered(memory: Memory, rsp: int): Value {
    var returnAddress := QwordAt(memory, rsp);
    if returnAddress.NoValue? then NoValue else QwordAt(memory, Below(returnAddress.v))
  }

  // Byte k of the saved RCX, after a callee has stored `home` from there on.
  function SavedByte(rcx: seq<Byte>, home: seq<Byte>, k: int): Byte
    requires |rcx| == 8 && 0 <= k < 8
  {
    if k < |home| then home[k] else rcx[k]
  }

  // All eight of them.
  function Saved(rcx: Quad, home: seq<Byte>): (bytes: seq<Byte>)
    ensures |bytes| == 8
  {
    seq<Byte>(8, k requires 0 <= k < 8 => SavedByte(Qword(rcx), home, k))
  }

  // The home area leaves the saved RCX as it is.
  predicate KeepsRcx(rcx: Quad, home: seq<Byte>) { Saved(rcx, home) == Qword(rcx) }

  // What is at x when the stub jumps: the CONTEXT, the saved RCX, the return address and what
  // CaptureContext has left below it, and all around them what was there at the exit.
  function LeftAt(memory: Memory, rsp: int, rcx: Quad, call: Call, x: int): Content {
    if rsp <= x < rsp + |call.context| then Held(call.context[x - rsp])
    else if rsp - 8 <= x < rsp then Held(Saved(rcx, call.home)[x - (rsp - 8)])
    else if rsp - 16 <= x < rsp - 8 then Held(Qword(call.returnTo)[x - (rsp - 16)])
    else if rsp - 16 - |call.below| <= x < rsp - 16 then Held(call.below[x - (rsp - 16 - |call.below|)])
    else memory(x)
  }

  /** The stub leaves the CONTEXT at RSP, and below it the RCX of the guest but for the bytes
      CaptureContext stores in its home area; and it touches nothing else but the return
      address and what CaptureContext uses below that. */
  lemma StubFrame(memory: Memory, rsp: int, rcx: Quad, call: Call, contextSize: nat, depth: nat, x: int)
    requires call.Fits(contextSize, depth)
    ensures StubMemory(memory, rsp, rcx, call)(x) == LeftAt(memory, rsp, rcx, call, x)
    ensures x < rsp - FRAME - depth || rsp + contextSize <= x ==> StubMemory(memory, rsp, rcx, call)(x) == memory(x)
  {
  }

  lemma SavedIsRead(memory: Memory, rsp: int, rcx: Quad, call: Call, contextSize: nat, depth: nat)
    requires call.Fits(contextSize, depth)
    ensures var after := StubMemory(memory, rsp, rcx, call);
      Mapped(after, rsp - 8) && Read(after, rsp - 8) == Saved(rcx, call.home)
  {
    var after := StubMemory(memory, rsp, rcx, call);
    forall x | rsp - 8 <= x < rsp
      ensures after(x) == Held(Saved(rcx, call.home)[x - (rsp - 8)])
    {
      StubFrame(memory, rsp, rcx, call, contextSize, depth, x);
    }
    forall k | 0 <= k < 8 ensures Read(after, rsp - 8)[k] == Saved(rcx, call.home)[k] {
      ReadAt(after, rsp - 8, k);
    }
  }

  /** The quadword below the CONTEXT is the guest's RCX exactly when CaptureContext stores
      nothing else in the low eight bytes of its home area. */
  lemma RcxSurvivesIff(memory: Memory, rsp: int, rcx: Quad, call: Call, contextSize: nat, depth: nat)
    requires call.Fits(contextSize, depth)
    ensures QwordAt(StubMemory(memory, rsp, rcx, call), rsp - 8) == Value(rcx) <==> KeepsRcx(rcx, call.home)
  {
    SavedIsRead(memory, rsp, rcx, call, contextSize, depth);
    QwordAtIff(StubMemory(memory, rsp, rcx, call), rsp - 8, rcx);
  }

  // Where the handler looks for RCX: below the address that the saved quadword holds.
  function LookedAt(rcx: Quad, home: seq<Byte>): int { Below(Number(Saved(rcx, home))) }

  /** The handler does not read the saved quadword. It takes it for a return address and reads
      the quadword below that address. The value is the guest's RCX exactly when the stub left
      the bytes of RCX there; away from the frame, when they were there at the exit; and when
      that is the saved quadword itself, when CaptureContext left it alone. */
  lemma RecoveredIff(memory: Memory, rsp: int, rcx: Quad, call: Call, contextSize: nat, depth: nat)
    requires call.Fits(contextSize, depth)
    ensures var value, a := Recovered(StubMemory(memory, rsp, rcx, call), rsp - 8), LookedAt(rcx, call.home);
      && (value == Value(rcx)
          <==> forall x :: a <= x < a + 8 ==> LeftAt(memory, rsp, rcx, call, x) == Held(Qword(rcx)[x - a]))
      && (a == rsp - 8 ==> (value == Value(rcx) <==> KeepsRcx(rcx, call.home)))
      && (a + 8 <= rsp - FRAME - depth || rsp + contextSize <= a ==>
            (value == Value(rcx) <==> QwordAt(memory, a) == Value(rcx)))
  {
    var after, a := StubMemory(memory, rsp, rcx, call), LookedAt(rcx, call.home);
    SavedIsRead(memory, rsp, rcx, call, contextSize, depth);
    RcxSurvivesIff(memory, rsp, rcx, call, contextSize, depth);
    ReadsRcxIff(memory, rsp, rcx, call, contextSize, depth, a);
    if a + 8 <= rsp - FRAME - depth || rsp + contextSize <= a {
      ReadElsewhere(memory, rsp, rcx, call, contextSize, depth, a);
    }
  }

  lemma ReadsRcxIff(memory: Memory, rsp: int, rcx: Quad, call: Call, contextSize: nat, depth: nat, a: int)
    requires call.Fits(contextSize, depth)
    ensures QwordAt(StubMemory(memory, rsp, rcx, call), a) == Value(rcx)
            <==> forall x :: a <= x < a + 8 ==> LeftAt(memory, rsp, rcx, call, x) == Held(Qword(rcx)[x - a])
  {
    var after := StubMemory(memory, rsp, rcx, call);
    forall x ensures after(x) == LeftAt(memory, rsp, rcx, call, x) {
      StubFrame(memory, rsp, rcx, call, contextSize, depth, x);
    }
    HoldsQwordIff(after, a, rcx);
  }

  lemma HoldsQwordIff(memory: Memory, a: int, v: Quad)
    ensures QwordAt(memory, a) == Value(v) <==> forall x :: a <= x < a + 8 ==> memory(x) == Held(Qword(v)[x - a])
  {
    QwordAtIff(memory, a, v);
    if Mapped(memory, a) && Read(memory, a) == Qword(v) { ReadHolds(memory, a, Qword(v)); }
    if forall x :: a <= x < a + 8 ==> memory(x) == Held(Qword(v)[x - a]) { HeldIsRead(memory, a, Qword(v)); }
  }

  lemma ReadHolds(memory: Memory, a: int, bytes: seq<Byte>)
    requires Mapped(memory, a) && Read(memory, a) == bytes
    ensures forall x :: a <= x < a + 8 ==> memory(x) == Held(bytes[x - a])
  {
    forall x | a <= x < a + 8 ensures memory(x) == Held(bytes[x - a]) { ReadAt(memory, a, x - a); }
  }

  lemma HeldIsRead(memory: Memory, a: int, bytes: seq<Byte>)
    requires |bytes| == 8 && forall x :: a <= x < a + 8 ==> memory(x) == Held(bytes[x - a])
    ensures Mapped(memory, a) && Read(memory, a) == bytes
  {
    forall k | 0 <= k < 8 ensures Read(memory, a)[k] == bytes[k] { ReadAt(memory, a, k); }
  }

  lemma SavedIsSpill(rcx: Quad, home: seq<Byte>, bytes: seq<Byte>)
    requires |bytes| == 8 <= |home| && home[..8] == bytes
    ensures Saved(rcx, home) == bytes
  {
    forall k | 0 <= k < 8 ensures Saved(rcx, home)[k] == bytes[k] { assert home[..8][k] == home[k]; }
  }

  /** A CaptureContext that spills its argument, as code compiled without optimization does,
      makes the handler take the address of the CONTEXT for RCX. */
  lemma SpilledArgument(memory: Memory, rsp: Quad, rcx: Quad, call: Call, contextSize: nat, depth: nat)
    requires call.Fits(contextSize, depth) && rsp >= 8 && |call.home| >= 8 && call.home[..8] == Qword(rsp)
    ensures Recovered(StubMemory(memory, rsp, rcx, call), rsp - 8) == Value(rsp)
  {
    SavedIsRead(memory, rsp, rcx, call, contextSize, depth);
    SavedIsSpill(rcx, call.home, Qword(rsp));
    QwordAtIff(StubMemory(memory, rsp, rcx, call), rsp - 8, rsp);
  }

  lemma ReadElsewhere(memory: Memory, rsp: int, rcx: Quad, call: Call, contextSize: nat, depth: nat, a: int)
    requires call.Fits(contextSize, depth)
    requires a + 8 <= rsp - FRAME - depth || rsp + contextSize <= a
    ensures QwordAt(StubMemory(memory, rsp, rcx, call), a) == QwordAt(memory, a)
  {
    var after := StubMemory(memory, rsp, rcx, call);
    forall x | a <= x < a + 8
      ensures after(x) == memory(x)
    {
      StubFrame(memory, rsp, rcx, call, contextSize, depth, x);
    }
    QwordUnchanged(memory, after, a);
  }

  lemma Product(i: nat, d: nat, v: nat)
    ensures i * v + v <= (i + 1 + d) * v
  {
    assert (i + 1 + d) * v == i * v + v + d * v;
    assert d * v >= 0;
  }

  lemma SlotsApart(l: Layout, base: nat, i: nat, j: nat)
    requires i < j
    ensures l.Slot(base, i) + l.vpSize <= l.Slot(base, j)
  {
    Product(i, j - i - 1, l.vpSize);
  }

  /** The CONTEXT of an exit is exactly the top of the stack of the processor's own slot,
      and what lies below it is inside that stack too. */
  lemma FrameInStack(l: Layout, base: nat, i: nat)
    requires l.Valid()
    ensures l.HostRsp(base, i) + l.contextSize == base + i * l.vpSize + l.stackOffset + l.stackSize
    ensures base + i * l.vpSize + l.stackOffset <= l.HostRsp(base, i) - FRAME - l.depth
    ensures base + i * l.vpSize + l.stackOffset + l.stackSize <= base + i * l.vpSize + l.vpSize
  {
  }

  // The bytes an exit of processor i may write.
  ghost predicate InFrame(l: Layout, base: nat, i: nat, x: int) {
    l.HostRsp(base, i) - FRAME - l.depth <= x < l.HostRsp(base, i) + l.contextSize
  }

  // ... and those of the stack in its slot.
  ghost predicate InStack(l: Layout, base: nat, i: nat, x: int) {
    base + i * l.vpSize + l.stackOffset <= x < base + i * l.vpSize + l.stackOffset + l.stackSize
  }

  /** Exits of different processors write disjoint bytes. */
  lemma FramesApart(l: Layout, base: nat, i: nat, j: nat, x: int)
    requires l.Valid() && i != j && InFrame(l, base, i, x)
    ensures !InFrame(l, base, j, x)
  {
    FrameInStack(l, base, i);
    FrameInStack(l, base, j);
    if i < j { SlotsApart(l, base, i, j); } else { SlotsApart(l, base, j, i); }
  }

  // A VM exit on a processor while the guest's RCX holds a value.
  datatype Exit = Exit(cpu: nat, rcx: Quad, call: Call)

  // The memory after VM exits of any processors in any order.
  function AfterExits(l: Layout, base: nat, memory: Memory, es: seq<Exit>): Memory {
    if |es| == 0 then memory
    else
      var e := es[|es| - 1];
      StubMemory(AfterExits(l, base, memory, es[..|es| - 1]), l.HostRsp(base, e.cpu), e.rcx, e.call)
  }

  // What an exit leaves at x, given RSP at the exit.
  ghost predicate Holds(memory: Memory, rsp: int, e: Exit, x: int)
  {
    && rsp - 8 <= x < rsp + |e.call.context|
    && memory(x) == Held(if x < rsp then Saved(e.rcx, e.call.home)[x - (rsp - 8)] else e.call.context[x - rsp])
  }

  lemma OwnExit(l: Layout, memory: Memory, rsp: int, e: Exit, x: int)
    requires e.call.Fits(l.contextSize, l.depth) && rsp - 8 <= x < rsp + l.contextSize
    ensures Holds(StubMemory(memory, rsp, e.rcx, e.call), rsp, e, x)
  {
    StubFrame(memory, rsp, e.rcx, e.call, l.contextSize, l.depth, x);
  }

  // An exit of one processor leaves the frames of the others alone.
  lemma ExitElsewhere(l: Layout, base: nat, memory: Memory, own: Exit, e: Exit, x: int)
    requires l.Valid() && own.cpu != e.cpu
    requires own.call.Fits(l.contextSize, l.depth) && e.call.Fits(l.contextSize, l.depth)
    requires l.HostRsp(base, own.cpu) - 8 <= x < l.HostRsp(base, own.cpu) + l.contextSize
    requires Holds(memory, l.HostRsp(base, own.cpu), own, x)
    ensures Holds(StubMemory(memory, l.HostRsp(base, e.cpu), e.rcx, e.call), l.HostRsp(base, own.cpu), own, x)
  {
    FramesApart(l, base, own.cpu, e.cpu, x);
    StubFrame(memory, l.HostRsp(base, e.cpu), e.rcx, e.call, l.contextSize, l.depth, x);
  }

  /** However the exits of the processors interleave, each processor finds the CONTEXT of its
      own latest exit, and below it the RCX that exit saved. */
  lemma {:induction false} LatestExitSurvives(l: Layout, base: nat, memory: Memory, es: seq<Exit>, t: nat, x: int)
    requires l.Valid() && t < |es|
    requires forall u :: 0 <= u < |es| ==> es[u].call.Fits(l.contextSize, l.depth)
    requires forall u :: t < u < |es| ==> es[u].cpu != es[t].cpu
    requires l.HostRsp(base, es[t].cpu) - 8 <= x < l.HostRsp(base, es[t].cpu) + l.contextSize
    ensures Holds(AfterExits(l, base, memory, es), l.HostRsp(base, es[t].cpu), es[t], x)
    decreases |es|
  {
    var front, e := es[..|es| - 1], es[|es| - 1];
    var before := AfterExits(l, base, memory, front);
    if t == |es| - 1 {
      OwnExit(l, before, l.HostRsp(base, e.cpu), e, x);
    } else {
      LatestExitSurvives(l, base, memory, front, t, x);
      ExitElsewhere(l, base, before, es[t], e, x);
    }
  }
}
