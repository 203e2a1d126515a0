// The VM-execution, VM-exit and VM-entry control words: `AdjustControl` of
// hv/src/vmx.c and the capability MSRs of hv/include/arch/vmx.h (appendices A.3 to
// A.5 of the Intel SDM, volume 3).
module Controls {
  import Bits

  // RESERVED_CONTROLS_DEFAULT_SETTINGS, the two halves of a capability MSR: the bits
  // that must be 1 and the bits that may be 1.
  function Default0(msr: bv64): bv32 { (msr & 0xFFFF_FFFF) as bv32 }
  function Default1(msr: bv64): bv32 { (msr >> 32) as bv32 }

  // CONTROL_TYPE; any other number reaches the `default` branch.
  datatype ControlType = PinBased | ProcBased | ProcBased2 | VmEntry | VmExit | Unknown

  datatype CapabilityMsrs = CapabilityMsrs(
    vmxBasic: bv64,
    pin: bv64, truePin: bv64,
    proc: bv64, trueProc: bv64,
    proc2: bv64,
    entry: bv64, trueEntry: bv64,
    exit: bv64, trueExit: bv64)
  {
    // IA32_VMX_BASIC bit 55, VmxCapabilityHint
    predicate Hint() { (vmxBasic >> 55) & 1 == 1 }

    function For(t: ControlType): bv64
      requires !t.Unknown?
    {
      match t
      case PinBased => if Hint() then truePin else pin
      case ProcBased => if Hint() then trueProc else proc
      case ProcBased2 => proc2
      case VmEntry => if Hint() then trueEntry else entry
      case VmExit => if Hint() then trueExit else exit
    }
  }

  predicate Subset(a: bv32, b: bv32) { a & !b == 0 }

  // The processor accepts control word w (section 26.2.1 of the Intel SDM), given the
  // bits d0 it forces and the bits d1 it allows.
  predicate Legal(w: bv32, d0: bv32, d1: bv32) { Subset(d0, w) && Subset(w, d1) }

  function Adjust(w: bv32, d0: bv32, d1: bv32): bv32 { (w | d0) & d1 }

  function AdjustBy(w: bv32, msr: bv64): bv32 { Adjust(w, Default0(msr), Default1(msr)) }
  predicate LegalBy(w: bv32, msr: bv64) { Legal(w, Default0(msr), Default1(msr)) }

  // A capability MSR that forces no bit it does not allow.
  predicate Consistent(msr: bv64) { Subset(Default0(msr), Default1(msr)) }

  class ControlWord {
    var All: bv32

    constructor (all: bv32)
      ensures All == all
    {
      All := all;
    }
  }

  /** `AdjustControl`: the word is changed where it is, by the MSR of its type. */
  method AdjustControl(t: ControlType, msrs: CapabilityMsrs, control: ControlWord)
    modifies control
    ensures control.All == if t.Unknown? then old(control.All) else AdjustBy(old(control.All), msrs.For(t))
  {
    if !t.Unknown? {
      var reserved := msrs.For(t);
      control.All := control.All | Default0(reserved);
      control.All := control.All & Default1(reserved);
    }
  }

  /** The adjusted word is legal exactly when the MSR forces no bit it forbids. */
  lemma AdjustLegal(w: bv32, d0: bv32, d1: bv32)
    ensures Legal(Adjust(w, d0, d1), d0, d1) <==> Subset(d0, d1)
  {
    AdjustedBits(w, d0, d1);
  }

  lemma AdjustedBits(w: bv32, d0: bv32, d1: bv32)
    ensures d0 & !((w | d0) & d1) == 0 && ((w | d0) & d1) & !d1 == 0 <==> d0 & !d1 == 0
  {
  }

  /** Otherwise no word at all is legal. */
  lemma LegalNeedsConsistent(v: bv32, d0: bv32, d1: bv32)
    requires Legal(v, d0, d1)
    ensures Subset(d0, d1)
  {
  }

  /** What the adjusted word keeps of the request: every allowed bit of it, and no bit
      outside it that is not forced. */
  lemma AdjustKeeps(w: bv32, d0: bv32, d1: bv32)
    ensures Subset(w & d1, Adjust(w, d0, d1))
    ensures Subset(Adjust(w, d0, d1), w | d0)
  {
  }

  /** Legal requests, and no others, are left alone. */
  lemma AdjustFixesLegal(w: bv32, d0: bv32, d1: bv32)
    requires Subset(d0, d1)
    ensures Adjust(w, d0, d1) == w <==> Legal(w, d0, d1)
  {
    FixedBits(w, d0, d1);
  }

  lemma FixedBits(w: bv32, d0: bv32, d1: bv32)
    requires d0 & !d1 == 0
    ensures (w | d0) & d1 == w <==> d0 & !w == 0 && w & !d1 == 0
  {
    if d0 & !w == 0 && w & !d1 == 0 {
      BetweenIsFixed(w, d0, d1);
    } else if (w | d0) & d1 == w {
      FixedIsBetween(w, d0, d1);
    }
  }

  lemma BetweenIsFixed(w: bv32, d0: bv32, d1: bv32)
    requires d0 & !w == 0 && w & !d1 == 0
    ensures (w | d0) & d1 == w
  {
  }

  lemma FixedIsBetween(w: bv32, d0: bv32, d1: bv32)
    requires d0 & !d1 == 0 && (w | d0) & d1 == w
    ensures d0 & !w == 0 && w & !d1 == 0
  {
  }

  /** Adjusting twice is adjusting once, whatever the MSR. */
  lemma AdjustIdempotent(w: bv32, d0: bv32, d1: bv32)
    ensures Adjust(Adjust(w, d0, d1), d0, d1) == Adjust(w, d0, d1)
  {
  }

  /** A larger request is adjusted to a larger word. */
  lemma AdjustMonotone(w: bv32, v: bv32, d0: bv32, d1: bv32)
    requires Subset(w, v)
    ensures Subset(Adjust(w, d0, d1), Adjust(v, d0, d1))
  {
  }

  // Whether w has the bit m, as a number.
  function Bit(w: bv32, m: bv32): nat { if w & m != 0 then 1 else 0 }

  function OnesInByte(w: bv32, m: bv32): nat {
    Bit(w, m) + Bit(w, m << 1) + Bit(w, m << 2) + Bit(w, m << 3)
    + Bit(w, m << 4) + Bit(w, m << 5) + Bit(w, m << 6) + Bit(w, m << 7)
  }

  // The number of one bits.
  function Ones(w: bv32): nat {
    OnesInByte(w, 1) + OnesInByte(w, 1 << 8) + OnesInByte(w, 1 << 16) + OnesInByte(w, 1 << 24)
  }

  // The number of bits in which two words differ.
  function Hamming(v: bv32, w: bv32): nat { Ones(v ^ w) }

  lemma BitMonotone(a: bv32, b: bv32, m: bv32)
    requires Subset(a, b)
    ensures Bit(a, m) <= Bit(b, m)
  {
  }

  ghost predicate SameByte(a: bv32, b: bv32, m: bv32) {
    && Bit(a, m) == Bit(b, m) && Bit(a, m << 1) == Bit(b, m << 1)
    && Bit(a, m << 2) == Bit(b, m << 2) && Bit(a, m << 3) == Bit(b, m << 3)
    && Bit(a, m << 4) == Bit(b, m << 4) && Bit(a, m << 5) == Bit(b, m << 5)
    && Bit(a, m << 6) == Bit(b, m << 6) && Bit(a, m << 7) == Bit(b, m << 7)
  }

  lemma ByteMonotone(a: bv32, b: bv32, m: bv32)
    requires Subset(a, b)
    ensures OnesInByte(a, m) <= OnesInByte(b, m)
    ensures OnesInByte(a, m) == OnesInByte(b, m) ==> SameByte(a, b, m)
  {
    BitMonotone(a, b, m); BitMonotone(a, b, m << 1); BitMonotone(a, b, m << 2); BitMonotone(a, b, m << 3);
    BitMonotone(a, b, m << 4); BitMonotone(a, b, m << 5); BitMonotone(a, b, m << 6); BitMonotone(a, b, m << 7);
  }

  lemma SameBytes(a: bv32, b: bv32)
    requires SameByte(a, b, 1) && SameByte(a, b, 1 << 8) && SameByte(a, b, 1 << 16) && SameByte(a, b, 1 << 24)
    ensures a == b
  {
  }

  lemma OnesStrict(a: bv32, b: bv32)
    requires Subset(a, b) && a != b
    ensures Ones(a) < Ones(b)
  {
    ByteMonotone(a, b, 1);
    ByteMonotone(a, b, 1 << 8);
    ByteMonotone(a, b, 1 << 16);
    ByteMonotone(a, b, 1 << 24);
    if Ones(a) >= Ones(b) { SameBytes(a, b); }
  }

  /** The adjusted word is the one legal word nearest to the request: every other legal
      word differs from the request in strictly more bits. */
  lemma AdjustNearest(w: bv32, d0: bv32, d1: bv32, v: bv32)
    requires Legal(v, d0, d1) && v != Adjust(w, d0, d1)
    ensures Hamming(Adjust(w, d0, d1), w) < Hamming(v, w)
  {
    var a, b := Adjust(w, d0, d1) ^ w, v ^ w;
    NearestBits(w, d0, d1, v, a, b);
    OnesStrict(a, b);
  }

  lemma NearestBits(w: bv32, d0: bv32, d1: bv32, v: bv32, a: bv32, b: bv32)
    requires Legal(v, d0, d1) && v != Adjust(w, d0, d1)
    requires a == Adjust(w, d0, d1) ^ w && b == v ^ w
    ensures Subset(a, b) && a != b
  {
  }

  // The control bits the driver asks for.
  const HLT_EXITING: bv32 := 1 << 7
  const ACTIVATE_SECONDARY_CONTROLS: bv32 := 1 << 31
  const ENABLE_RDTSCP: bv32 := 1 << 3
  const IA32_MODE_GUEST: bv32 := 1 << 9
  const HOST_ADDRESS_SPACE_SIZE: bv32 := 1 << 9
  const PRIMARY_REQUEST: bv32 := HLT_EXITING | ACTIVATE_SECONDARY_CONTROLS

  // The number of bit 55 of IA32_VMX_BASIC is odd, d0 and d1 are the halves of the number msr.
  ghost predicate HasTrueMsrs(vmxBasic: bv64) { vmxBasic as nat / 0x80_0000_0000_0000 % 2 == 1 }

  ghost predicate HalvesOf(msr: bv64, d0: bv32, d1: bv32) {
    d0 as nat == msr as nat % 0x1_0000_0000 && d1 as nat == msr as nat / 0x1_0000_0000
  }

  /** Every capability MSR has such halves, and they are the bits it forces and the bits it
      allows. */
  lemma HalvesAreDefaults(msr: bv64, d0: bv32, d1: bv32)
    ensures HalvesOf(msr, d0, d1) <==> d0 == Default0(msr) && d1 == Default1(msr)
  {
    Bits.Halves(msr);
    if HalvesOf(msr, d0, d1) {
      Bits.Same32(d0, Default0(msr));
      Bits.Same32(d1, Default1(msr));
    }
  }

  // The MSRs of appendices A.3.1, A.3.2, A.4 and A.5 of the Intel SDM, for the pin-based, primary,
  // exit and entry controls.
  ghost function PinMsr(m: CapabilityMsrs): bv64 { if HasTrueMsrs(m.vmxBasic) then m.truePin else m.pin }
  ghost function ProcMsr(m: CapabilityMsrs): bv64 { if HasTrueMsrs(m.vmxBasic) then m.trueProc else m.proc }
  ghost function ExitMsr(m: CapabilityMsrs): bv64 { if HasTrueMsrs(m.vmxBasic) then m.trueExit else m.exit }
  ghost function EntryMsr(m: CapabilityMsrs): bv64 { if HasTrueMsrs(m.vmxBasic) then m.trueEntry else m.entry }

  /** The MSR a word is adjusted by is the one the architecture names for it. */
  lemma MsrsAreNamed(m: CapabilityMsrs)
    ensures m.For(PinBased) == PinMsr(m) && m.For(ProcBased) == ProcMsr(m) && m.For(ProcBased2) == m.proc2
    ensures m.For(VmExit) == ExitMsr(m) && m.For(VmEntry) == EntryMsr(m)
  {
    Bits.Bit55(m.vmxBasic);
  }

  // w is the request with what msr forces added and what it forbids removed.
  ghost predicate AdjustedTo(w: bv32, request: bv32, msr: bv64) {
    exists d0: bv32, d1: bv32 :: HalvesOf(msr, d0, d1) && w == (request | d0) & d1
  }

  lemma AdjustByIs(request: bv32, msr: bv64)
    ensures AdjustedTo(AdjustBy(request, msr), request, msr)
  {
    HalvesAreDefaults(msr, Default0(msr), Default1(msr));
    assert HalvesOf(msr, Default0(msr), Default1(msr));
  }
}
