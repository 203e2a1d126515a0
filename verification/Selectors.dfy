// hv/include/arch/selectors.h and `GetVmxGdtEntry` of hv/src/util.c: from a selector
// and the GDT to the base, access rights and selector that a VMCS holds.
module Selectors {

  import opened NtStatus

  // KGDTENTRY64, sixteen bytes as DataLow and DataHigh.
  datatype Descriptor = Descriptor(low: bv64, high: bv64)

  // The sixteen bytes that start at an address.
  type Memory = bv64 -> Descriptor

  // The byte view of DataLow ...
  function LimitLow(low: bv64): bv64 { low & 0xFFFF }
  function BaseLow(low: bv64): bv64 { (low >> 16) & 0xFFFF }
  function BaseMiddle(low: bv64): bv64 { (low >> 32) & 0xFF }
  function Flags1(low: bv64): bv64 { (low >> 40) & 0xFF }
  function Flags2(low: bv64): bv64 { (low >> 48) & 0xFF }
  function BaseHigh(low: bv64): bv64 { low >> 56 }
  // ... and the bit view of its upper half.
  function TypeBits(low: bv64): bv64 { (low >> 40) & 0x1F }
  function Dpl(low: bv64): bv64 { (low >> 45) & 3 }
  function Present(low: bv64): bv64 { (low >> 47) & 1 }
  function LimitHigh(low: bv64): bv64 { (low >> 48) & 0xF }
  function Available(low: bv64): bv64 { (low >> 52) & 1 }
  function LongMode(low: bv64): bv64 { (low >> 53) & 1 }
  function DefaultBig(low: bv64): bv64 { (low >> 54) & 1 }
  function Granularity(low: bv64): bv64 { (low >> 55) & 1 }
  // BaseUpper, the first four bytes of DataHigh
  function BaseUpper(high: bv64): bv64 { high & 0xFFFF_FFFF }

  /** The two views of the flag bytes agree. */
  lemma ViewsAgree(low: bv64)
    ensures Flags1(low) == TypeBits(low) | (Dpl(low) << 5) | (Present(low) << 7)
    ensures Flags2(low) == LimitHigh(low) | (Available(low) << 4) | (LongMode(low) << 5)
                           | (DefaultBig(low) << 6) | (Granularity(low) << 7)
  {
  }

  // VMX_GDTENTRY64 as a value.
  datatype Entry = Entry(base: bv64, limit: bv32, accessRights: bv32, selector: bv16)

  const ZERO_ENTRY := Entry(0, 0, 0, 0)
  const UNUSABLE: bv32 := 0x1_0000

  // Assignments to single members of the AccessRights union.
  function WithFlags1(r: bv32, f: bv32): bv32 { (r & 0xFFFF_FF00) | f }
  function WithFlags2(r: bv32, f: bv32): bv32 { (r & 0xFFFF_00FF) | (f << 8) }
  function WithReservedClear(r: bv32): bv32 { r & 0xFFFF_F0FF }
  function WithUnusable(r: bv32, unusable: bool): bv32 { (r & 0xFFFE_FFFF) | (if unusable then UNUSABLE else 0) }

  // The table indicator bit sends a selector to the LDT.
  predicate IsNullOrLocal(selector: bv16) { selector == 0 || selector & 4 != 0 }

  function DescriptorAddress(gdtBase: bv64, selector: bv16): bv64 {
    gdtBase + Offset(selector)
  }

  function Offset(selector: bv16): bv64 { (selector & 0xFFF8) as bv64 }

  // The base assembled from the three pieces in 32-bit arithmetic, extended to 64 bits
  // without its sign, and then the upper half where the code adds it.
  function LowBase(low: bv64): bv64 {
    (((BaseHigh(low) as bv32) << 24) | ((BaseMiddle(low) as bv32) << 16) | (BaseLow(low) as bv32)) as bv64
  }

  function Widened(base: bv64, high: bv64): bv64 { base | (BaseUpper(high) << 32) }

  // The test on the descriptor's type bits.
  predicate IsWidened(low: bv64) { TypeBits(low) & 0x10 != 0 }

  function TranslatedBase(low: bv64, high: bv64): bv64 {
    if IsWidened(low) then Widened(LowBase(low), high) else LowBase(low)
  }

  function TranslatedRights(low: bv64): bv32 {
    ((((Flags1(low) as bv32) | ((Flags2(low) as bv32) << 8)) & 0xF0FF)) | (if Present(low) == 0 then UNUSABLE else 0)
  }

  function Translate(was: Entry, gdtBase: bv64, memory: Memory, limit: bv32, selector: bv16): Entry {
    if gdtBase == 0 then was
    else if IsNullOrLocal(selector) then
      Entry(0, was.limit, WithUnusable(was.accessRights, true), 0)
    else
      var d := memory(DescriptorAddress(gdtBase, selector));
      Entry(TranslatedBase(d.low, d.high), limit, TranslatedRights(d.low), selector)
  }

  class VmxGdtEntry {
    var Base: bv64
    var Limit: bv32
    var AccessRights: bv32
    var Selector: bv16

    function Value(): Entry
      reads this
    {
      Entry(Base, Limit, AccessRights, Selector)
    }

    method SetFlags1(f: bv32)
      modifies this`AccessRights
      ensures AccessRights == WithFlags1(old(AccessRights), f)
    {
      AccessRights := (AccessRights & 0xFFFF_FF00) | f;
    }

    method SetFlags2(f: bv32)
      modifies this`AccessRights
      ensures AccessRights == WithFlags2(old(AccessRights), f)
    {
      AccessRights := (AccessRights & 0xFFFF_00FF) | (f << 8);
    }

    method ClearReserved()
      modifies this`AccessRights
      ensures AccessRights == WithReservedClear(old(AccessRights))
    {
      AccessRights := AccessRights & 0xFFFF_F0FF;
    }

    method SetUnusable(unusable: bool)
      modifies this`AccessRights
      ensures AccessRights == WithUnusable(old(AccessRights), unusable)
    {
      AccessRights := (AccessRights & 0xFFFE_FFFF) | (if unusable then UNUSABLE else 0);
    }

    method SetBase(low: bv64, high: bv64)
      modifies this`Base
      ensures Base == TranslatedBase(low, high)
    {
      Base := LowBase(low);
      if IsWidened(low) {
        Base := Widened(Base, high);
      }
    }

    method SetAccessRights(low: bv64)
      modifies this`AccessRights
      ensures AccessRights == TranslatedRights(low)
    {
      AccessRights := 0;
      SetFlags1(Flags1(low) as bv32);
      SetFlags2(Flags2(low) as bv32);
      ClearReserved();
      SetUnusable(Present(low) == 0);
      AssignedRights(low);
    }

    // The zeroed entries of `VMX_SELECTORS vmxSelectors = { 0 }`.
    constructor ()
      ensures Value() == ZERO_ENTRY
    {
      Base, Limit, AccessRights, Selector := 0, 0, 0, 0;
    }
  }

  /** `GetVmxGdtEntry`; `limit` is what `__segmentlimit` reports for the selector. */
  method GetVmxGdtEntry(gdtBase: bv64, memory: Memory, limit: bv32, selector: bv16, entry: VmxGdtEntry)
    returns (status: int)
    modifies entry
    ensures entry.Value() == Translate(old(entry.Value()), gdtBase, memory, limit, selector)
    ensures status == if gdtBase == 0 then STATUS_INVALID_PARAMETER else STATUS_SUCCESS
  {
    if gdtBase == 0 {
      return STATUS_INVALID_PARAMETER;
    }
    if selector == 0 || selector & 4 != 0 {
      entry.Base := 0;
      entry.Selector := 0;
      entry.SetUnusable(true);
      return STATUS_SUCCESS;
    }
    var d := memory(DescriptorAddress(gdtBase, selector));
    entry.Selector := selector;
    entry.Limit := limit;
    entry.SetBase(d.low, d.high);
    entry.SetAccessRights(d.low);
    return STATUS_SUCCESS;
  }

  lemma AssignedRights(low: bv64)
    ensures WithUnusable(WithReservedClear(WithFlags2(WithFlags1(0, Flags1(low) as bv32), Flags2(low) as bv32)),
                         Present(low) == 0)
            == TranslatedRights(low)
  {
  }

  // Bits 31:0 of a base, as two contiguous pieces of DataLow.
  function Base32(low: bv64): bv64 { ((low >> 16) & 0xFF_FFFF) | ((low >> 32) & 0xFF00_0000) }

  // The base of section 3.5.2 of the Intel SDM: a system descriptor (S clear) is sixteen
  // bytes long and has a 64-bit base, a code or data descriptor eight and a 32-bit base.
  function ArchitecturalBase(low: bv64, high: bv64): bv64 {
    if (low >> 44) & 1 == 0 then Base32(low) | (high << 32) else Base32(low)
  }

  lemma LowHalfOfCode(low: bv64, high: bv64)
    requires IsWidened(low)
    ensures TranslatedBase(low, high) & 0xFFFF_FFFF == ArchitecturalBase(low, high) & 0xFFFF_FFFF
  {
  }

  lemma LowHalfOfSystem(low: bv64, high: bv64)
    requires !IsWidened(low)
    ensures TranslatedBase(low, high) & 0xFFFF_FFFF == ArchitecturalBase(low, high) & 0xFFFF_FFFF
  {
  }

  /** The low half of the base is always the architectural one, whatever the sign bit
      of BaseHigh. */
  lemma LowBaseIsArchitectural(low: bv64, high: bv64)
    ensures TranslatedBase(low, high) & 0xFFFF_FFFF == ArchitecturalBase(low, high) & 0xFFFF_FFFF
  {
    if IsWidened(low) { LowHalfOfCode(low, high); } else { LowHalfOfSystem(low, high); }
  }

  /** The base the code computes, for either class of descriptor: the upper half is added where
      the S bit is set. */
  lemma BaseByClass(low: bv64, high: bv64)
    ensures TranslatedBase(low, high) == if (low >> 44) & 1 == 0 then Base32(low) else Base32(low) | (high << 32)
  {
    if IsWidened(low) { BaseOfCode(low, high); } else { BaseOfSystem(low, high); }
  }

  lemma BaseOfCode(low: bv64, high: bv64)
    requires IsWidened(low)
    ensures (low >> 44) & 1 != 0 && TranslatedBase(low, high) == Base32(low) | (high << 32)
  {
  }

  lemma BaseOfSystem(low: bv64, high: bv64)
    requires !IsWidened(low)
    ensures (low >> 44) & 1 == 0 && TranslatedBase(low, high) == Base32(low)
  {
  }

  lemma RightBaseOfCode(low: bv64, high: bv64)
    requires IsWidened(low) && BaseUpper(high) == 0
    ensures TranslatedBase(low, high) == ArchitecturalBase(low, high)
  {
  }

  lemma RightBaseOfSystem(low: bv64, high: bv64)
    requires !IsWidened(low) && BaseUpper(high) == 0
    ensures TranslatedBase(low, high) == ArchitecturalBase(low, high)
  {
  }

  lemma WrongBase(low: bv64, high: bv64)
    requires BaseUpper(high) != 0
    ensures TranslatedBase(low, high) != ArchitecturalBase(low, high)
  {
  }

  /** The widening test is taken for the wrong class of descriptors, so the whole base
      is right exactly when there is nothing to widen with. */
  lemma BaseIsArchitecturalIff(low: bv64, high: bv64)
    ensures TranslatedBase(low, high) == ArchitecturalBase(low, high) <==> BaseUpper(high) == 0
  {
    if BaseUpper(high) != 0 {
      WrongBase(low, high);
    } else if IsWidened(low) {
      RightBaseOfCode(low, high);
    } else {
      RightBaseOfSystem(low, high);
    }
  }

  lemma UpperHalves(high: bv64)
    ensures BaseUpper(high) == 0 <==> LimitLow(high) == 0 && BaseLow(high) == 0
  {
  }

  /** A code or data descriptor is eight bytes long, so what the code takes for its BaseUpper
      is the start of the next entry of the GDT: the base is right exactly when LimitLow and
      BaseLow of that entry are zero. */
  lemma NextEntryDecides(memory: Memory, a: bv64)
    requires memory(a).high == memory(a + 8).low
    ensures var d, next := memory(a), memory(a + 8).low;
      TranslatedBase(d.low, d.high) == ArchitecturalBase(d.low, d.high) <==> LimitLow(next) == 0 && BaseLow(next) == 0
  {
    BaseIsArchitecturalIff(memory(a).low, memory(a).high);
    UpperHalves(memory(a).high);
  }

  // The access-rights format of section 24.4.1 of the Intel SDM, from the bit view.
  function ArchitecturalRights(low: bv64): bv64 {
    TypeBits(low) | (Dpl(low) << 5) | (Present(low) << 7)
    | (Available(low) << 12) | (LongMode(low) << 13) | (DefaultBig(low) << 14) | (Granularity(low) << 15)
    | ((1 - Present(low)) << 16)
  }

  /** The access rights are the architectural ones: every attribute bit is kept, the
      reserved bits are clear, and the entry is unusable when it is not present. */
  lemma RightsAreArchitectural(low: bv64)
    ensures TranslatedRights(low) as bv64 == ArchitecturalRights(low)
    ensures TranslatedRights(low) & 0xFFFE_0F00 == 0
    ensures TranslatedRights(low) & UNUSABLE == 0 <==> Present(low) == 1
  {
  }

  // The selector the host-state area is given.
  function HostSelector(selector: bv16): bv16 { selector & 0xFFF8 }

  function Index(selector: bv16): bv16 { selector >> 3 }

  /** A null or LDT selector becomes a zero, unusable entry; any other is kept, and its
      descriptor is read at eight times its index. */
  lemma GuestSelector(gdtBase: bv64, memory: Memory, limit: bv32, selector: bv16)
    requires gdtBase != 0
    ensures var e, d := Translate(ZERO_ENTRY, gdtBase, memory, limit, selector), memory(gdtBase + Offset(selector));
      if IsNullOrLocal(selector) then e == Entry(0, 0, UNUSABLE, 0)
      else e == Entry(TranslatedBase(d.low, d.high), limit, TranslatedRights(d.low), selector)
    ensures Offset(selector) == (Index(selector) as bv64) << 3
  {
    OffsetBits(selector);
    if IsNullOrLocal(selector) {
      assert WithUnusable(0, true) == UNUSABLE;
    }
  }

  lemma OffsetBits(s: bv16)
    ensures (s & 0xFFF8) as bv64 == ((s >> 3) as bv64) << 3
  {
  }

  /** A host selector has RPL and TI clear and the index of its guest selector, and it is
      null exactly when that index is 0 (section 26.2.3 of the Intel SDM). */
  lemma HostSelectorFits(s: bv16)
    ensures HostSelector(s) & 7 == 0
    ensures Index(HostSelector(s)) == Index(s)
    ensures HostSelector(s) == 0 <==> Index(s) == 0
  {
  }

  /** The host CS and TR selectors must not be null: that holds exactly for a selector
      into the GDT whose index is not 0. */
  lemma HostSelectorNullIff(gdtBase: bv64, memory: Memory, limit: bv32, selector: bv16)
    requires gdtBase != 0
    ensures HostSelector(Translate(ZERO_ENTRY, gdtBase, memory, limit, selector).selector) != 0
            <==> selector & 4 == 0 && Index(selector) != 0
  {
    HostSelectorFits(selector);
  }
}
