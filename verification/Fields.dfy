// hv/include/arch/vmcs.h: how a VMCS field is named by a 32-bit encoding, and the
// table of encodings (Appendix B of the Intel SDM, volume 3).
module Fields {

  // ENCODING_ACCESS_TYPE, ENCODING_TYPE and ENCODING_WIDTH
  datatype Access = Full | High {
    function Code(): nat { if Full? then 0 else 1 }
  }
  datatype FieldType = Control | ExitInfo | GuestState | HostState {
    function Code(): nat { match this case Control => 0 case ExitInfo => 1 case GuestState => 2 case HostState => 3 }
  }
  datatype Width = Word | QWord | DWord | Natural {
    function Code(): nat { match this case Word => 0 case QWord => 1 case DWord => 2 case Natural => 3 }
  }

  datatype Component = Component(access: Access, index: nat, typ: FieldType, width: Width) {
    // The range section 24.11.2 of the Intel SDM gives the index.
    predicate InRange() { index < 512 }
  }

  function Full16(index: nat, typ: FieldType): Component { Component(Full, index, typ, Word) }
  function Full32(index: nat, typ: FieldType): Component { Component(Full, index, typ, DWord) }
  function Full64(index: nat, typ: FieldType): Component { Component(Full, index, typ, QWord) }
  function High64(index: nat, typ: FieldType): Component { Component(High, index, typ, QWord) }
  function FullNatural(index: nat, typ: FieldType): Component { Component(Full, index, typ, Natural) }

  // VMCS_COMPONENT_ENCODING: the arguments are truncated to 16 bits and then shifted as
  // 32-bit integers.
  function Macro(access: bv16, index: bv16, typ: bv16, width: bv16): bv32 {
    (access as bv32) | ((index as bv32) << 1) | ((typ as bv32) << 10) | ((width as bv32) << 13)
  }

  // How the processor reads an encoding (section 24.11.2 of the Intel SDM).
  function AccessBits(f: bv32): bv32 { f & 1 }
  function IndexBits(f: bv32): bv32 { (f >> 1) & 0x1FF }
  function TypeBits(f: bv32): bv32 { (f >> 10) & 3 }
  function WidthBits(f: bv32): bv32 { (f >> 13) & 3 }

  /** For any four 16-bit macro arguments, the processor reads them back from the encoding
      exactly when they are in range. */
  lemma MacroRoundTrip(a: bv16, i: bv16, t: bv16, w: bv16)
    ensures (a < 2 && i < 512 && t < 4 && w < 4)
            <==> (AccessBits(Macro(a, i, t, w)) == a as bv32 && IndexBits(Macro(a, i, t, w)) == i as bv32
                  && TypeBits(Macro(a, i, t, w)) == t as bv32 && WidthBits(Macro(a, i, t, w)) == w as bv32)
  {
    if a < 2 && i < 512 && t < 4 && w < 4 {
      InRangeBits(a, i, t, w);
    } else {
      OutOfRangeBits(a, i, t, w);
    }
  }

  lemma InRangeBits(a: bv16, i: bv16, t: bv16, w: bv16)
    requires a < 2 && i < 512 && t < 4 && w < 4
    ensures Macro(a, i, t, w) & 1 == a as bv32
    ensures (Macro(a, i, t, w) >> 1) & 0x1FF == i as bv32
    ensures (Macro(a, i, t, w) >> 10) & 3 == t as bv32
    ensures (Macro(a, i, t, w) >> 13) & 3 == w as bv32
  {
  }

  lemma OutOfRangeBits(a: bv16, i: bv16, t: bv16, w: bv16)
    requires a >= 2 || i >= 512 || t >= 4 || w >= 4
    ensures !((Macro(a, i, t, w) & 1 == a as bv32 && (Macro(a, i, t, w) >> 1) & 0x1FF == i as bv32
               && (Macro(a, i, t, w) >> 10) & 3 == t as bv32 && (Macro(a, i, t, w) >> 13) & 3 == w as bv32))
  {
  }

  /** In range the four parts do not overlap, so the macro's `|` is `+`; and bit 12 and
      bits 15 and up, which are reserved, stay clear. */
  lemma MacroIsSum(a: bv16, i: bv16, t: bv16, w: bv16)
    requires a < 2 && i < 512 && t < 4 && w < 4
    ensures Macro(a, i, t, w) == (a as bv32) + ((i as bv32) << 1) + ((t as bv32) << 10) + ((w as bv32) << 13)
    ensures Macro(a, i, t, w) & 0xFFFF_9000 == 0
  {
  }

  // The encoding of a field name, as the number that sum is.
  function Encode(c: Component): nat
    requires c.InRange()
  {
    c.access.Code() + 2 * c.index + 1024 * c.typ.Code() + 8192 * c.width.Code()
  }

  function AccessFrom(n: nat): Access { if n == 0 then Full else High }
  function TypeFrom(n: nat): FieldType {
    match n case 0 => Control case 1 => ExitInfo case 2 => GuestState case _ => HostState
  }
  function WidthFrom(n: nat): Width {
    match n case 0 => Word case 1 => QWord case 2 => DWord case _ => Natural
  }

  function Decode(f: nat): Component {
    var index, upper := (f / 2) % 512, (f / 2) / 512;
    Component(AccessFrom(f % 2), index, TypeFrom(upper % 4), WidthFrom((upper / 8) % 4))
  }

  // Bit 12 and bits 15 and up of an encoding.
  predicate ReservedClear(f: nat) {
    var upper := (f / 2) / 512;
    upper < 32 && (upper / 4) % 2 == 0
  }

  lemma Digits(a: nat, i: nat, upper: nat)
    requires a < 2 && i < 512
    ensures var f := a + 2 * (i + 512 * upper); f % 2 == a && (f / 2) % 512 == i && (f / 2) / 512 == upper
  {
    var f := a + 2 * (i + 512 * upper);
    assert f / 2 == i + 512 * upper;
  }

  // The parts of an encoding in as many bits as the processor reads, one after the other.
  lemma MacroIsPacked(a: bv1, i: bv9, t: bv2, w: bv2)
    ensures Macro(a as bv16, i as bv16, t as bv16, w as bv16)
            == (((w as bv15) << 13) | ((t as bv15) << 10) | ((i as bv15) << 1) | (a as bv15)) as bv32
  {
  }

  lemma PackedNumber(a: bv1, i: bv9, t: bv2, w: bv2)
    ensures (((w as bv15) << 13) | ((t as bv15) << 10) | ((i as bv15) << 1) | (a as bv15)) as nat
            == a as nat + 2 * (i as nat) + 1024 * (t as nat) + 8192 * (w as nat)
  {
  }

  lemma WideningKeeps(x: bv15)
    ensures x as bv32 as nat == x as nat
  {
  }

  lemma Small(a: bv1, i: bv9, t: bv2, w: bv2)
    ensures a as nat < 2 && i as nat < 512 && t as nat < 4 && w as nat < 4
  {
  }

  lemma EncodeSum(a: nat, i: nat, t: nat, w: nat)
    requires a < 2 && i < 512 && t < 4 && w < 4
    ensures Encode(Component(AccessFrom(a), i, TypeFrom(t), WidthFrom(w))) == a + 2 * i + 1024 * t + 8192 * w
  {
  }

  /** The macro computes that number, for every access, index, type and width in range. */
  lemma EncodeIsMacro(a: bv1, i: bv9, t: bv2, w: bv2)
    ensures var c := Component(AccessFrom(a as nat), i as nat, TypeFrom(t as nat), WidthFrom(w as nat));
      c.InRange() && Encode(c) == Macro(a as bv16, i as bv16, t as bv16, w as bv16) as nat
  {
    MacroIsPacked(a, i, t, w);
    PackedNumber(a, i, t, w);
    WideningKeeps(((w as bv15) << 13) | ((t as bv15) << 10) | ((i as bv15) << 1) | (a as bv15));
    Small(a, i, t, w);
    EncodeSum(a as nat, i as nat, t as nat, w as nat);
  }

  /** Decoding undoes encoding, so no two names in range share an encoding. */
  lemma DecodeEncode(c: Component)
    requires c.InRange()
    ensures Decode(Encode(c)) == c
    ensures ReservedClear(Encode(c))
  {
    var upper := c.typ.Code() + 8 * c.width.Code();
    Digits(c.access.Code(), c.index, upper);
    assert Encode(c) == c.access.Code() + 2 * (c.index + 512 * upper);
  }

  /** Encoding undoes decoding, of every number with clear reserved bits. */
  lemma EncodeDecode(f: nat)
    requires ReservedClear(f)
    ensures Decode(f).InRange() && Encode(Decode(f)) == f
  {
    var c, upper := Decode(f), (f / 2) / 512;
    assert c.access.Code() == f % 2 && c.index == (f / 2) % 512;
    assert c.typ.Code() == upper % 4 && c.width.Code() == upper / 8;
    assert upper == upper % 4 + 8 * (upper / 8);
  }

  /** A high access names the same field as the full access, one encoding further on. */
  lemma HighIsFullPlusOne(index: nat, typ: FieldType)
    requires index < 512
    ensures Encode(High64(index, typ)) == Encode(Full64(index, typ)) + 1
  {
  }

  // VMCS_FIELDS lists its names by width and type; this is the name at a position of one of
  // these groups.
  datatype Name = Name(width: Width, typ: FieldType, position: nat) {
    predicate InTable() { position < GroupSize(width, typ) }

    // The 64-bit groups alternate full and high names, the 32-bit guest group skips index
    // 22, and CR3_TARGET_VALUE_1 to 3 are all given index 5.
    function Parts(): Component {
      if width.QWord? then Component(if position % 2 == 0 then Full else High, position / 2, typ, QWord)
      else Component(Full, Index(), typ, width)
    }

    function Index(): nat {
      if width.DWord? && typ.GuestState? && position == 22 then 23
      else if width.Natural? && typ.Control? && position > 5 then 5
      else position
    }

    predicate IsCr3Alias() { width.Natural? && typ.Control? && position >= 5 }
  }

  function GroupSize(width: Width, typ: FieldType): nat {
    match (width, typ)
    case (Word, Control) => 3
    case (Word, GuestState) => 10
    case (Word, HostState) => 7
    case (DWord, Control) => 18
    case (DWord, ExitInfo) => 8
    case (DWord, GuestState) => 23
    case (DWord, HostState) => 1
    case (QWord, Control) => 52
    case (QWord, ExitInfo) => 2
    case (QWord, GuestState) => 22
    case (QWord, HostState) => 6
    case (Natural, Control) => 8
    case (Natural, ExitInfo) => 6
    case (Natural, GuestState) => 23
    case (Natural, HostState) => 15
    case _ => 0
  }

  /** The table has 204 names in all, and these are the encodings of the last of each group. */
  lemma TableByNumber()
    ensures Total([Word, QWord, DWord, Natural], 4) == 204
    ensures EncodedAs(Last(Word, Control), 0x0004) && EncodedAs(Last(Word, GuestState), 0x0812)
    ensures EncodedAs(Last(Word, HostState), 0x0C0C)
    ensures EncodedAs(Last(DWord, Control), 0x4022) && EncodedAs(Last(DWord, ExitInfo), 0x440E)
    ensures EncodedAs(Last(DWord, GuestState), 0x482E) && EncodedAs(Last(DWord, HostState), 0x4C00)
    ensures EncodedAs(Last(QWord, Control), 0x2033) && EncodedAs(Last(QWord, ExitInfo), 0x2401)
    ensures EncodedAs(Last(QWord, GuestState), 0x2815) && EncodedAs(Last(QWord, HostState), 0x2C05)
    ensures EncodedAs(Last(Natural, Control), 0x600A) && EncodedAs(Last(Natural, ExitInfo), 0x640A)
    ensures EncodedAs(Last(Natural, GuestState), 0x682C) && EncodedAs(Last(Natural, HostState), 0x6C1C)
  {
  }

  function Last(width: Width, typ: FieldType): Component
    requires GroupSize(width, typ) > 0
  {
    Name(width, typ, GroupSize(width, typ) - 1).Parts()
  }

  function Total(ws: seq<Width>, k: nat): nat
    requires k <= |ws|
  {
    if k == 0 then 0
    else
      var w := ws[k - 1];
      Total(ws, k - 1) + GroupSize(w, Control) + GroupSize(w, ExitInfo)
      + GroupSize(w, GuestState) + GroupSize(w, HostState)
  }

  /** No two names of the table have the same encoding, but for CR3_TARGET_VALUE_1 to 3. */
  lemma NamesDistinct(m: Name, n: Name)
    requires m.InTable() && n.InTable()
    ensures m.Parts().InRange() && n.Parts().InRange()
    ensures Encode(m.Parts()) == Encode(n.Parts()) <==> m == n || (m.IsCr3Alias() && n.IsCr3Alias())
  {
    DecodeEncode(m.Parts());
    DecodeEncode(n.Parts());
  }

  // The names of VMCS_FIELDS that the driver reads or writes.
  const GUEST_ES_SELECTOR := Full16(0, GuestState)
  const GUEST_CS_SELECTOR := Full16(1, GuestState)
  const GUEST_SS_SELECTOR := Full16(2, GuestState)
  const GUEST_DS_SELECTOR := Full16(3, GuestState)
  const GUEST_FS_SELECTOR := Full16(4, GuestState)
  const GUEST_GS_SELECTOR := Full16(5, GuestState)
  const GUEST_LDTR_SELECTOR := Full16(6, GuestState)
  const GUEST_TR_SELECTOR := Full16(7, GuestState)
  const HOST_ES_SELECTOR := Full16(0, HostState)
  const HOST_CS_SELECTOR := Full16(1, HostState)
  const HOST_SS_SELECTOR := Full16(2, HostState)
  const HOST_DS_SELECTOR := Full16(3, HostState)
  const HOST_FS_SELECTOR := Full16(4, HostState)
  const HOST_GS_SELECTOR := Full16(5, HostState)
  const HOST_TR_SELECTOR := Full16(6, HostState)
  const PIN_BASED_VM_EXECUTION_CTLS := Full32(0, Control)
  const PRIMARY_PROC_BASED_VM_EXECUTION_CTLS := Full32(1, Control)
  const VM_EXIT_CTLS := Full32(6, Control)
  const VM_ENTRY_CTLS := Full32(9, Control)
  const SECONDARY_PROC_BASED_VM_EXECUTION_CTLS := Full32(15, Control)
  const VM_INSTRUCTION_ERR := Full32(0, ExitInfo)
  const EXIT_REASON := Full32(1, ExitInfo)
  const VM_EXIT_INSTRUCTION_LEN := Full32(6, ExitInfo)
  const GUEST_ES_LIMIT := Full32(0, GuestState)
  const GUEST_CS_LIMIT := Full32(1, GuestState)
  const GUEST_SS_LIMIT := Full32(2, GuestState)
  const GUEST_DS_LIMIT := Full32(3, GuestState)
  const GUEST_FS_LIMIT := Full32(4, GuestState)
  const GUEST_GS_LIMIT := Full32(5, GuestState)
  const GUEST_LDTR_LIMIT := Full32(6, GuestState)
  const GUEST_TR_LIMIT := Full32(7, GuestState)
  const GUEST_GDTR_LIMIT := Full32(8, GuestState)
  const GUEST_IDTR_LIMIT := Full32(9, GuestState)
  const GUEST_ES_ACCESS_RIGHTS := Full32(10, GuestState)
  const GUEST_CS_ACCESS_RIGHTS := Full32(11, GuestState)
  const GUEST_SS_ACCESS_RIGHTS := Full32(12, GuestState)
  const GUEST_DS_ACCESS_RIGHTS := Full32(13, GuestState)
  const GUEST_FS_ACCESS_RIGHTS := Full32(14, GuestState)
  const GUEST_GS_ACCESS_RIGHTS := Full32(15, GuestState)
  const GUEST_LDTR_ACCESS_RIGHTS := Full32(16, GuestState)
  const GUEST_TR_ACCESS_RIGHTS := Full32(17, GuestState)
  const GUEST_INTERRUPTIBILITY_STATE := Full32(18, GuestState)
  const GUEST_ACTIVITY_STATE := Full32(19, GuestState)
  const GUEST_IA32_SYSENTER_CS := Full32(21, GuestState)
  const HOST_IA32_SYSENTER_CS := Full32(0, HostState)
  const VMCS_LINK_POINTER := Full64(0, GuestState)
  const GUEST_IA32_DEBUGCTL := Full64(1, GuestState)
  const GUEST_IA32_DEBUGCTL_HIGH := High64(1, GuestState)
  const CR0_READ_SHADOW := FullNatural(2, Control)
  const CR4_READ_SHADOW := FullNatural(3, Control)
  const EXIT_QUALIFICATION := FullNatural(0, ExitInfo)
  const GUEST_CR0 := FullNatural(0, GuestState)
  const GUEST_CR3 := FullNatural(1, GuestState)
  const GUEST_CR4 := FullNatural(2, GuestState)
  const GUEST_ES_BASE := FullNatural(3, GuestState)
  const GUEST_CS_BASE := FullNatural(4, GuestState)
  const GUEST_SS_BASE := FullNatural(5, GuestState)
  const GUEST_DS_BASE := FullNatural(6, GuestState)
  const GUEST_FS_BASE := FullNatural(7, GuestState)
  const GUEST_GS_BASE := FullNatural(8, GuestState)
  const GUEST_LDTR_BASE := FullNatural(9, GuestState)
  const GUEST_TR_BASE := FullNatural(10, GuestState)
  const GUEST_GDTR_BASE := FullNatural(11, GuestState)
  const GUEST_IDTR_BASE := FullNatural(12, GuestState)
  const GUEST_DR7 := FullNatural(13, GuestState)
  const GUEST_RSP := FullNatural(14, GuestState)
  const GUEST_RIP := FullNatural(15, GuestState)
  const GUEST_RFLAGS := FullNatural(16, GuestState)
  const GUEST_IA32_SYSENTER_ESP := FullNatural(18, GuestState)
  const GUEST_IA32_SYSENTER_EIP := FullNatural(19, GuestState)
  const HOST_CR0 := FullNatural(0, HostState)
  const HOST_CR3 := FullNatural(1, HostState)
  const HOST_CR4 := FullNatural(2, HostState)
  const HOST_FS_BASE := FullNatural(3, HostState)
  const HOST_GS_BASE := FullNatural(4, HostState)
  const HOST_TR_BASE := FullNatural(5, HostState)
  const HOST_GDTR_BASE := FullNatural(6, HostState)
  const HOST_IDTR_BASE := FullNatural(7, HostState)
  const HOST_IA32_SYSENTER_ESP := FullNatural(8, HostState)
  const HOST_IA32_SYSENTER_EIP := FullNatural(9, HostState)
  const HOST_RSP := FullNatural(10, HostState)
  const HOST_RIP := FullNatural(11, HostState)

  // f is in range and its encoding is n.
  predicate EncodedAs(f: Component, n: nat) { f.InRange() && Encode(f) == n }

  /** The encodings appendix B of the Intel SDM gives the driver's names: selectors. */
  lemma SelectorEncodings()
    ensures && EncodedAs(GUEST_ES_SELECTOR, 0x0800) && EncodedAs(GUEST_CS_SELECTOR, 0x0802)
            && EncodedAs(GUEST_SS_SELECTOR, 0x0804) && EncodedAs(GUEST_DS_SELECTOR, 0x0806)
            && EncodedAs(GUEST_FS_SELECTOR, 0x0808) && EncodedAs(GUEST_GS_SELECTOR, 0x080A)
            && EncodedAs(GUEST_LDTR_SELECTOR, 0x080C) && EncodedAs(GUEST_TR_SELECTOR, 0x080E)
    ensures && EncodedAs(HOST_ES_SELECTOR, 0x0C00) && EncodedAs(HOST_CS_SELECTOR, 0x0C02)
            && EncodedAs(HOST_SS_SELECTOR, 0x0C04) && EncodedAs(HOST_DS_SELECTOR, 0x0C06)
            && EncodedAs(HOST_FS_SELECTOR, 0x0C08) && EncodedAs(HOST_GS_SELECTOR, 0x0C0A)
            && EncodedAs(HOST_TR_SELECTOR, 0x0C0C)
  {
  }

  /** The encodings appendix B of the Intel SDM gives the driver's names: controls and
      exit information. */
  lemma ControlEncodings()
    ensures && EncodedAs(PIN_BASED_VM_EXECUTION_CTLS, 0x4000)
            && EncodedAs(PRIMARY_PROC_BASED_VM_EXECUTION_CTLS, 0x4002) && EncodedAs(VM_EXIT_CTLS, 0x400C)
            && EncodedAs(VM_ENTRY_CTLS, 0x4012) && EncodedAs(SECONDARY_PROC_BASED_VM_EXECUTION_CTLS, 0x401E)
    ensures && EncodedAs(VM_INSTRUCTION_ERR, 0x4400) && EncodedAs(EXIT_REASON, 0x4402)
            && EncodedAs(VM_EXIT_INSTRUCTION_LEN, 0x440C)
    ensures EncodedAs(CR0_READ_SHADOW, 0x6004) && EncodedAs(CR4_READ_SHADOW, 0x6006)
    ensures EncodedAs(EXIT_QUALIFICATION, 0x6400)
  {
  }

  /** The encodings appendix B of the Intel SDM gives the driver's names: guest state but
      for selectors. */
  lemma GuestEncodings()
    ensures && EncodedAs(GUEST_ES_LIMIT, 0x4800) && EncodedAs(GUEST_CS_LIMIT, 0x4802)
            && EncodedAs(GUEST_SS_LIMIT, 0x4804) && EncodedAs(GUEST_DS_LIMIT, 0x4806)
            && EncodedAs(GUEST_FS_LIMIT, 0x4808) && EncodedAs(GUEST_GS_LIMIT, 0x480A)
            && EncodedAs(GUEST_LDTR_LIMIT, 0x480C) && EncodedAs(GUEST_TR_LIMIT, 0x480E)
            && EncodedAs(GUEST_GDTR_LIMIT, 0x4810) && EncodedAs(GUEST_IDTR_LIMIT, 0x4812)
            && EncodedAs(GUEST_ES_ACCESS_RIGHTS, 0x4814) && EncodedAs(GUEST_CS_ACCESS_RIGHTS, 0x4816)
            && EncodedAs(GUEST_SS_ACCESS_RIGHTS, 0x4818) && EncodedAs(GUEST_DS_ACCESS_RIGHTS, 0x481A)
            && EncodedAs(GUEST_FS_ACCESS_RIGHTS, 0x481C) && EncodedAs(GUEST_GS_ACCESS_RIGHTS, 0x481E)
            && EncodedAs(GUEST_LDTR_ACCESS_RIGHTS, 0x4820) && EncodedAs(GUEST_TR_ACCESS_RIGHTS, 0x4822)
            && EncodedAs(GUEST_INTERRUPTIBILITY_STATE, 0x4824) && EncodedAs(GUEST_ACTIVITY_STATE, 0x4826)
            && EncodedAs(GUEST_IA32_SYSENTER_CS, 0x482A)
    ensures && EncodedAs(VMCS_LINK_POINTER, 0x2800) && EncodedAs(GUEST_IA32_DEBUGCTL, 0x2802)
            && EncodedAs(GUEST_IA32_DEBUGCTL_HIGH, 0x2803)
    ensures && EncodedAs(GUEST_CR0, 0x6800) && EncodedAs(GUEST_CR3, 0x6802) && EncodedAs(GUEST_CR4, 0x6804)
            && EncodedAs(GUEST_ES_BASE, 0x6806) && EncodedAs(GUEST_CS_BASE, 0x6808)
            && EncodedAs(GUEST_SS_BASE, 0x680A) && EncodedAs(GUEST_DS_BASE, 0x680C)
            && EncodedAs(GUEST_FS_BASE, 0x680E) && EncodedAs(GUEST_GS_BASE, 0x6810)
            && EncodedAs(GUEST_LDTR_BASE, 0x6812) && EncodedAs(GUEST_TR_BASE, 0x6814)
            && EncodedAs(GUEST_GDTR_BASE, 0x6816) && EncodedAs(GUEST_IDTR_BASE, 0x6818)
            && EncodedAs(GUEST_DR7, 0x681A) && EncodedAs(GUEST_RSP, 0x681C) && EncodedAs(GUEST_RIP, 0x681E)
            && EncodedAs(GUEST_RFLAGS, 0x6820) && EncodedAs(GUEST_IA32_SYSENTER_ESP, 0x6824)
            && EncodedAs(GUEST_IA32_SYSENTER_EIP, 0x6826)
  {
  }

  /** The encodings appendix B of the Intel SDM gives the driver's names: host state but
      for selectors. */
  lemma HostEncodings()
    ensures EncodedAs(HOST_IA32_SYSENTER_CS, 0x4C00)
    ensures && EncodedAs(HOST_CR0, 0x6C00) && EncodedAs(HOST_CR3, 0x6C02) && EncodedAs(HOST_CR4, 0x6C04)
            && EncodedAs(HOST_FS_BASE, 0x6C06) && EncodedAs(HOST_GS_BASE, 0x6C08) && EncodedAs(HOST_TR_BASE, 0x6C0A)
            && EncodedAs(HOST_GDTR_BASE, 0x6C0C) && EncodedAs(HOST_IDTR_BASE, 0x6C0E)
            && EncodedAs(HOST_IA32_SYSENTER_ESP, 0x6C10) && EncodedAs(HOST_IA32_SYSENTER_EIP, 0x6C12)
            && EncodedAs(HOST_RSP, 0x6C14) && EncodedAs(HOST_RIP, 0x6C16)
  {
  }
}
