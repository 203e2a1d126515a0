// VM exits: `VmExitHandler` and `MoveInstructionPointer` of hv/src/vmexit.c, one exit and
// whole runs of exits. Field contents are numbers here, since the handler adds them.
module VmExit {
  import opened Power
  import opened Fields
  import opened VmcsStore
  import StateArea

  type Word = w: int | 0 <= w < TWO_64

  // A VMCS by the values of its full fields.
  type Values = map<Field, Word>

  // The fields an exit is handled by.
  predicate HasExitFields(v: Values) {
    && FieldOf(GUEST_RIP) in v && FieldOf(EXIT_REASON) in v
    && FieldOf(EXIT_QUALIFICATION) in v && FieldOf(VM_EXIT_INSTRUCTION_LEN) in v
  }

  function Rip(v: Values): Word
    requires HasExitFields(v)
  {
    v[FieldOf(GUEST_RIP)]
  }

  // The branches of the switch, and the one taken for the contents of the exit-reason field.
  datatype Branch = VmxInstruction | Hlt | Breakpoint

  function BranchOf(reason: Word): Branch {
    var basic := reason % 0x1_0000;
    if 19 <= basic <= 27 then VmxInstruction else if basic == 12 then Hlt else Breakpoint
  }

  /** Only bits 15:0 of the exit reason matter. A basic reason other than 12 and 19 to 27, which
      are HLT and the VMX instructions from VMCLEAR to VMXON, reaches the breakpoint. */
  lemma BranchByNumber(reason: Word)
    ensures BranchOf(reason) == BranchOf(reason % 0x1_0000)
    ensures BranchOf(reason).Breakpoint? <==>
              reason % 0x1_0000 !in {12, 19, 20, 21, 22, 23, 24, 25, 26, 27}
    ensures BranchOf(reason).Hlt? <==> reason % 0x1_0000 == 12
  {
  }

  // The VMCS once the handler is through with an exit.
  function Handled(v: Values): (r: Values)
    requires HasExitFields(v)
    ensures HasExitFields(r)
  {
    v[FieldOf(GUEST_RIP) := (Rip(v) + v[FieldOf(VM_EXIT_INSTRUCTION_LEN)]) % TWO_64]
  }

  const EXIT_REASON_HLT: Word := 12
  const EXIT_REASON_VMCLEAR: Word := 19
  const EXIT_REASON_VMLAUNCH: Word := 20
  const EXIT_REASON_VMPTRLD: Word := 21
  const EXIT_REASON_VMPTRST: Word := 22
  const EXIT_REASON_VMREAD: Word := 23
  const EXIT_REASON_VMRESUME: Word := 24
  const EXIT_REASON_VMWRITE: Word := 25
  const EXIT_REASON_VMXOFF: Word := 26
  const EXIT_REASON_VMXON: Word := 27

  class Handler {
    var vmcs: Values

    method VmRead(f: Component) returns (value: Word)
      requires FieldOf(f) in vmcs && f.access.Full?
      ensures value == vmcs[FieldOf(f)]
    {
      value := vmcs[FieldOf(f)];
    }

    method VmWrite(f: Component, value: Word)
      requires FieldOf(f) in vmcs && f.access.Full? && f.width.Natural? && !f.typ.ExitInfo?
      modifies this
      ensures vmcs == old(vmcs)[FieldOf(f) := value]
    {
      vmcs := vmcs[FieldOf(f) := value];
    }

    /** `MoveInstructionPointer` */
    method MoveInstructionPointer()
      requires HasExitFields(vmcs)
      modifies this
      ensures vmcs == Handled(old(vmcs))
    {
      var guestRip := VmRead(GUEST_RIP);
      var instrLen := VmRead(VM_EXIT_INSTRUCTION_LEN);
      VmWrite(GUEST_RIP, (guestRip + instrLen) % TWO_64);
    }

    /** `VmExitHandler`: the instruction pointer moves in every branch. */
    method VmExitHandler() returns (branch: Branch)
      requires HasExitFields(vmcs)
      modifies this
      ensures vmcs == Handled(old(vmcs))
      ensures branch == BranchOf(old(vmcs)[FieldOf(EXIT_REASON)])
    {
      var exitReason := VmRead(EXIT_REASON);
      exitReason := exitReason % 0x1_0000;
      var exitQualification := VmRead(EXIT_QUALIFICATION);
      if exitReason in {EXIT_REASON_VMCLEAR, EXIT_REASON_VMPTRLD, EXIT_REASON_VMPTRST, EXIT_REASON_VMREAD,
                        EXIT_REASON_VMRESUME, EXIT_REASON_VMWRITE, EXIT_REASON_VMXOFF, EXIT_REASON_VMXON,
                        EXIT_REASON_VMLAUNCH} {
        branch := VmxInstruction;
      } else if exitReason == EXIT_REASON_HLT {
        branch := Hlt;
      } else {
        branch := Breakpoint;
      }
      MoveInstructionPointer();
    }
  }

  // A VM exit as the processor reports it. `ran` is how far the guest's instruction pointer
  // moved, since it was resumed, to the instruction that exits.
  datatype Exit = Exit(ran: Word, reason: Word, qualification: Word, length: Word)

  // The processor saves RIP and fills in the exit information.
  function Delivered(v: Values, x: Exit): (r: Values)
    requires HasExitFields(v)
    ensures HasExitFields(r)
  {
    v[FieldOf(GUEST_RIP) := (Rip(v) + x.ran) % TWO_64]
     [FieldOf(EXIT_REASON) := x.reason]
     [FieldOf(EXIT_QUALIFICATION) := x.qualification]
     [FieldOf(VM_EXIT_INSTRUCTION_LEN) := x.length]
  }

  // The VMCS after a run of exits, each handled and the guest resumed.
  function AfterExits(v: Values, xs: seq<Exit>): (r: Values)
    requires HasExitFields(v)
    ensures HasExitFields(r)
  {
    if |xs| == 0 then v else Handled(Delivered(AfterExits(v, xs[..|xs| - 1]), xs[|xs| - 1]))
  }

  // How far a run of exits and their handling move RIP.
  function Total(xs: seq<Exit>): int {
    if |xs| == 0 then 0 else Total(xs[..|xs| - 1]) + xs[|xs| - 1].ran + xs[|xs| - 1].length
  }

  predicate ExitField(field: Field) {
    || field == FieldOf(GUEST_RIP) || field == FieldOf(EXIT_REASON)
    || field == FieldOf(EXIT_QUALIFICATION) || field == FieldOf(VM_EXIT_INSTRUCTION_LEN)
  }

  lemma ModAdd(a: int, b: int)
    ensures (a % TWO_64 + b) % TWO_64 == (a + b) % TWO_64
  {
    var q := a / TWO_64;
    assert a == q * TWO_64 + a % TWO_64;
    ModShift(a % TWO_64 + b, q);
  }

  lemma ModShift(x: int, q: int)
    ensures (x + q * TWO_64) % TWO_64 == x % TWO_64
  {
  }

  lemma OneExit(v: Values, x: Exit)
    requires HasExitFields(v)
    ensures Rip(Handled(Delivered(v, x))) == (Rip(v) + x.ran + x.length) % TWO_64
  {
    ModAdd(Rip(v) + x.ran, x.length);
  }

  /** For every sequence of exits, whatever their reasons, RIP ends at the initial RIP plus
      the sum of all advances modulo 2^64 ... */
  lemma {:induction false} RunMovesRip(v: Values, xs: seq<Exit>)
    requires HasExitFields(v)
    ensures Rip(AfterExits(v, xs)) == (Rip(v) + Total(xs)) % TWO_64
  {
    if |xs| > 0 {
      var front, x := xs[..|xs| - 1], xs[|xs| - 1];
      RunMovesRip(v, front);
      OneExit(AfterExits(v, front), x);
      ModAdd(Rip(v) + Total(front), x.ran + x.length);
    }
  }

  /** ... and no field but RIP and the exit information has changed. */
  lemma {:induction false} RunKeepsOthers(v: Values, xs: seq<Exit>, field: Field)
    requires HasExitFields(v) && !ExitField(field)
    ensures field in AfterExits(v, xs) <==> field in v
    ensures field in v ==> AfterExits(v, xs)[field] == v[field]
  {
    if |xs| > 0 { RunKeepsOthers(v, xs[..|xs| - 1], field); }
  }

  ghost predicate SameAdvances(xs: seq<Exit>, ys: seq<Exit>) {
    |xs| == |ys| && forall i :: 0 <= i < |xs| ==> xs[i].ran == ys[i].ran && xs[i].length == ys[i].length
  }

  /** So two runs whose exits differ only in reason and qualification leave the guest at the
      same instruction: no reason is treated specially. */
  lemma {:induction false} ReasonsDoNotMatter(v: Values, xs: seq<Exit>, ys: seq<Exit>)
    requires HasExitFields(v) && SameAdvances(xs, ys)
    ensures Rip(AfterExits(v, xs)) == Rip(AfterExits(v, ys))
  {
    if |xs| > 0 {
      var front, front' := xs[..|xs| - 1], ys[..|ys| - 1];
      ReasonsDoNotMatter(v, front, front');
      OneExit(AfterExits(v, front), xs[|xs| - 1]);
      OneExit(AfterExits(v, front'), ys[|ys| - 1]);
    }
  }

  // The numbers that the fields of a VMCS hold.
  function Number(c: Cell): Word { c.bits as int }

  ghost function Numbers(s: Store): Values {
    map field | field in s :: Number(s[field])
  }

  lemma WriteAgrees(s: Store, f: Component, c: Cell)
    requires FieldOf(f) in s && f.access.Full? && f.width.Natural? && !f.typ.ExitInfo?
    ensures Numbers(Put(s, Write(f, c))) == Numbers(s)[FieldOf(f) := Number(c)]
  {
  }

  lemma HandledWith(v: Values, n: Word)
    requires HasExitFields(v) && n == (Rip(v) + v[FieldOf(VM_EXIT_INSTRUCTION_LEN)]) % TWO_64
    ensures Handled(v) == v[FieldOf(GUEST_RIP) := n]
  {
  }

  /** The handler's step on numbers is the VMWRITE, to the VMCS itself, of the word whose number
      is the new RIP. */
  lemma HandledIsVmwrite(s: Store, c: Cell, v: Values)
    requires v == Numbers(s) && HasExitFields(v)
    requires Number(c) == (Rip(v) + v[FieldOf(VM_EXIT_INSTRUCTION_LEN)]) % TWO_64
    ensures Handled(v) == Numbers(Put(s, Write(GUEST_RIP, c)))
  {
    WriteAgrees(s, GUEST_RIP, c);
    HandledWith(v, Number(c));
  }

  /** So a guest launched from the VMCS that bring-up filled is, after any sequence of exits, as
      far past RestoreAfterLaunch as the sum of their advances. */
  lemma RunFromLaunch(s: Store, c: StateArea.Capture, cr4: Cell, rsp: Cell, xs: seq<Exit>)
    requires StateArea.HasEntryPoints(s) && HasExitFields(Numbers(Apply(s, StateArea.AllWrites(c, cr4, rsp))))
    ensures Rip(AfterExits(Numbers(Apply(s, StateArea.AllWrites(c, cr4, rsp))), xs))
            == (Number(c.restoreAfterLaunch) + Total(xs)) % TWO_64
  {
    StateArea.EntryPointsStored(s, c, cr4, rsp);
    RunMovesRip(Numbers(Apply(s, StateArea.AllWrites(c, cr4, rsp))), xs);
  }
}
