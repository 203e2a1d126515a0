# Verification model of the hv-n4r1b hypervisor driver

The driver turns a running Windows machine into a guest of a small Intel VT-x hypervisor. On `HvCreate` it visits every
processor in turn, enters VMX operation there, fills a VMCS from the processor's own state and executes VMLAUNCH; on
`HvClose` it leaves VMX operation and frees what it allocated. This project models that bring-up and teardown, the
functions they are built from, and the handling of VM exits, and proves what holds of every run.

## How the model is built

- `Machine.dfy` is the machine the driver acts on: processors (CR4, IA32_FEATURE_CONTROL, VMX mode and current VMCS),
  the contiguous heap, and the contents of its regions (zeroed, header, launch state, VMCS fields). Each action of the
  driver is an event. `Legal` is what the Intel SDM (volume 3) and the memory manager ask of an event, `Effect` what it
  does. After an event that is not legal the processor has faulted, or what happens next is not determined (the thread
  may be on any of several processors, say): a run is followed up to such an event and no further, and a theorem that
  says where a run stops means that. The outcome of every allocation and VMX instruction is part of the event, so
  theorems range over all outcomes.
- `BringUp.dfy` gives the trace of bring-up on one processor for each of its nine ways to end and proves the machine it
  leaves; `Runs.dfy` does the same for whole runs of `InitHv` on any number of processors; `Memory.dfy` and
  `Teardown.dfy` follow the heap, the regions and the `VmmState` slots through bring-up and teardown; `Close.dfy` joins
  the two and says how far `HvClose` gets after `HvCreate`.
- `Driver.dfy` is the driver itself: a class whose methods have the structure of the functions of `hv/src/vmx.c` and
  `hv/src/main.c` and act on the machine only by emitting events. Every method is proved to emit exactly its trace, so
  the theorems about traces are theorems about the methods. What the hardware shows the driver (CPUID, MSRs, control
  registers, selectors, the GDT, the results of instructions and allocations) is a parameter, `Env`.
- `Bits.dfy`: the bits the driver reads out of machine words, as digits of the number a word is. What the driver reads,
  computes and writes is stated in those numbers, in the encodings and the layout of the SDM and the headers, and not
  only by the functions that model it.
- `Util.dfy` (with `Power.dfy`): `ipow` in wrapping 32-bit arithmetic, and the affinity masks made with it.
- `Fields.dfy`, `VmcsStore.dfy`, `StateArea.dfy`: field encodings, the VMCS as a store with full and high access, and
  what the 78 VMWRITEs of `InitializeVMCS` leave in it, whatever VMCLEAR put there before.
- `Controls.dfy`: `AdjustControl` and the capability MSRs. `Selectors.dfy`: `GetVmxGdtEntry`.
- `Guests.dfy`: what bring-up and VM exits have to do with each other.
- `ExitStack.dfy`: HOST_RSP, the layout of `VP_DATA`, the stub a VM exit lands in, byte by byte, and how the handler
  looks for the guest's RCX. `VmExit.dfy`: the exit handler.
- `Witness.dfy`: concrete runs and inputs on either side of the conditions below.

Where the code differs from what its comments or the SDM intend, the model follows the code, and a theorem says exactly
when the difference shows:

- `InitHv` does not check that `VmmState` could be allocated, that a processor's index has an affinity mask of its own,
  nor IA32_FEATURE_CONTROL on any processor but the one it starts on. Its runs are legal at every step exactly when
  those three things are as it assumes (`Runs.InitSafe`); otherwise they are followed into the turn of the first
  processor they are not so for (`Runs.InitStops`). Failing inputs: `Witness.NullPoolIsIllegal`, `Witness.LegalUpTo32`,
  `Witness.UncheckedProcessorIsIllegal`.
- A mask `ipow(2, i)` is a 32-bit int, sign-extended to 64 bits. It selects processor `i` alone for `i <= 30`; for 31 it
  selects 31 and every later one, and for larger `i` none (`Util.MaskSelectsOnly`). So with up to 32 processors every
  index binds the thread to its own processor. With more, index 31 leaves it free to move among several
  (`Machine.PinMaskSelects`): the affinity call itself is legal then, but the CR4 write and VMXOFF that come next act on
  no particular processor, which the model counts as illegal.
- A failed VMCLEAR, second VMPTRLD or VMLAUNCH yields status 1 or 2, which `NT_SUCCESS` accepts, so the loop goes on and
  only the last processor's status is returned (`Runs.FailureOnlyOnBreak`). `HvCreate` returns success in any case.
- The path of a rejected VMLAUNCH executes VMXOFF already, and teardown executes it again on every processor. `HvClose`
  is legal, and gives all memory back, when every processor was left in root operation with a VMCS region; otherwise it
  stops at the first that was not, and what that processor and later ones obtained stays allocated
  (`Close.CloseOutcome`, `Close.TeardownConservesHeap`, `Close.TeardownLegalIff`). Failing input:
  `Witness.RejectedLaunchCannotClose`.
- `InitVmExecControl` adjusts the primary control word twice and the secondary word not at all. The primary word has
  been written before the second adjustment; the secondary word is legal exactly when its MSR admits the single RDTSCP
  bit (`StateArea.ControlsStored`, `StateArea.SecondaryLegalIff`). Failing input: `Witness.RdtscpNotAllowed`.
- `GetVmxGdtEntry` adds the upper half of the base when the S bit is 1, where the architecture has one when it is 0.
  The base is right exactly when that upper half is zero (`Selectors.BaseIsArchitecturalIff`): for code and data, when
  the next entry of the GDT starts with a zero limit and base (`Selectors.NextEntryDecides`). Failing input:
  `Witness.CodeBaseIsWrong`. For a task register it is wrong, for the guest and for the host, as soon as the TSS lies
  above 4 GB (`StateArea.TaskBasesIff`, `Witness.TaskBaseIsWrong`).
- `VmExitHandler` looks for the guest's RCX below `_ReturnAddress()`. The stub jumps to it, so the quadword at its RSP is
  not a return address but the saved RCX itself, and the handler reads the memory RCX points behind: the right value
  exactly when the bytes of RCX happen to be there (`ExitStack.RecoveredIff`). Failing input: `Witness.RcxIsLost`. If
  CaptureContext spills its argument, the handler finds the address of the CONTEXT (`ExitStack.SpilledArgument`).
- `VmExitHandler` moves RIP by the instruction length for every exit reason (`VmExit.ReasonsDoNotMatter`).

The theorems about runs assume of the environment what `Runs.Fits` says: no processor is in VMX operation at the start,
each shows the driver its own CR4 and IA32_VMX_BASIC, the allocator returns page-aligned memory that is not in use, and
the two address translations are inverse on it.
`Close.ZeroIsFree` says that the address physical address 0 translates to, which empty slots lead to, is not one of the
contiguous allocations. `Witness.dfy` has machines and environments that meet both. The registers and MSRs that fill a
VMCS are read once in the model (`StateArea.Capture`), where the source reads CR0, CR3 and most MSRs again for each
field: the model assumes that they do not change while one VMCS is filled.

## Model

| member | source | states |
|---|---|---|
| Util.Ipow | hv/src/util.c:26-47 | for every base and every non-negative exponent the result is the power, wrapped to 32 bits, and an intermediate product or square leaves the 32-bit range exactly when the power itself does |
| Util.MaskSelectsOnly | hv/src/main.c:104-105 | the affinity mask for index i selects processor i and no other exactly when i <= 30; index 31 selects 31 to 63, later ones nothing |
| Util.MasksPartition | hv/src/vmx.c:187-190 | the masks for n <= 31 processors are pairwise disjoint, select exactly the processors below n and sum to 2^n - 1 |
| Fields.MacroRoundTrip | hv/include/arch/vmcs.h:4-7 | the processor reads all four macro arguments back from an encoding exactly when they are in range |
| Fields.MacroIsSum | hv/include/arch/vmcs.h:4-7 | in range the four parts do not overlap, and the reserved bits are zero |
| Fields.EncodeIsMacro | hv/include/arch/vmcs.h:4-13 | the number the decoding theorems speak of is the one the macro computes, for every access, index, type and width in range |
| Fields.DecodeEncode | hv/include/arch/vmcs.h:4-13 | decoding undoes encoding, so encoding is injective |
| Fields.EncodeDecode | hv/include/arch/vmcs.h:4-13 | encoding undoes decoding of every number whose reserved bits are clear |
| Fields.HighIsFullPlusOne | hv/include/arch/vmcs.h:12-13 | the high name of a 64-bit field is its full name plus one |
| Fields.NamesDistinct | hv/include/arch/vmcs.h:53-292 | all names of the table have different encodings but for CR3_TARGET_VALUE_1 to 3 |
| Fields.TableByNumber | hv/include/arch/vmcs.h:53-292 | the table has 204 names, and the last of each group has the encoding of the SDM |
| Fields.SelectorEncodings | hv/include/arch/vmcs.h:53-292 | the encodings, by number, of the selector fields the driver writes |
| Fields.ControlEncodings | hv/include/arch/vmcs.h:53-292 | those of the control, shadow and exit-information fields |
| Fields.GuestEncodings | hv/include/arch/vmcs.h:53-292 | those of the other guest-state fields |
| Fields.HostEncodings | hv/include/arch/vmcs.h:53-292 | those of the other host-state fields |
| VmcsStore.TruncateByWidth | hv/include/arch/vmcs.h:44-50 | a 16-bit field takes the low 16 bits of an operand, a 32-bit field the low 32, any other all of it |
| VmcsStore.FieldIsLocal | hv/src/vmx.c:259-456 | what a field holds after any VMWRITEs depends on the writes to that field alone |
| VmcsStore.OrderIndependent | hv/src/vmx.c:259-456 | runs of VMWRITEs that agree on the order of the writes to each single field leave the same VMCS |
| VmcsStore.PermutationsAgree | hv/src/vmx.c:259-456 | VMWRITEs to pairwise distinct fields commute under every permutation |
| VmcsStore.LastWriteDecides | hv/src/vmx.c:259-456 | the last write to a field decides its contents, an earlier one only through the half a high access keeps |
| VmcsStore.PairWhole | hv/src/vmx.c:333-334 | in any sequence whose only writes to a field are its low half and then its high half, the field ends as the whole value |
| VmcsStore.FullThenHigh | hv/src/vmx.c:333-334 | full access to the low half, then high access to the high half, leaves the 64-bit value |
| VmcsStore.HighThenFull | hv/src/vmx.c:333-334 | the reverse order leaves only the low half, which is the value exactly when its high half is zero |
| Controls.AdjustControl | hv/src/vmx.c:207-256 | the word is adjusted in place by the capability MSR that its type and VmxCapabilityHint select, and left alone for an unknown type |
| Controls.MsrsAreNamed | hv/src/vmx.c:215-256 | that MSR, by member and type: the TRUE one of pin, primary, exit and entry controls exactly when the number of bit 55 of IA32_VMX_BASIC is odd |
| Controls.HalvesAreDefaults | hv/include/arch/vmx.h:222-229 | the bits a capability MSR forces are its number modulo 2^32, those it allows the quotient |
| Controls.AdjustLegal | hv/src/vmx.c:223-224 | the adjusted word is legal exactly when the MSR forces no bit it forbids |
| Controls.LegalNeedsConsistent | hv/include/arch/vmx.h:222-229 | otherwise no word is legal |
| Controls.AdjustKeeps | hv/src/vmx.c:223-224 | every allowed bit of the request is kept, and no bit is added that is not forced |
| Controls.AdjustFixesLegal | hv/src/vmx.c:223-224 | a request is left unchanged exactly when it is legal |
| Controls.AdjustIdempotent | hv/src/vmx.c:223-224 | adjusting twice is adjusting once |
| Controls.AdjustMonotone | hv/src/vmx.c:223-224 | a request with more bits is adjusted to a word with more bits |
| Controls.AdjustNearest | hv/src/vmx.c:223-224 | every other legal word differs from the request in strictly more bits |
| Selectors.ViewsAgree | hv/include/arch/selectors.h:19-41 | the byte view and the bit view of the flag bytes of a descriptor agree |
| Selectors.GetVmxGdtEntry | hv/src/util.c:49-95 | the output structure is the translation of its old value, and the status reports a null GDT base |
| Selectors.LowBaseIsArchitectural | hv/src/util.c:79-81 | the low 32 bits of the base are always those of section 3.5.2 of the Intel SDM |
| Selectors.BaseByClass | hv/src/util.c:79-85 | the base computed, for either class of descriptor and any upper half |
| Selectors.BaseIsArchitecturalIff | hv/src/util.c:79-85 | the 64-bit base is the architectural one exactly when BaseUpper is zero, for code, data and system descriptors alike |
| Selectors.NextEntryDecides | hv/include/arch/selectors.h:13-49 | the base of a code or data descriptor is right exactly when LimitLow and BaseLow of the next GDT entry are zero |
| Selectors.RightsAreArchitectural | hv/src/util.c:87-92 | the access rights are those of section 24.4.1 of the Intel SDM: attributes kept, reserved bits clear, unusable exactly when not present |
| Selectors.GuestSelector | hv/src/util.c:63-75 | a null or LDT selector becomes a zero, unusable entry; any other is kept and its descriptor read at eight times its index |
| Selectors.HostSelectorNullIff | hv/src/vmx.c:367-373 | the host selector made of a translated one is not null exactly for a GDT selector whose index is not 0 |
| StateArea.OnlyDebugCtlTwice | hv/src/vmx.c:259-456 | the 78 writes go to pairwise different fields but for the two DEBUGCTL halves |
| StateArea.WritesReadBack | hv/src/vmx.c:259-456 | after all 78 writes every full-access field but DEBUGCTL reads back what its writer gave it, truncated to its width |
| StateArea.DebugCtlWhole | hv/src/vmx.c:333-334 | GUEST_IA32_DEBUGCTL ends up as the whole 64-bit MSR |
| StateArea.WritersCommute | hv/src/vmx.c:498-510 | every permutation of the 78 writes that keeps the DEBUGCTL halves in order leaves the same VMCS |
| StateArea.EntryPointsStored | hv/src/vmx.c:278-364 | the VMCS enters the guest at RestoreAfterLaunch and exits to the stub on the stack given |
| StateArea.GuestSharesHostState | hv/src/vmx.c:270-385 | the ten natural-width host fields with a guest counterpart (CR0, CR3, CR4, FS, GS, TR, GDTR and IDTR bases, SYSENTER) hold the same value as it, the one the processor had |
| StateArea.RestStored | hv/src/vmx.c:270-425 | the remaining fields: guest RSP zero, active, unblocked, no linked VMCS, shadows equal to the real CR0 and CR4, DR7, RFLAGS, table limits and SYSENTER_CS those of the processor |
| StateArea.SegmentsStored | hv/src/vmx.c:283-322 | for every segment register, at its architectural field numbers, selector, limit, base and rights are the translation of its own selector, FS and GS bases coming from their MSRs |
| StateArea.GdtSegmentStored | hv/src/vmx.c:283-322 | for a selector into the GDT: the selector itself, the limit reported for it and the SDM access rights of its descriptor, each in its own field |
| StateArea.NullSegmentStored | hv/src/util.c:63-70 | for a null or LDT selector: zero selector, limit and base, and rights 0x10000 |
| StateArea.NoGdtSegmentStored | hv/src/util.c:57-60 | with a null GDT base: zero selector, limit and rights |
| StateArea.StoredBaseIsArchitecturalIff | hv/src/vmx.c:304-311 | the guest base stored for any segment register but FS and GS, whatever the class of its descriptor, is the architectural one exactly when BaseUpper is zero |
| StateArea.TaskBasesIff | hv/src/vmx.c:311-383 | GUEST_TR_BASE and HOST_TR_BASE agree, and are the architectural base exactly when BaseUpper is zero, that is for a TSS below 4 GB |
| StateArea.StoredBaseIff | hv/src/vmx.c:304-311 | for an eight-byte descriptor that is exactly when LimitLow and BaseLow of the next GDT entry are zero |
| StateArea.HostSelectorsStored | hv/src/vmx.c:367-373 | every host selector field holds the translated selector of its own segment with RPL and TI clear |
| StateArea.HostSelectorsByNumber | hv/src/vmx.c:367-373 | the host selector is the processor's own with bits 2:0 clear for a selector into the GDT, and 0 for any other |
| StateArea.ControlsStored | hv/src/vmx.c:389-456 | the control words in the VMCS: pin, primary, exit and entry adjusted once, secondary the bare request |
| StateArea.ControlsByNumber | hv/src/vmx.c:389-456 | each stored word is its request by number (0, 0x80000080, 0x200, 0x200) with the low half of the named MSR added and what the high half lacks removed; the secondary word is 8 |
| StateArea.Cr4Stored | hv/src/vmx.c:272-425 | guest, host and shadow CR4 fields hold the CR4 given |
| StateArea.ControlsLegal | hv/src/vmx.c:389-456 | for consistent MSRs those four words are legal for the MSR named by bit 55, keep every allowed bit of their request, and have no bit that is neither requested nor forced |
| StateArea.SecondaryLegalIff | hv/src/vmx.c:412-420 | the unadjusted secondary word is legal exactly when its MSR forces no bit but RDTSCP and allows that one |
| Machine.PinMaskSelects | hv/src/main.c:104-105 | the mask for index i binds the thread to processor i of n for i <= 30, for i = 31 exactly when n is 32, and to no single one otherwise |
| Machine.SelectedIsInMask | hv/src/main.c:104-105 | a mask binds the thread to p exactly when p is the only one of n processors whose bit is set in the sign-extended mask |
| Machine.BitsByNumber | hv/include/arch/vmx.h:45-81 | the bits read from CR4, IA32_FEATURE_CONTROL and IA32_VMX_BASIC, by number |
| Machine.EveryStepLegal | hv/src/main.c:101-131 | a run that ends in the ok state was legal at every step |
| Machine.StopsAtFault | hv/src/main.c:101-131 | any other run is legal up to some event, and is followed up to that one |
| ExitStack.StubState.VmExitStub | hv/src/asm/_vmexit.asm:12-17 | the registers and memory when the stub jumps to the handler, for any effect of CaptureContext on the stack and RCX |
| ExitStack.StubFrame | hv/src/asm/_vmexit.asm:12-17 | every byte then: the CONTEXT at the old RSP, below it the guest's RCX but for what CaptureContext stores in its home area, the return address, what CaptureContext leaves below that, and all else as it was |
| ExitStack.RcxSurvivesIff | hv/src/asm/_vmexit.asm:13-15 | the quadword below the CONTEXT is the guest's RCX exactly when CaptureContext stores nothing different there |
| ExitStack.RecoveredIff | hv/src/vmexit.c:44 | what VmExitHandler takes for RCX is RCX exactly when the stub left its bytes below the address that the saved quadword holds; off the frame, exactly when they were there at the exit |
| ExitStack.SpilledArgument | hv/src/util.c:97-104 | when CaptureContext spills its argument, what the handler takes for RCX is the address of the CONTEXT |
| ExitStack.FrameInStack | hv/src/vmx.c:364 | for every valid layout the CONTEXT ends exactly where VmmStack of the slot does, base + i * size + offset + KERNEL_STACK_SIZE, and the rest of the frame lies above where it begins |
| ExitStack.FramesApart | hv/include/hv.h:30-55 | exits of different processors write disjoint bytes |
| ExitStack.LatestExitSurvives | hv/src/asm/_vmexit.asm:12-17 | however exits of the processors interleave, each finds the CONTEXT of its own latest exit and the RCX bytes that exit saved |
| VmExit.Handler.MoveInstructionPointer | hv/src/vmexit.c:20-32 | GUEST_RIP grows by the instruction length modulo 2^64, and no other field changes |
| VmExit.Handler.VmExitHandler | hv/src/vmexit.c:35-74 | the same for every exit, and which branch of the switch its basic reason takes |
| VmExit.BranchByNumber | hv/src/vmexit.c:48-69 | only bits 15:0 of the reason matter, and every basic reason but 12 and 19 to 27 reaches the breakpoint |
| VmExit.RunMovesRip | hv/src/vmexit.c:20-32 | after any sequence of exits RIP is the initial RIP plus the sum of all advances modulo 2^64 |
| VmExit.RunKeepsOthers | hv/src/vmexit.c:35-74 | after any sequence of exits no field but RIP and the exit information has changed |
| VmExit.ReasonsDoNotMatter | hv/src/vmexit.c:54-72 | runs whose exits differ only in reason and qualification end at the same RIP |
| VmExit.HandledIsVmwrite | hv/src/vmexit.c:31 | the handler's step on numbers is a VMWRITE to the bit-vector VMCS of the word with that number |
| VmExit.RunFromLaunch | hv/src/vmx.c:278-510 | a guest launched from the VMCS bring-up filled is, after any exits, the sum of their advances past RestoreAfterLaunch |
| BringUp.CpuRun | hv/src/main.c:103-129 | bring-up of one processor that can be pinned and has VMXON enabled, for every outcome of its steps, leaves exactly the mode, heap, regions and legality of its stage |
| BringUp.CpuFaults | hv/src/main.c:103-129 | on any other processor it is followed to the CR4 write made on no single processor, or to the VMXON, and leaves exactly what was done before |
| BringUp.AllocationFits | hv/src/vmx.c:80-92 | a region is allocated and cleared over exactly min(4096, bits 44:32 of IA32_VMX_BASIC) bytes, which VMXON, VMPTRLD and VMCLEAR need |
| BringUp.RejectedEnd | hv/src/vmx.c:515-522 | a rejected VMLAUNCH is followed by reading field 0x4400 and then VMXOFF |
| Runs.SupportedByNumber | hv/src/vmx.c:14-34 | the answer of IsVmxSupported by bit 5 of ECX and bits 0 and 2 of IA32_FEATURE_CONTROL |
| Runs.SupportedIff | hv/src/vmx.c:14-34 | it is yes exactly when bit 5 is set and VMXON can be executed where it ran, after what it did |
| Runs.SupportTraceByNumber | hv/src/vmx.c:18-25 | the MSR is written exactly when bit 5 is set and bit 0 clear, with bits 0 and 2 added |
| Runs.VisitedIsFirstStop | hv/src/main.c:101-131 | the loop ends at the first processor that stops it |
| Runs.InitRun | hv/src/main.c:81-135 | the machine that InitHv leaves, for any number of processors and all outcomes |
| Runs.InitSafe | hv/src/main.c:81-135 | protocol safety over every run: each pinning, VMXON, VMPTRLD, VMCLEAR, VMWRITE, VMLAUNCH and VMXOFF is legal exactly when InitHv stops at IsVmxSupported or what the code assumes holds |
| Runs.SafeIfAllEnabled | hv/src/main.c:81-135 | with VmmState allocated, at most 32 processors and VMXON enabled on all but the current one, every run is legal, whatever its outcomes |
| Runs.UnsafeIfOneIsNot | hv/src/main.c:81-135 | a run that visits a processor without VMXON enabled, with memory for its region, is not |
| Runs.UnsafeIfTooMany | hv/src/main.c:101-105 | nor is a run that gets past index 30 with more than 32 processors |
| Runs.InitStops | hv/src/main.c:101-131 | when the assumptions fail, the run is legal up to the turn of the first processor they fail for; earlier ones have ended in the mode of their stage, later ones are out of VMX operation |
| Runs.InitSafeAtEveryStep | hv/src/main.c:81-135 | then each step is legal in the state it is taken in |
| Runs.InitOutcome | hv/src/main.c:101-131 | the loop visits processors in order up to and including the first that stops it and no later one, each ends in the mode of its stage, and control comes back unless the last one left |
| Runs.KeepsCr4 | hv/src/vmx.c:38-46 | every visited processor ends with its own CR4 with VMXE set, every other with its own CR4 |
| Runs.ReturnsIffCameBack | hv/src/vmx.c:515-525 | InitHv returns exactly when no visited processor left for the guest or the host RIP |
| Runs.NoGuestOnReturn | hv/src/vmx.c:467-525 | on return no processor is in guest mode, and the ones out of VMX operation are exactly those not visited, without VMXON, or with a rejected VMLAUNCH |
| Runs.FailureOnlyOnBreak | hv/src/main.c:111-134 | InitHv returns a failure exactly when the loop broke, and 1 or 2 exactly when the last processor failed in InitializeVMCS |
| Runs.StatusByStage | hv/src/main.c:90-134 | the status of an unsupported run, of each breaking stage, and of each failure in InitializeVMCS, by number |
| NtStatus.CodesByNumber | hv/src/vmx.c:61-62 | the codes as 32-bit patterns, and NT_SUCCESS |
| Memory.HeapGrows | hv/src/vmx.c:71-93 | after k processors the heap is the initial one plus what they obtained |
| Memory.GainedKeys | hv/src/main.c:101-131 | the gained addresses are exactly those obtained by some visited processor |
| Memory.GainedCount | hv/src/main.c:101-131 | the gained regions are pairwise distinct, new, and as many as the processors obtained |
| Memory.GainedBytes | hv/src/vmx.c:80-92 | every region obtained has exactly the bytes its processor needs |
| Memory.InitGrowth | hv/src/main.c:101-131 | InitHv adds two regions for each visited processor but the last, and what the last one obtained before it stopped |
| Memory.PhysicalApart | hv/src/vmx.c:93-158 | all regions have different physical addresses |
| Memory.RegionsHold | hv/src/vmx.c:93-163 | each region keeps, to the end of the run, the cleared contents, header, launch state and fields its own bring-up left |
| Memory.LaunchedFields | hv/src/vmx.c:495-516 | every VMCS that VMLAUNCH was executed on holds, at the end of any run, exactly what the writes for its processor leave |
| Memory.LaunchedControls | hv/src/vmx.c:503-516 | each of them still holds the control words of ControlsByNumber for the MSRs of its own processor |
| Memory.LaunchedEntryPoints | hv/src/vmx.c:278-364 | each of them has the HOST_RSP of its own processor, and its RIPs at the stub and RestoreAfterLaunch |
| Memory.StoppedHeap | hv/src/main.c:101-131 | a run that stops so has obtained what the processors before that turn did, and nothing else but the VMXON region of that turn |
| Guests.LaunchedHostRsp | hv/src/vmx.c:364 | in the VMCS of every launched processor HOST_RSP is one CONTEXT below the end of VmmStack in its own slot of VmmState |
| Guests.LaunchedFramesApart | hv/src/vmx.c:364 | the frames that exits of two processors write there have no byte in common, each in the stack of its own slot |
| Guests.LaunchedCr4 | hv/src/vmx.c:272-425 | that VMCS gives guest and host, and shows the guest, the processor's own CR4 with VMXE set |
| Guests.GuestRip | hv/src/vmexit.c:20-32 | a guest that runs from a VMCS of a run is, after any exits, the sum of their advances past RestoreAfterLaunch |
| Runs.RspIsHostRsp | hv/src/vmx.c:364 | the word written to HOST_RSP is that address, whenever it fits 64 bits |
| Teardown.SlotsHold | hv/src/main.c:97-131 | slots not visited are zero; those of processors that reached a VMCS region, the last one included, hold two live regions and their physical addresses |
| Teardown.LastSlot | hv/src/main.c:107-126 | what the slot of every visited processor holds, member by member, for each way to stop |
| Teardown.FreesWhatWasGained | hv/src/vmx.c:193-194 | memory only: the addresses of n filled slots are exactly the 2n regions of bring-up, each once, and without them the heap is what it was |
| Close.CloseOutcome | hv/src/vmx.c:181-197 | how far HvClose gets: through the turns before the first processor not left in root operation with both regions, where it stops; the heap is the initial one and what that processor and later ones obtained |
| Close.TeardownConservesHeap | hv/src/vmx.c:181-197 | the heap is restored exactly when the processors HvClose does not get past obtained nothing, as when all were left in root operation |
| Close.TeardownLegalIff | hv/src/vmx.c:181-197 | teardown is legal exactly when every processor was visited and left in root operation with both regions |
| Close.RejectedLaunchLeaks | hv/src/vmx.c:187-525 | after a rejected VMLAUNCH on any processor HvClose faults and both its regions stay allocated |
| Close.InitReturned | hv/src/main.c:101-134 | every legal run of InitHv that comes back ends in a machine teardown can start from |
| Close.CreateThenClose | hv/src/main.c:137-174 | open and then close, for every supported run that is legal and comes back: legality, and the heap as CloseOutcome has it |
| Close.UnsupportedThenClose | hv/src/main.c:90-174 | open and then close, when VMX is not supported: legal and without effect on the heap, and then a VMXOFF out of VMX operation |
| Teardown.CloseWithoutState | hv/src/vmx.c:187-194 | closing without a VmmState is never legal, whatever the modes of the processors |
| Witness.LaunchIsLegal | hv/src/main.c:81-135 | a legal run that leaves its processor a guest |
| Witness.UnlockedIsLegal | hv/src/vmx.c:22-26 | so is one that starts with IA32_FEATURE_CONTROL zero, which ends as 5 |
| Witness.NullPoolIsIllegal | hv/src/main.c:88-97 | the run without memory for VmmState is not legal |
| Witness.UncheckedProcessorIsIllegal | hv/src/main.c:101-131 | nor the run that goes on to a processor whose IA32_FEATURE_CONTROL is zero |
| Witness.LegalUpTo32 | hv/src/main.c:101-105 | on n processors with VMXON enabled that all reject VMLAUNCH the run is legal exactly when n <= 32 |
| Witness.FailedLoadCloses | hv/src/main.c:137-174 | a run after which HvClose is legal and restores the heap |
| Witness.RejectedLaunchCannotClose | hv/src/vmx.c:187-525 | a legal run with a rejected VMLAUNCH, after which HvClose faults and both regions stay |
| Witness.CodeBaseIsWrong | hv/src/util.c:83-85 | a flat code descriptor followed by a flat data descriptor gets the base 0xFFFF00000000 |
| Witness.TaskBaseIsWrong | hv/src/util.c:83-85 | a TSS at 0xFFFFF80000001000 gets the base 0x1000 |
| Witness.RcxIsLost | hv/src/vmexit.c:44 | a guest RCX that the handler does not find |
| Driver.Driver.InitVmExecControl | hv/src/vmx.c:389-426 | the execution-control VMWRITEs, in order, with the words each adjustment really reaches |
| Driver.Driver.WriteVmcs | hv/src/vmx.c:481-510 | all 78 VMWRITEs of the five writers |
| Driver.Driver.IsVmxSupported | hv/src/vmx.c:7-35 | the answer, and the feature-control write made exactly when the MSR is unlocked |
| Driver.Driver.AllocAndInitVmxonRegion | hv/src/vmx.c:49-112 | its trace, status and effect on the slot for a null slot, a failed allocation, a failed VMXON and success |
| Driver.Driver.AllocAndInitVmcsRegion | hv/src/vmx.c:114-178 | its trace, status and effect on the slot for a null slot, a failed allocation, a failed VMPTRLD and success |
| Driver.Driver.InitializeVMCS | hv/src/vmx.c:459-526 | its trace, status and whether control comes back, for every outcome |
| Driver.Driver.BringUpProcessors | hv/src/main.c:101-131 | the loop: it stops at the first processor that ends it, with its status |
| Driver.Driver.InitHv | hv/src/main.c:81-135 | the trace, the status, VmmState and whether control comes back, for every environment |
| Driver.Driver.HvCreate | hv/src/main.c:137-156 | the same, but success is returned whatever InitHv returned |
| Driver.Driver.ExitVmxOperation | hv/src/vmx.c:180-197 | the trace of teardown, with and without a VmmState |

## Left out

- Util.Ipow: negative exponents are not modelled; both callers pass a loop index.
- VmExit.Handler.VmExitHandler: does not model its return, since no code calls VmxResume; runs of exits resume the guest after each. What it takes for RCX is modelled in `ExitStack` instead, and debug breakpoints only appear as the branch taken. Field contents are numbers there, tied to the store by `VmExit.HandledIsVmwrite`.
- ExitStack.StubState.VmExitStub: the CONTEXT, the RCX it returns with, and what CaptureContext stores below its return address and, from the bottom up, in its home area are parameters; the latter is stored before the CONTEXT is filled.
- The thread moving to another processor while IsVmxSupported runs, before it is bound to any; and processor groups: the masks are those of group 0.
- The stack VmExitHandler itself uses.
- The names of the VMCS field table that the driver never uses appear only in `Fields.NamesDistinct`, by group and position.
- DriverEntry, DriverUnload and the device, symbolic-link and IRP handling of HvCreate and HvClose: kernel object plumbing.
- loader/loader.c: wrappers over the Windows service manager.
- hv/src/ept.c and the EPT members of VP_DATA: an empty stub; arch/ept.h is not part of this model.
- hv/src/logger.c, HvLogDebug and DbgBreakPoint: no effect on the modelled state.
- The checks of VM entry on guest and host state beyond launch state, control words and host selectors: the driver does not attempt them; a VM entry that fails them is one of the outcomes of VMLAUNCH.
- `Vp->Context` of InitializeVMCS: it is captured and never read.
- What a run does after the thread is no longer bound to one processor: with more than 32 processors, from index 31 on.
- VMX operations on other processors while the driver's thread runs: the thread is pinned and visits processors one at a time.
