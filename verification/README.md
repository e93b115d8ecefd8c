# KVM and SMBIOS protocols, modelled and proved in Dafny

The repository carries modified copies of KVM's Intel backend (`vmx.c`), its AMD backend (`svm.c`) and
QEMU's SMBIOS generator (`smbios.c`). Their correctness rests on small stateful protocols whose
invariants the comments state and nothing checks. This project models those protocols and proves the
invariants. `dafny verify dfyconfig.toml` checks all of it.

## Layout

| file | what it models |
|---|---|
| `PostedInterrupts.dfy` | senders, the vCPU and the CPU racing on PIR, ON and `vcpu->mode` |
| `AsidAllocator.dfy` | the AMD ASID allocator, with a TLB for every physical CPU |
| `VmcsOwnership.dfy`, `VmcsRaces.dfy` | VMCS load, remote clear and CPU offline, statement by statement, and the race between the last two |
| `SegmentView.dfy`, `SegmentCache.dfy`, `Cr4Shadow.dfy` | what segment registers a guest sees across mode switches, the lazy cache over the VMCS, and CR4 across the switches |
| `SvmMsrMap.dfy`, `VmxMsrBitmap.dfy` | MSR interception with a shadow copy and a userspace filter |
| `Arithmetic.dfy`, `Options.dfy` | word sizes and division facts; an option type |
| `EventWords.dfy`, `SvmInjection.dfy`, `VmxInjection.dfy` | event injection and its cancellation |
| `AtomicSwitch.dfy` | the MSR lists that VM entry and exit load |
| `PreemptionTimer.dfy` | the APIC timer on the VMX preemption timer |
| `PmlLog.dfy` | the page-modification log |
| `LbrBanks.dfy` | the two homes of the last-branch registers |
| `NmiWindow.dfy` | NMI masking by IRET interception |
| `RdtscHandler.dfy` | the repository's own RDTSC exit handlers |
| `SmbiosLayout.dfy` | DIMM sizes, table encodings and handle ranges |

Code that changes fields in place is a class whose methods are tied to functions on values; what the
source promises is then proved about those functions, mostly for every run. The two lock-free or racing
protocols are step systems, with a program counter for every actor and one step for every store another
CPU can observe. What two modules need is defined once: `SegmentCache` imports `SegmentView`, and both
injection modules import `EventWords`.

## Where the code does not keep the promise

Some properties turned out false in a corner. Each is stated with the exact condition under which it
holds, and with a concrete run or input that breaks it.

- A remote clear that starts while the offline loop is half way through clearing the same VMCS makes one
  of the two `list_del`s illegal (`UnlinksAreLegalIffRaceFree`); a freed VMCS page can end up current and
  active on another CPU (`InterruptedLoopLosesTheVmcs`). Every ownership theorem holds without that race.
- A VMCS launched while the offline loop stands between `cpu = -1` and `launched = 0` keeps a wrong flag
  (`LaunchFlagIsRightIffNoClearPending`, `OfflineRaceLosesTheLaunchedFlag`). That "launched" implies no
  VMCLEAR since the last launch still holds (`LaunchedMeansNotCleared`); it is the converse that fails.
- Cancelling a soft event without NRIPS leaves RIP advanced in a 64-bit code segment with a nonzero base or
  a segment whose base plus RIP exceeds 32 bits (`SoftRoundTripWithoutNrips`, `WrappedSegmentLosesRip`).
- Without emulation of invalid guest state, entering and leaving real mode rewrites segments
  (`RoundTripWithoutEmulation`, `FlatSegmentIsRewritten`). With it, leaving real mode cuts a segment that is
  not canonical to fit (`PmodeKeepsTheView`, `UnusableSegmentIsCut`), and a system segment set in real mode
  reads back with the old selector (`SetThenGetInVm86`, `SystemSegmentIsLost`).
- A deadline of 2^64-1 is accepted and then read as disarmed, and one that wraps fires at once
  (`ArmedDeltaIsProgrammedIff`, `TopDeadlineIsDropped`).
- A DEBUGCTL write reads back, but outside a bank move it leaves the VMCB's LBR clean bit as it was
  (`WriteIsSeenByTheCpuIff`, `StaleDebugCtl`).
- A shutdown exit clears the IRET intercept but not the NMI mask (`ShutdownKeepsInvIff`,
  `ShutdownLosesTheWindow`).
- An NMI injected while an older IRET is still awaited is unmasked at the next exit, IRET or not
  (`InjectedNmiStaysMaskedIff`, `EmulatedIretUnmasksEarly`).
- The RDTSC counter steps back when samples from different CPUs do (`StepsBackIff`, `BackwardSample`), and a
  zero first sample stalls it for one exit (`ZeroFirstSampleStalls`).
- The Type 19 loop runs over the DIMM count and reads past `mem_array` when there are more DIMMs than areas
  and nothing stops it before (`SmbiosTables.AppendMemoryTables`), as with 48 GiB in three DIMMs and the usual
  two areas (`ThreeDimmsInTwoAreas`).

Two further conditions are exact, but no machine is on their failing side: the DIMM sizes miss RAM only when
the rounding wraps 64 bits or there are 2^32 DIMMs (`SizesAddUpIff`, `TooManyDimms`; `SizesAddUpOnMachines`
says that up to 2 PiB they never do), and the Type 16 capacity is lost only within a KiB of 2^64
(`Type16RoundTripIff`, `TopOfMemoryIsLost`).

## Assumptions

- The entry order mode, barrier, sync is that of `vcpu_enter_guest` (x86.c:10950-10985), and the linear-RIP test is
  `kvm_is_linear_rip` (x86.c:13204-13220).
- Atomic bit operations and paired barriers are sequentially consistent steps.
- The loop that empties a CPU's list on the way down runs with interrupts on; by then no task that loads or
  runs a VMCS is left on that CPU. A function-call handler runs to its end before anything else on its CPU.
- CR4.VME is owned by the host, so the guest changes it through `vmx_set_cr4` only.
- RDTSC exits do not overlap: the handlers share their static variables without a lock, and two exits that
  interleave their statements can return each other's values.
- Hardware follows the manuals: section 30.6 (posted interrupts; 29.6 in earlier editions), 25.4.1 (segment access
  rights; 24.4.1), 27.3.1.2 (segments in virtual-8086 mode; 26.3.1.2), 25.11.1 (VMCS state; 24.11.1), 25.6.9 (MSR
  bitmaps; 24.6.9), 25.8.3 (event injection; 24.8.3), 29.3.6 (page-modification logging; 28.3.6 or 28.2.6) and
  26.5.1 (preemption timer; 25.5.1) of the Intel SDM, volume 3C; sections 15.11 (MSR intercepts), 15.15.3 (clean
  bits), 15.16 (TLB control) and 15.20 (event injection) of the AMD APM, volume 2; sections 7.17, 7.18 and 7.20 of
  DMTF DSP0134.
- MSR numbers and bit positions that the sources take from headers are those of the manuals.
- `kvm_apic_update_irr` harvests the PIR one 32-bit word at a time; `kvm_msr_allowed` is membership in two
  sets; the MSR bitmap helpers set, clear and test one bit; the emulator's answer to "skip one instruction",
  TSC readings and the lists handed in by perf are parameters.

## Model

| member | source | states |
|---|---|---|
| `PostedInterrupts.RunsKeepInv` | vmx.c:4162-4204 | in every state of every interleaving, each PIR vector is covered by ON, by a sender about to set ON or by a harvest still to reach it, and ON past the vCPU's own test is covered by a notification or wake-up in flight |
| `PostedInterrupts.SenderKeepsPirCovered` | vmx.c:4245-4273 | every step of a sender keeps every PIR vector covered |
| `PostedInterrupts.SenderKeepsOnCovered` | vmx.c:4162-4204 | every step of a sender keeps ON covered by an IPI or a wake-up |
| `PostedInterrupts.VcpuKeepsPirCovered` | vmx.c:6900-6944 | clearing ON before harvesting keeps every PIR vector covered |
| `PostedInterrupts.VcpuKeepsOnCovered` | vmx.c:6900-6944 | the entry order mode, barrier, sync keeps ON covered |
| `PostedInterrupts.EarlyReturnsAreSafe` | vmx.c:4258-4263 | whoever returns early on "PIR already set" or "ON already set" leaves the vector covered, and the notification that covers ON too |
| `PostedInterrupts.RunningGuestMissesNothing` | vmx.c:4245-4273 | a guest running with nothing in flight has ON clear and PIR empty |
| `PostedInterrupts.SleepingVcpuMissesNothing` | vmx.c:4186-4204 | a vCPU asleep with nothing in flight has ON clear, PIR empty and virtual IRR empty |
| `PostedInterrupts.PostedStaysPending` | vmx.c:6900-6944 | from posting on, a vector is in PIR or virtual IRR until the guest takes it |
| `PostedInterrupts.NoPostedInterruptIsLost` | vmx.c:4245-4273 | for any delivery and any later quiet moment in the guest, the vector has been taken or is in the virtual IRR |
| `PostedInterrupts.NoPostedInterruptSleeps` | vmx.c:4186-4204 | a vCPU asleep in a quiet moment has taken every vector ever posted since |
| `PostedInterrupts.TakenAtMostPosted` | vmx.c:4245-4273 | in every run a vector is taken or pending at most as often as it was posted: no interrupt is invented |
| `PostedInterrupts.CanSettle` | vmx.c:4162-4204 | from every reachable state the vCPU can reach guest code with nothing in flight: nothing deadlocks |
| `PostedInterrupts.DeliveryCanComplete` | vmx.c:4245-4273 | from any point of a run after a post the run can go on to guest code with the vector, not yet taken, ready in the virtual IRR |
| `PostedInterrupts.IdleVcpuSleepsIff` | vmx.c:4186-4204 | an idle vCPU that blocks with ON clear falls asleep, with no stale wake-up, iff its virtual IRR is empty |
| `PostedInterrupts.SyncBeforeModeLosesAnInterrupt` | vmx.c:4265-4271 | with mode and sync swapped, a run ends with the guest running past a posted interrupt and nothing in flight |
| `AsidAllocator.AsidIsolation` | svm.c:3575-3597 | at every VMRUN of every run, what the TLB holds under the ASID in use was loaded by this vCPU since its last migration or requested flush, and the ASID lies above the SEV range and below the CPU's ASID count |
| `AsidAllocator.AsidIsImplemented` | svm.c:618-622 | the ASID in use at every VMRUN of every run, translations or not, is one the CPU implements, outside the SEV range |
| `AsidAllocator.AsidsAreKept` | svm.c:1986-1997 | a vCPU that stays on its CPU within a generation keeps its ASID without a flush; a generation ends only when every ASID of the CPU has been handed out, and the first ASID of the next comes with a full flush |
| `AsidAllocator.AsidIsStable` | svm.c:3575-3597 | from one VMRUN of a vCPU to its next on the same CPU, within a generation, it runs under the same tag, whatever other vCPUs do between |
| `AsidAllocator.ResetGivesFreshAsid` | svm.c:1336-1337 | the first VMRUN after a reset takes a new ASID from the pool |
| `AsidAllocator.NoFlushByAsidWithoutIt` | svm.c:3940-3962 | on a CPU without flush-by-ASID no VMRUN of any run asks for one |
| `AsidAllocator.FlushReachesNextVmrun` | svm.c:3940-3962 | after a requested flush nothing loaded before it survives to the vCPU's next VMRUN |
| `AsidAllocator.PreRunIsolates` | svm.c:3575-3597 | whatever ASID `pre_svm_run` settles on, no other vCPU of that CPU owns it and nothing foreign is left under it after the flush asked for |
| `AsidAllocator.RunsKeepInv` | svm.c:1986-1997 | generations, ranges, distinct owners and clean ASIDs are invariant over all runs |
| `AsidAllocator.SvmCpuData.HardwareEnable` | svm.c:618-622 | after enabling: generation 1, ASIDs from above the SEV range to the count CPUID reports less one, every one still to be handed out |
| `AsidAllocator.VcpuSvm.InitVmcb` | svm.c:1336-1337 | a reset takes the vCPU's ASID and generation away and nothing else |
| `AsidAllocator.VcpuSvm.NewAsid` | svm.c:1986-1997 | in place, the functional allocation: next ASID, or new generation, first ASID and full flush on wrap |
| `AsidAllocator.VcpuSvm.PreSvmRun` | svm.c:3575-3597 | in place, the functional pre-run: migration drops the ASID, a stale generation gets a new one |
| `AsidAllocator.VcpuSvm.PrepareVmrun` | svm.c:4198-4205 | the VMCB's ASID at VMRUN is the allocated one |
| `AsidAllocator.VcpuSvm.FinishVmrun` | svm.c:4271 | after VM-exit only the flush request is dropped |
| `AsidAllocator.VcpuSvm.FlushTlbAsid` | svm.c:3940-3962 | in place, flush-by-ASID or a generation made stale |
| `VmcsOwnership.RunsKeepInv` | vmx.c:785-821 | over every interleaving of loads, remote clears and CPU offline in which no remote clear of this VMCS starts inside the offline loop's, lists, `current_vmcs`, `cpu`, hardware state and program counters stay linked |
| `VmcsOwnership.OwnershipIsConsistent` | vmx.c:1415-1480 | in such runs, outside the middle of a load or clear, a VMCS is on CPU c's list iff its `cpu` is c iff it is active on c, and `current_vmcs` names it only there |
| `VmcsOwnership.OneHome` | vmx.c:785-812 | in such runs a VMCS is at all times on one list, active on one CPU and current on one CPU at most |
| `VmcsOwnership.FreedPageIsUnreferenced` | vmx.c:2893-2903 | in such runs a freed VMCS page is on no list, current nowhere and active nowhere, even when CPUs went down meanwhile |
| `VmcsOwnership.OperationsAreLegal` | vmx.c:1415-1480 | in such runs list insertion and removal, VMPTRLD, VMCLEAR and VM entry only ever happen where they are allowed |
| `VmcsOwnership.LaunchedMeansNotCleared` | vmx.c:785-812 | in every run, races and all, `launched` implies no VMCLEAR since the last launch, unless the clear that did it is still to reset the flag |
| `VmcsOwnership.WholeClear` | vmx.c:785-812 | a remote clear run to its end takes a VMCS loaded there off its list, off current and off the CPU, resets its flag and changes nothing else; any other VMCS is left alone |
| `VmcsOwnership.RunsKeepMatched` | vmx.c:2840-2848 | the `launched` flag tells the launch state, except while a clear is between VMCLEAR and resetting it, for runs without VM entry inside that window |
| `VmcsOwnership.LaunchFlagIsRightIffNoClearPending` | vmx.c:7463 | VM entry picks VMLAUNCH or VMRESUME correctly and leaves the flag correct iff no clear of this VMCS is in that window |
| `VmcsOwnership.PendingClearAtEntryIsOffline` | vmx.c:2840-2848 | without the race, only the offline loop can be in that window at a VM entry |
| `VmcsRaces.RaceLingers` | vmx.c:785-812 | once a remote clear has started inside the offline loop's, the loop cannot get past its `list_del` without one of the two being illegal |
| `VmcsRaces.UnlinksAreLegalIffRaceFree` | vmx.c:2840-2848 | with no clear of it in progress, every `list_del` of a VMCS has been legal iff no remote clear of it started inside the offline loop's |
| `VmcsRaces.InterruptedLoopLosesTheVmcs` | vmx.c:785-821 | a complete run of that race, after which a freed page is current and active on another CPU |
| `VmcsRaces.OfflineRaceLosesTheLaunchedFlag` | vmx.c:810-811 | a complete run without that race into the flag's window: the VMCS is launched and the flag says it is not |
| `SegmentView.HwRoundTrip` | vmx.c:3555-3570 | writing a segment's access rights and reading them back is lossless iff the segment is canonical |
| `SegmentView.ReportedIsCanonical` | vmx.c:3514-3529 | every segment read from the VMCS is canonical |
| `SegmentView.AccessRightsLayout` | vmx.c:3555-3570 | the access-rights word bit by bit: type, S, DPL, P, AVL, L, D/B, G and unusable where the CPU reads them, reserved bits clear |
| `SegmentView.RmodeHardware` | vmx.c:3067-3104 | `enter_rmode` puts the hardware in virtual-8086 mode: RFLAGS with VM and IOPL 3, CR4 with VME, TR on KVM's own TSS, and no other bit touched |
| `SegmentView.RmodeSegmentHardware` | vmx.c:3035-3065 | and, without emulation of invalid guest state, every segment based at selector times 16 with limit 0xffff and rights 0xf3; with it, only DPL 3 and a writable CS |
| `SegmentView.Vm86SetHardware` | vmx.c:3572-3587 | a segment set in virtual-8086 mode is saved as given, and the hardware gets only the selector of TR, the form of that mode for code and data segments, and nothing of a system segment |
| `SegmentView.PmodeHardware` | vmx.c:3017-3023 | `enter_pmode` takes IOPL and VM from the saved flags, all other flags from the guest and CR4.VME from the shadow |
| `SegmentView.PmodeSegmentHardware` | vmx.c:2978-2995 | and, without emulation of invalid guest state, leaves code and data segments with their base, limit and selector, a DPL that is their RPL, and RPL 0 in CS and SS |
| `SegmentView.Vm86FlagsAsSeen` | vmx.c:1509-1525 | in virtual-8086 mode the guest is shown its own IOPL and VM and the other flags as they are |
| `SegmentView.AccessedBit` | vmx.c:3592-3604 | an unrestricted guest's segments other than LDTR get the accessed bit and nothing else |
| `SegmentView.HwCr4Fixed` | vmx.c:3432-3452 | the hardware CR4 has VME in virtual-8086 mode, VMXE always and the host's MCE |
| `SegmentView.HwCr4Emulated` | vmx.c:3454-3491 | UMIP is hidden when emulated, and SMEP, SMAP and PKE without paging |
| `SegmentView.HwCr4Paging` | vmx.c:3465-3477 | PSE and PAE follow the paging mode, with or without EPT |
| `SegmentView.HwCr4Rest` | vmx.c:3432-3495 | every other bit of CR4 is the guest's, VME outside virtual-8086 mode included |
| `SegmentView.SetCr4InHardware` | vmx.c:3491-3495 | a CR4 write puts the guest's value in the read shadow and that value in GUEST_CR4, and nothing else anywhere |
| `SegmentView.RmodeKeepsTheView` | vmx.c:3067-3113 | `enter_rmode` leaves every segment and RFLAGS as the guest sees them |
| `SegmentView.PmodeKeepsTheView` | vmx.c:2997-3033 | `enter_pmode` leaves a segment as the guest sees it iff the saved one is canonical, whatever happened to the VMCS meanwhile |
| `SegmentView.RmodeSavesCanonical` | vmx.c:3082-3088 | what `enter_rmode` saves is canonical |
| `SegmentView.ModeSwitchRoundTrip` | vmx.c:2978-3113 | `enter_rmode` then `enter_pmode` restores every reported segment |
| `SegmentView.RflagsRoundTrip` | vmx.c:3017-3020 | `enter_rmode` then `enter_pmode` restores GUEST_RFLAGS |
| `SegmentView.Cr4ComesBack` | vmx.c:3022-3023 | `enter_rmode` then `enter_pmode` restores CR4 iff CR4.VME equalled its read shadow |
| `SegmentView.UnusableSegmentIsCut` | vmx.c:3572-3607 | a concrete segment, present and unusable, set in real mode and changed by leaving it |
| `SegmentView.SetThenGetInVm86` | vmx.c:3572-3587 | in virtual-8086 mode a segment set reads back iff it is TR, a code or data segment, or keeps the selector |
| `SegmentView.SystemSegmentIsLost` | vmx.c:3572-3587 | a concrete system segment whose selector does not read back |
| `SegmentView.SetThenGet` | vmx.c:3588-3607 | elsewhere a segment set reads back, with the accessed bit, iff it is canonical |
| `SegmentView.FlatSegmentIsRewritten` | vmx.c:3035-3065 | a concrete flat segment that comes back with selector 0 |
| `Cr4Shadow.RunsKeepInv` | vmx.c:3432-3495 | over every run of CR4 writes, CR0 writes with their mode switches, resets and guest writes, CR4.VME equals its shadow outside virtual-8086 mode |
| `Cr4Shadow.Cr4AlwaysComesBack` | vmx.c:3022-3023 | hence entering and leaving real mode always restores CR4 |
| `SegmentView.RoundTripWithoutEmulation` | vmx.c:3035-3065 | without emulation of invalid guest state a segment survives the round trip iff it looks as if real mode had loaded it |
| `SegmentCache.VcpuVmx.TestSet` | vmx.c:823-836 | a hit means the cached field equals the VMCS field; a miss makes that one field the caller's to fill |
| `SegmentCache.VcpuVmx.ReadSelector` | vmx.c:838-845 | a cached selector read equals the VMCS read |
| `SegmentCache.VcpuVmx.ReadBase` | vmx.c:847-854 | likewise the base |
| `SegmentCache.VcpuVmx.ReadLimit` | vmx.c:856-863 | likewise the limit |
| `SegmentCache.VcpuVmx.ReadAr` | vmx.c:865-872 | likewise the access rights |
| `SegmentCache.VcpuVmx.VmxGetSegment` | vmx.c:3496-3530 | what is reported through the cache is what direct VMCS reads report |
| `SegmentCache.VcpuVmx.VmxGetSegmentBase` | vmx.c:3532-3541 | likewise the base alone |
| `SegmentCache.VcpuVmx.VmxGetCpl` | vmx.c:3543-3553 | the CPL read through the cache is that of a direct VMCS read |
| `SegmentCache.VcpuVmx.VmxGetCsDbLBits` | vmx.c:3615-3621 | likewise CS.D and CS.L |
| `SegmentCache.VcpuVmx.VmxSetCr4` | vmx.c:3432-3495 | in place, the functional CR4 write with its hardware value and shadow |
| `SegmentCache.VcpuVmx.SetSegmentInPlace` | vmx.c:3572-3607 | the segment write, with the cache still coherent |
| `SegmentCache.VcpuVmx.WriteBaseMsr` | vmx.c:2178-2185 | an FS or GS base write, with the cache still coherent |
| `SegmentCache.VcpuVmx.VmxEnterLmode` | vmx.c:3140-3156 | TR becomes a busy 64-bit TSS, nothing else changes, the cache stays coherent |
| `SegmentCache.VcpuVmx.VmxVcpuReset` | vmx.c:4871-4892 | the reset values of all segments, with the cache still coherent although marked available |
| `SegmentCache.ResetState` | vmx.c:4871-4892 | after reset CS is 0xf000 at 0xffff0000, and every segment is 64 KiB with the rights of its kind |
| `SegmentCache.LmodeTrIsBusy` | vmx.c:3146-3152 | long mode makes TR a busy 64-bit TSS and changes nothing else in it |
| `SegmentCache.BaseInHardware` | vmx.c:2178-2185 | a base MSR write changes that base alone and reads back outside virtual-8086 mode |
| `SegmentCache.LmodeInHardware` | vmx.c:3140-3156 | entering long mode makes TR busy and touches no other register |
| `SegmentCache.ResetInHardware` | vmx.c:4871-4892 | a reset leaves virtual-8086 mode with every segment in its reset state |
| `SegmentCache.CplIsReported` | vmx.c:3543-3553 | the CPL is the DPL of the reported SS, 0 in virtual-8086 mode, and D and L are those of the reported CS |
| `SegmentCache.VcpuVmx.VmxVcpuRun` | vmx.c:7292 | after a stay in the guest nothing cached is trusted |
| `SegmentCache.VcpuVmx.VmxEnterRmode` | vmx.c:3067-3113 | the statements in place amount to the functional switch, cache coherent |
| `SegmentCache.VcpuVmx.VmxEnterPmode` | vmx.c:2997-3033 | the statements in place amount to the functional switch back, cache coherent |
| `SegmentCache.VcpuVmx.Replay` | vmx.c:823-872 | over any sequence of whole calls and guest runs, every value handed out and every register equals those of a machine without a cache |
| `SvmMsrMap.SvmMsrpmOffset` | svm.c:265-284 | the word of a mapped MSR; an MSR has a word iff it is in one of the three ranges |
| `SvmMsrMap.MapLayout` | svm.c:259-284 | word and position together are twice the MSR's number in its range, from bit 0, 0x4000 or 0x8000 |
| `SvmMsrMap.MappedMsrs` | svm.c:259-263 | the MSRs with a bit are 0 to 0x1fff and those from 0xc0000000 and 0xc0010000 |
| `SvmMsrMap.CpuReadsThePair` | svm.c:845-852 | reads are intercepted by the even bit of the pair and writes by the odd one |
| `SvmMsrMap.MapIsInjective` | svm.c:259-284 | distinct MSRs never share a bit |
| `SvmMsrMap.ProgrammedBits` | svm.c:845-852 | programming one MSR sets its two bits and changes no other MSR's |
| `SvmMsrMap.DirectAccessTableOk` | svm.c:83-145 | the direct-access table has no duplicates and only mapped MSRs |
| `SvmMsrMap.VcpuSvm.constructor` | svm.c:867-880 | a fresh map intercepts everything and agrees with its shadow |
| `SvmMsrMap.VcpuSvm.DirectAccessMsrSlot` | svm.c:758-767 | the slot of an MSR, or none |
| `SvmMsrMap.VcpuSvm.SetShadowMsrIntercept` | svm.c:769-788 | only the MSR's own shadow bits change |
| `SvmMsrMap.VcpuSvm.SetMsrInterceptionBitmap` | svm.c:823-858 | the MSR's bits become the request limited by the filter |
| `SvmMsrMap.VcpuSvm.SetMsrInterception` | svm.c:860-865 | keeps the whole map in agreement with shadow and filter and touches no other MSR |
| `SvmMsrMap.VcpuSvm.MsrFilterChanged` | svm.c:921-938 | from any state, every direct-access bit is "intercept" iff its shadow bit is clear or the filter denies it, and no other MSR changes |
| `SvmMsrMap.VcpuSvm.SetX2apicMsrInterception` | svm.c:893-914 | switches exactly the x2APIC MSRs, or none without x2AVIC, and keeps the agreement |
| `VmxMsrBitmap.BitsAreDistinct` | vmx.c:3991-4003 | each bit of the page belongs to one MSR and one access |
| `VmxMsrBitmap.BitLayout` | vmx.c:3991-4003 | read bits of low and high MSRs from bit 0 and 8192, write bits from 16384 and 24576 |
| `VmxMsrBitmap.PassthroughTableOk` | vmx.c:164-183 | the passthrough table has no duplicates, only covered MSRs and none of the x2APIC range |
| `VmxMsrBitmap.RebuildIsUnique` | vmx.c:4134-4155 | a full rebuild from shadow and filter is one definite bitmap |
| `VmxMsrBitmap.VcpuVmx.constructor` | vmx.c:7542-7546 | the initial all-ones bitmap and shadow agree |
| `VmxMsrBitmap.VcpuVmx.PossiblePassthroughMsrSlot` | vmx.c:670-679 | the slot of an MSR, or none |
| `VmxMsrBitmap.VcpuVmx.DisableIntercept` | vmx.c:3962-4004 | clears exactly the accesses asked for that the filter allows; shadow-intercepted still implies intercepted |
| `VmxMsrBitmap.VcpuVmx.EnableIntercept` | vmx.c:4006-4036 | sets exactly the accesses asked for |
| `VmxMsrBitmap.VcpuVmx.SetIntercept` | vmx.c:3962-4036 | keeps a bitmap that equals its rebuild equal to its rebuild |
| `VmxMsrBitmap.VcpuVmx.WriteX2apicWords` | vmx.c:4038-4096 | the whole-word writes touch no listed MSR |
| `VmxMsrBitmap.VcpuVmx.RefreshListed` | vmx.c:4147-4155 | one turn of the refresh makes one MSR's bits right and changes no other bit |
| `VmxMsrBitmap.VcpuVmx.MsrFilterChanged` | vmx.c:4134-4155 | although it skips MSRs meant to be intercepted, the incremental refresh ends with the bitmap a full rebuild gives |
| `EventWords.EventWordDecodes` | svm.c:4088-4094 | vector, type, validity and error flag come back out of an event word |
| `EventWords.EventWordLayout` | svm.c:470-473 | vector, type, error flag and valid flag are where the CPU reads them and no other bit is set |
| `SvmInjection.SkipLands` | svm.c:370-406 | a skip lands on the VMCB's NextRIP under NRIPS, else on the one remembered, else where the emulator says; only a committed skip ends the interrupt shadow or takes the emulator's flags |
| `SvmInjection.SoftEventsAreSkipped` | svm.c:413-456 | as the CPU gets a soft event: RIP, flags and shadow in place with NextRIP past the instruction under NRIPS, and the instruction skipped for good without |
| `SvmInjection.ControlSaysTheEvent` | svm.c:458-474 | the injected word is type 3 with the error code for an exception, 0 or 4 for an interrupt, 2 for an NMI, which is masked with IRET intercepted unless L1's or virtual |
| `SvmInjection.CompletionClears` | svm.c:4061-4103 | every exit leaves at most the interrupted event queued, no soft snapshot, NMIs unmasked iff RIP is past an awaited IRET, and the L1 mark only with its NMI |
| `SvmInjection.OtherEventsKeepRip` | svm.c:4029-4059 | events that are not soft leave RIP and NextRIP alone on their way back |
| `SvmInjection.ExceptionRoundTrip` | svm.c:458-474 | an exception other than #VC injected and cancelled is queued again with its vector and error code, and nothing else is |
| `SvmInjection.VcIsDropped` | svm.c:4104-4109 | #VC is dropped |
| `SvmInjection.InterruptRoundTrip` | svm.c:3653-3673 | an interrupt comes back with its vector and softness |
| `SvmInjection.NmiRoundTrip` | svm.c:3599-3618 | an NMI comes back, from L1 or not, with RIP and NextRIP untouched |
| `SvmInjection.HardEventsKeepRip` | svm.c:4029-4059 | hard events leave RIP and NextRIP alone |
| `SvmInjection.UnskippableIsDropped` | svm.c:413-456 | an event whose instruction cannot be skipped is queued nowhere and RIP stays |
| `SvmInjection.LinearRipTest` | svm.c:4045-4058 | the linear-RIP test recognises base plus RIP iff the base is zero in 64-bit mode, or the sum fits 32 bits elsewhere |
| `SvmInjection.SoftRoundTripWithNrips` | svm.c:4045-4047 | with NRIPS, RIP is back and NextRIP ready for re-injection |
| `SvmInjection.SoftRoundTripWithoutNrips` | svm.c:4056-4058 | without NRIPS, RIP is back iff the linear-RIP test recognises the address skipped to, or the skip went nowhere |
| `SvmInjection.WrappedSegmentLosesRip` | svm.c:4056-4058 | a concrete INT3 whose RIP is not restored |
| `SvmInjection.ReinjectionRepeats` | svm.c:4034-4047 | re-injecting a cancelled soft interrupt gives the CPU the same event, NextRIP and RIP without asking the emulator again |
| `SvmInjection.VcpuSvm.SkipEmulatedInstruction` | svm.c:370-406 | in place, the functional skip and its success |
| `SvmInjection.VcpuSvm.UpdateSoftInterruptRip` | svm.c:413-456 | in place, the functional snapshot and RIP move |
| `SvmInjection.VcpuSvm.InjectException` | svm.c:458-474 | in place, the functional injection |
| `SvmInjection.VcpuSvm.InjectNmi` | svm.c:3599-3618 | in place, the functional injection and its IRET tracking |
| `SvmInjection.VcpuSvm.InjectIrq` | svm.c:3653-3673 | in place, the functional injection |
| `SvmInjection.VcpuSvm.CompleteSoftInterrupt` | svm.c:4029-4059 | in place, which of RIP and NextRIP is restored |
| `SvmInjection.VcpuSvm.CompleteInterrupts` | svm.c:4061-4128 | in place, queues cleared, IRET completion noticed, the vectored event queued again |
| `SvmInjection.VcpuSvm.CancelInjection` | svm.c:4130-4139 | in place, the functional cancellation |
| `VmxInjection.ExceptionRoundTrip` | vmx.c:1797-1840 | an exception injected and cancelled comes back with its vector, its error code cut to 16 bits and its length |
| `VmxInjection.InterruptRoundTrip` | vmx.c:4931-4957 | an interrupt comes back with its vector, softness and length |
| `VmxInjection.NmiRoundTrip` | vmx.c:4959-4988 | an NMI comes back with NMIs unblocked again, tracked by the CPU or by KVM, and the cached bit stays sound |
| `VmxInjection.EntryFieldsSayTheEvent` | vmx.c:1797-1840 | the entry fields say type 3 or 6 for a hard or soft exception, 0 or 4 for an external or soft interrupt, 2 for an NMI with vector 2, with the length for soft events |
| `VmxInjection.SoftEventKeepsItsLength` | vmx.c:7099-7150 | a soft event whose delivery was interrupted is queued with the length reported, and no other event changes the length |
| `VmxInjection.NmiEntryKeepsCacheSound` | vmx.c:4959-4988 | once VM entry with an NMI has blocked NMIs, the cached bit does not claim otherwise |
| `VmxInjection.ReinjectionRepeats` | vmx.c:7160-7168 | after any number of injections and cancellations of an exception, interrupt or NMI, injecting it again gives the CPU the fields it got first |
| `VmxInjection.AfterSetNmiMask` | vmx.c:5004-5022 | what the guest experiences is the mask asked for, and the cached bit never claims too much |
| `VmxInjection.VcpuVmx.GetNmiMask` | vmx.c:4990-5002 | the cached answer is the hardware's |
| `VmxInjection.VcpuVmx.SetNmiMask` | vmx.c:5004-5022 | in place, the functional mask change |
| `VmxInjection.VcpuVmx.InjectException` | vmx.c:1797-1840 | in place, the functional injection |
| `VmxInjection.VcpuVmx.InjectIrq` | vmx.c:4931-4957 | in place, the functional injection |
| `VmxInjection.VcpuVmx.InjectNmi` | vmx.c:4959-4988 | in place, the functional injection |
| `VmxInjection.VcpuVmx.CompleteInterrupts` | vmx.c:7099-7150 | in place, queues cleared and the event queued again |
| `VmxInjection.VcpuVmx.CancelInjection` | vmx.c:7160-7168 | in place, the functional cancellation |
| `AtomicSwitch.ToMapEntries` | vmx.c:969-978 | a list without duplicates has the keys, values and size of its map |
| `AtomicSwitch.SwapRemoveIsRemoval` | vmx.c:1006-1017 | moving the last entry into the hole removes exactly that MSR and creates no duplicate |
| `AtomicSwitch.AddDecides` | vmx.c:1020-1096 | an add decides what entry and exit load into its MSR, by list, EFER or PERF_GLOBAL_CTRL control, unless there is no room; no other MSR changes, and only PEBS_ENABLE is zeroed |
| `AtomicSwitch.ClearDecides` | vmx.c:961-1018 | a clear leaves its MSR alone on entry and exit and changes no other |
| `AtomicSwitch.RunsKeepOk` | vmx.c:1032-1096 | under any sequence of adds and clears both lists stay within capacity and host MSRs stay a subset of guest MSRs |
| `AtomicSwitch.ClearUndoesAdd` | vmx.c:980-1018 | clearing an MSR that was not switched before the add restores both lists and all controls |
| `AtomicSwitch.PerfSwitchesTheDifferingMsrs` | vmx.c:7170-7191 | with room for the differing ones, each MSR of the input is switched with its values iff they differ, by list or by dedicated control (HOST_IA32_EFER is kept), and no other MSR is touched |
| `AtomicSwitch.DistinctEntriesDecide` | vmx.c:7186-7191 | with distinct MSRs every entry of the input gets what it asks for |
| `AtomicSwitch.MsrList.FindSlot` | vmx.c:969-978 | the slot of an MSR, or none, and the list's length is the map's size |
| `AtomicSwitch.VcpuVmx.ClearAtomicSwitchMsr` | vmx.c:980-1018 | in place, map removal from both lists, counts in the VMCS equal to the lengths |
| `AtomicSwitch.VcpuVmx.AddAtomicSwitchMsr` | vmx.c:1032-1096 | in place, map update of one or both lists unless full, counts equal to the lengths |
| `AtomicSwitch.VcpuVmx.AtomicSwitchPerfMsrs` | vmx.c:7170-7191 | in place, the functional update for the whole input |
| `PreemptionTimer.ShlDivIsExact` | vmx.c:8076-8091 | overflow iff floor(a * 2^shift / divisor) needs more than 64 bits, otherwise that floor |
| `PreemptionTimer.HostDeltaIsRoundedDown` | vmx.c:8100-8118 | the host delta is the largest whose guest equivalent does not exceed the time from now to the guest's deadline less the advance |
| `PreemptionTimer.RefusedIffTooFar` | vmx.c:8100-8126 | -ERANGE iff that time, converted, does not fit 32 bits of ticks |
| `PreemptionTimer.HostDeadlineIsTheGuestDeadline` | vmx.c:8100-8131 | when the host reaches the armed deadline the guest's clock has not passed the guest's deadline less the advance, and one host cycle later it has reached it; with no more than the advance to wait the timer is armed at once and reported expired |
| `PreemptionTimer.AcceptedDeadlineIsKept` | vmx.c:7202-7212 | an accepted deadline that does not wrap loses no bit in the u32 cast at any later TSC, and the programmed timer expires at most at the deadline and less than two ticks before it |
| `PreemptionTimer.ArmedDeltaIsProgrammedIff` | vmx.c:8128 | arming and entering at once programs the accepted delta iff the sum is not 2^64-1 and does not wrap, or wraps within a tick |
| `PreemptionTimer.TopDeadlineIsDropped` | vmx.c:7202 | a concrete accepted deadline that is never programmed |
| `PreemptionTimer.EntryProgramsTheTimer` | vmx.c:7193-7217 | in every run, VM entry starts with zero for a requested exit and the maximum while disarmed, skipped write included, and the exit's expiry test holds iff a deadline was armed |
| `PreemptionTimer.EntryProgramsTheDeadline` | vmx.c:7202-7212 | in every run with ordered TSC readings whose last deciding request armed cleanly, every entry with a deadline armed programs exactly the remaining ticks, expiring at most at the deadline and less than two ticks before it |
| `PreemptionTimer.CancelHolds` | vmx.c:8133-8136 | once cancelled, every entry until the next arming programs the maximum unless an exit is requested |
| `PreemptionTimer.ImmediateExitHolds` | vmx.c:7971-7974 | a request for an immediate exit stands over every step until the next switch to the guest is prepared, and not after it |
| `PreemptionTimer.VcpuVmx.SetHvTimer` | vmx.c:8093-8131 | in place, the functional arming with its error and expiry results |
| `PreemptionTimer.VcpuVmx.CancelHvTimer` | vmx.c:8133-8136 | in place, disarmed and nothing else |
| `PreemptionTimer.VcpuVmx.UpdateHvTimer` | vmx.c:7193-7217 | in place, the functional programming on VM entry |
| `PmlLog.WritePrepends` | vmx.c:6216-6226 | the CPU refuses iff all 512 slots are live, and otherwise the address becomes the first live one |
| `PmlLog.Conservation` | vmx.c:6210-6239 | in every interleaving of guest writes and flushes, page g is marked or has its address g * 4096 live iff it was so at the start or that address was logged |
| `PmlLog.FlushMarksEverythingLogged` | vmx.c:6210-6239 | a flush anywhere leaves page g marked iff it was marked or g * 4096 was live or logged; the buffer is empty with room for the next write |
| `PmlLog.Vcpu.constructor` | vmx.c:4796-4799 | the index starts at the top of an empty buffer |
| `PmlLog.Vcpu.LogWrite` | vmx.c:6223-6226 | the CPU's part in place, with the 16-bit index wrapping below zero |
| `PmlLog.Vcpu.FlushPmlBuffer` | vmx.c:6210-6239 | the loop marks exactly the live entries and resets the index; the alignment warning never fires |
| `LbrBanks.UpdateKeepsEveryRead` | svm.c:1043-1058 | no LBR or DEBUGCTL read changes across switching, in or out of guest mode |
| `LbrBanks.UpdateSettles` | svm.c:1043-1058 | one call reaches what is wanted and a second does nothing |
| `LbrBanks.WriteReadsBack` | svm.c:3123-3133 | after a legal DEBUGCTL write with lbrv on, it reads back and the other MSRs are as before |
| `LbrBanks.WriteFailsIff` | svm.c:3123-3130 | a write fails iff a reserved bit is set with lbrv on, and then changes nothing |
| `LbrBanks.WriteTurnsRecordingOnIff` | svm.c:1043-1058 | after a legal write branches are recorded iff bit 0 of the value is set, or L1 asks for it in guest mode |
| `LbrBanks.MovedRegistersAreDirty` | svm.c:994-1030 | a bank that an update writes is marked dirty, and the clean bits and enable bits are otherwise kept |
| `LbrBanks.WriteIsSeenByTheCpuIff` | svm.c:3131-3132 | a legal write that leaves LBR virtualization on clears the VMCB's clean bit iff it moved the registers there, or the bit was clear |
| `LbrBanks.StaleDebugCtl` | svm.c:3131-3132 | a concrete write left behind a set clean bit |
| `LbrBanks.TwoBanksActAsOne` | svm.c:983-1058 | over any run of writes, updates and guest execution, the two banks refine a single one, and the branch MSRs are passed through iff the CPU keeps them |
| `LbrBanks.Vmcb.CopyLbrs` | svm.c:983-992 | all five registers move and the destination is marked dirty |
| `LbrBanks.VcpuSvm.EnableLbrv` | svm.c:994-1010 | in place and under aliasing, the functional enable |
| `LbrBanks.VcpuSvm.DisableLbrv` | svm.c:1012-1030 | in place and under aliasing, the functional disable |
| `LbrBanks.VcpuSvm.UpdateLbrv` | svm.c:1043-1058 | in place, the functional update |
| `LbrBanks.VcpuSvm.WriteDebugCtl` | svm.c:3123-3133 | in place, unimplemented without lbrv, refused for reserved bits, else the functional write |
| `LbrBanks.VcpuSvm.ReadLbrMsr` | svm.c:2876-2889 | reads come from the bank in charge |
| `NmiWindow.MaskedMeansIretExits` | svm.c:3905-3910 | in every reachable state, masked and not awaiting IRET completion implies IRET is intercepted |
| `NmiWindow.WindowIsNeverMissed` | svm.c:3885-3938 | once a window is requested in a reachable state, some exit stays armed however long the guest runs |
| `NmiWindow.WindowArmedIff` | svm.c:3905-3928 | requesting a window arms an exit iff masked without awaiting implies an IRET or STGI exit |
| `NmiWindow.ShutdownKeepsInvIff` | svm.c:2191-2214 | a shutdown exit keeps the invariant iff NMIs were not masked without awaiting |
| `NmiWindow.ShutdownLosesTheWindow` | svm.c:1400-1411 | a shutdown inside an NMI handler: the window requested next arms nothing |
| `NmiWindow.InjectedNmiStaysMaskedIff` | svm.c:4073-4082 | an NMI just injected is still masked after the next exit iff no older IRET is awaited at another RIP |
| `NmiWindow.EmulatedIretUnmasksEarly` | svm.c:3758-3775 | a concrete run to such a state |
| `NmiWindow.InjectedNmiStaysMasked` | svm.c:3599-3618 | an NMI injected with no IRET awaited stays masked, IRET intercepted, over every run without an IRET exit, a mask write or a reset |
| `NmiWindow.IretUnmasksOncePast` | svm.c:4073-4082 | over any guest execution and completions after an IRET exit, the mask is dropped and the wait ends iff some exit found RIP elsewhere than at the IRET |
| `NmiWindow.WindowExits` | svm.c:3905-3938 | a window request single-steps iff NMIs could be taken or an IRET is awaited and GIF is set, asks for STGI iff GIF is clear with vGIF, and changes nothing else |
| `NmiWindow.VcpuSvm.InjectNmi` | svm.c:3599-3618 | in place, the functional injection |
| `NmiWindow.VcpuSvm.IretInterception` | svm.c:2572-2586 | in place, awaiting from here, intercept dropped |
| `NmiWindow.VcpuSvm.CompleteInterrupts` | svm.c:4073-4082 | in place, unmasked once RIP has moved |
| `NmiWindow.VcpuSvm.SetNmiMask` | svm.c:3758-3775 | in place, mask and intercept together |
| `NmiWindow.VcpuSvm.EnableNmiWindow` | svm.c:3885-3938 | in place, early return, STGI intercept or single-step |
| `NmiWindow.VcpuSvm.SetGif` | svm.c:2412-2443 | in place, GIF and the STGI intercept |
| `NmiWindow.VcpuSvm.VcpuReset` | svm.c:1400-1411 | in place, INIT keeps mask, awaiting and IRET intercept |
| `NmiWindow.VcpuSvm.ShutdownInterception` | svm.c:2191-2214 | in place, the page cleared, then INIT |
| `RdtscHandler.NeverAhead` | vmx.c:6106-6110 | for any samples the value returned never exceeds the real counter |
| `RdtscHandler.StepIsExact` | vmx.c:6097-6110 | the addition never wraps 64 bits, and the clamp fires iff the real counter is behind the last value returned |
| `RdtscHandler.StepsBackIff` | svm.c:3259-3272 | the returned counter steps back iff the real one is behind the last value returned |
| `RdtscHandler.BackwardSample` | svm.c:3259-3272 | concrete samples 100 and 50 |
| `RdtscHandler.RateIsOneSixteenth` | vmx.c:6084-6114 | for non-decreasing samples with a nonzero first one, after n further exits 16 times the gain is between the real gain less 15n and the real gain |
| `RdtscHandler.OrderedStepAdvances` | svm.c:3246-3277 | for samples in order the clamp never fires and the counter does not go back |
| `RdtscHandler.CounterNeverGoesBack` | svm.c:3246-3277 | over a whole run in order, later values are never below earlier ones |
| `RdtscHandler.ZeroFirstSampleStalls` | vmx.c:6097-6105 | after a zero first sample the next exit gains nothing, so the lower bound holds iff the real gain is at most 15 |
| `RdtscHandler.RdtscCounter.HandleRdtsc` | vmx.c:6084-6114 | in place, the functional step; RDX and RAX are 32 bits each and recombine to the counter |
| `SmbiosLayout.SizesAreInRange` | smbios.c:1319-1320 | every DIMM size is positive and at most the device size |
| `SmbiosLayout.SizesAddUpIff` | smbios.c:1319-1324 | the sizes add up to RAM iff the rounding stays in 64 bits and the count in 32 |
| `SmbiosLayout.TooManyDimms` | smbios.c:1322-1324 | a concrete 2^32 DIMMs, counted as none |
| `SmbiosLayout.SizesAddUpOnMachines` | smbios.c:1319-1324 | up to 2 PiB, in devices of at least 1 MiB, the sizes always add up |
| `SmbiosLayout.TopOfMemoryIsLost` | smbios.c:1022-1025 | a concrete size within a KiB of 2^64 that reads back as nothing |
| `SmbiosLayout.Type16RoundTripIff` | smbios.c:1011-1031 | the capacity read back is RAM, rounded up to KiB below 2 TiB, iff the rounding stays in 64 bits |
| `SmbiosLayout.Type17RoundTrip` | smbios.c:1050-1058 | the size read back is the DIMM's rounded up to MiB iff it is below the encoder's limit, and the assertion stops larger ones |
| `SmbiosLayout.Type19CoversTheRange` | smbios.c:1088-1101 | the assertion passes iff the range has two bytes or more and does not wrap; the range read back covers it, exactly so for whole KiB |
| `SmbiosLayout.FieldsFit` | smbios.c:1011-1105 | every field of the three tables fits its width, and an extended field is zero unless its short field refers to it |
| `SmbiosLayout.DimmHandlesAreDistinct` | smbios.c:1326-1334 | for every DIMM count whose handles fit 16 bits, types 16, 17 and 19 never share a handle |
| `SmbiosLayout.HandlesAreDistinctIff` | smbios.c:1326-1353 | types 16, 17, 19 and 32 have handles of their own iff there are at most 1920 DIMMs |
| `SmbiosLayout.BuiltLayoutHasDistinctHandles` | smbios.c:1319-1353 | whenever the tables get built, and the sum in the final assertion does not wrap, those handles are distinct and the 16-bit device count is exact |
| `SmbiosLayout.BuiltTablesAreDistinct` | smbios.c:1326-1353 | in every layout that gets built, table i of type 17 carries handle 0x1100 + i and table j of type 19 handle 0x1300 + j plus what exceeds 512 DIMMs, all distinct |
| `SmbiosLayout.BuiltTablesDescribeTheDimms` | smbios.c:1338-1344 | and table i carries the size of DIMM i, rounded up to MiB, and a range that covers it at area i |
| `SmbiosLayout.SizesFitIff` | smbios.c:1050-1058 | every DIMM encodes iff the first one is below the encoder's limit |
| `SmbiosLayout.ThreeDimmsInTwoAreas` | smbios.c:1342-1344 | a concrete machine whose tables read past `mem_array` |
| `SmbiosLayout.DecodedSizesAddUp` | smbios.c:1338-1340 | with whole-MiB devices the sizes read back from the type 17 tables add up to RAM rounded up to MiB |
| `SmbiosLayout.SmbiosTables.AppendMemoryTables` | smbios.c:1319-1353 | the tables appended; they all get built iff the first DIMM is below the limit, every area is there and holds a range of two bytes or more below 2^64, and the last assertion passes; `mem_array` is read past its end iff it is shorter than the DIMM count and the sizes and ranges before pass |

## Left out

- Nested virtualization transitions, SEV and SEV-ES, AVIC, Hyper-V enlightenments, SGX and Intel PT: the code they depend on is in files that are not part of the repository.
- Inline assembly, VMRUN and VMLAUNCH, VMX on and off, MSR I/O: replaced by abstract hardware steps.
- Update in place in the posted-interrupt and VMCS protocols: they are step systems on values, because their subject is interleaving and not aliasing.
- NeverAhead: two RDTSC exits whose statements interleave are not modelled.
- Weaker memory orders: the barriers are taken to give the order their comments claim.
- The look-ahead pointer of `list_for_each_entry_safe`: a handler that unlinks the entry ahead leaves the walk on a dead link; the model lets the loop go on with any VMCS.
- The shadow VMCS of a loaded VMCS, the emergency reboot path and re-running `svm_hardware_enable`.
- `asid_generation` wrap-around: the source marks it FIXME (svm.c:3594); generations are unbounded here.
- BuiltLayoutHasDistinctHandles: excludes a wrap of the 32-bit sum in the final assertion, which takes more than 2^31 memory areas.
- NmiWindow: `disable_nmi_singlestep` on event injection, which forces an exit of its own, and vNMI.
- AcceptedDeadlineIsKept, EntryProgramsTheDeadline: cover TSC readings in order and deadlines that do not wrap; wrapping deadlines are the subject of ArmedDeltaIsProgrammedIff.
- Exception payloads, the activity state after HLT, and virtual-8086 mode in the Intel injection round trip.
- ModeSwitchRoundTrip: assumes no unrestricted guest, because `vmx_set_cr0` calls neither switch on one.
- Preemption inside a function that writes segments: the cache theorem is about whole calls.
- The Type 20 table's fields: it is built from fixed handles beside each Type 19 table and asserts the same condition.
- Global SMBIOS handle uniqueness: Type 8 reuses `T0_BASE` and Type 20 has no instance, so it is not a theorem.
- Dump functions, module parameters, allocation failures, option parsing, vendor strings and fixed identity constants.
- The shell build scripts, the sed patch script and the SeaBIOS patch.
