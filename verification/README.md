# Verified model of the Tessolve hypervisor core

A Dafny model of the parts of an ARM64 type-1 hypervisor that carry its safety case: stage-2
page tables and the VM life cycle, the trust / failover / intrusion-detection engine, the
round-robin scheduler, shared memory and message queues between VMs, streaming SHA-256 and
HMAC with their users (image measurement, section measurement, sealing), and the
device-tree builder. `dafny verify dfyconfig.toml` checks the whole project.

The code that the source updates in place is imperative here as well: classes with the
source's fields, loops where the source loops, arrays for its fixed buffers. Each such method
is proved equal to a function of the old state, and the properties are proved about those
functions: for every input, every sequence of calls or every run of events.

## How it is laid out

| files | source | what they hold |
|---|---|---|
| `Words`, `Octets` | types and bit operators | 8/32/64-bit words as bounded integers with wrap-around written out; OR and XOR bit by bit; big-endian words |
| `Stage2Spec`, `TableTree`, `Stage2` | `vre/mmu/stage2.c`, `arch/arm64/s2_debug.c` | one abstract page map per VM; the shape of the pool of tables; the pool itself, `array2` of words, refining the maps |
| `VmSpec`, `VmTables`, `TableBudget` | `core/vm/vm.c`, `boot/device_profile.c` | region lists and what they mean; building and clearing tables; how many pages that takes |
| `HvSpec`, `HvInv` | `core/vm/vm.c`, `vse/trust.c`, `vse/failover.c`, `vse/ids.c`, `vse/fault_detect.c` | the state machine of all entry points; the invariant of tables and vCPU pool and what each entry point does to it |
| `HvFrames`, `HvBase`, `HvCells`, `HvRuns` | the same | what every event keeps in any state; what keeps the invariant; the automaton one VM goes through in any state; safety over whole runs |
| `HvVcpus`, `CleanPeriod` | `core/vcpu/vcpu.c`, `vse/failover.c`, `vse/trust.c` | where vCPUs start and restart; when trust comes back, measured from the faults |
| `StormWindow`, `Detectors`, `HvMonitor`, `AuditLog` | `vse/ids.c`, `vse/fault_detect.c` | the detectors on their own; what they record over whole runs; the 128-record ring |
| `HvBoot`, `Hypervisor` | `boot/platform_init.c`, `boot/main.c` and the above | boot; the machine in place, from reset through any run |
| `Attest`, `BootCases` | `vse/trust.c`, `vse/guest_measure.c`, `vse/ids.c` | boot with the guest images measured; runs from boot that show what fails |
| `SchedSpec`, `Sched` | `core/sched/sched.c` | cyclic scans and waiting; the scheduler in place, interleaved with everything else |
| `Shmem`, `Ipc` | `guest/shmem/shmem.c`, `guest/ipc/ipc.c` | shared windows; message rings |
| `Sha256`, `ShaLaws`, `Hmac`, `Measure`, `Seal` | `vse/hmac.c`, `vse/guest_measure.c`, `vse/component_check.c`, `vse/seal.c` | FIPS 180-4 and FIPS 198-1, and the code that streams them; what the parts of SHA-256 mean |
| `FdtSpec`, `Fdt` | `boot/dtb/dtb_gen.c` | encoding and decoding of flattened device trees; the builder |

## Reading the contracts

- Running out of table pages parks the core for good (`vre/mmu/stage2.c:31-36`). A method that
  can reach that point says exactly when it does: `parked` if and only if the specified result
  needs more than 1024 table pages. Otherwise the new state is the specified one.
- A page is named by its key, the page number modulo 2^27: three 9-bit indices make guest
  addresses that differ by a multiple of 2^39 share an entry, and the maps say so.
- `Base` is the invariant of the running machine: every VM's map is what its regions say
  (or is cleared, when stopped), its windows own their tables, and the vCPUs taken are the
  boot ones plus one set per restart. It survives every event except a registration that
  wipes a restart count (`HvBase.EarlyExact`). `Sound` adds the fault and restart budgets.
- Containment, the table pool, revocation and the answer to storms need no invariant:
  `HvFrames.StepTame` and `HvCells.UnitStep` hold in every state, also when failovers fail.
- One entry point reads the clock once, as `now`; clocks in runs are arbitrary unless a lemma
  says they do not go back.

## Where the source does not do what it promises

Each of these is stated as an exact condition, a concrete case, or both.

- The storm window is described as sliding but restarts: eight faults within a second can go
  unseen, nine cannot (`StormWindow.EightFaultsMissed`, `BurstNoticed`, `NineFaultsAlert`).
- The total of the audit log is a 32-bit word; for 128 records after it comes round the log
  reads short (`AuditLog.AuditExact`).
- A guest image that fails its measurement at boot is quarantined but keeps running
  (`HvBoot.BootIsSound`, `Attest.BootJudges`), and the resume hypercall does not ask for the
  trust level (`HvFrames.ResumeTame`).
- The RTOS is registered for failover even when its image was rejected. A storm of a VM that
  is registered and quarantined is not answered at all, exactly then
  (`HvRuns.StormAnswered`), so the rejected RTOS runs on whatever it does
  (`BootCases.RejectedRtosGoesOn`) and its fault budget is not kept
  (`BootCases.BootBudget`; the exact condition is `HvRuns.BudgetExact`).
- A timer interrupt or a WFI leaves a revoked VM on the processor when no slot can run
  (`Sched.BlockedLeaves`).
- A manual failover lifts a revocation while restart budget is left
  (`HvRuns.RevocationLifted`), and registering anew wipes the restart count
  (`HvBase.EarlyExact`, `HvRuns.RegisterExact`).
- The rapid-escalation alert is meant not to fire again on later faults, but does on every
  fault that finds the VM still blocked (`Detectors.Refires`, and as a run from boot
  `BootCases.AlertForEveryFault`); and as the first fault is
  never forgotten otherwise, one that is two seconds old silences the alert for good
  (`Detectors.StaleForGood`).
- A poll looks before it promotes, so a promoted VM that is degraded again is no
  trust drop to the next poll (`HvMonitor.PromotionHidesFall`).
- Waiting is bounded per VM but not per slot, because a WFI passes over all slots of its VM
  (`SchedSpec.SlotFairness`, `BootSlots`).
- The shared-memory cursor can wrap round in a call that is then refused, and later shares
  overlap (`Shmem.GiveKeepsLayout`, `WrappedCursorOverlaps`).
- The overlap check of `vm_add_mem` looks at tables that are still empty when profiles are
  applied (`HvBoot.ProfileAccepted`).
- The overlap check steps by 4096 from where the range starts and so misses the last page of
  a misaligned range (`Stage2Spec.OverlapCheckExact`, `LastPageMissed`); nothing checks the
  alignment before.
- The overlap check itself does not come back for sizes within 4095 bytes of 2^64
  (`Stage2.PageTables.IsMapped`).
- The UART's compatible list lacks its last NUL (`FdtSpec.CutStringList`).
- A structure block that runs into the room left for the strings gives a broken blob and no
  error (`Fdt.Builder.Finish`).

## Model

| member | source | states |
|---|---|---|
| Stage2.PageTables.constructor | vre/mmu/stage2.c:24-27 | starts with an empty pool: no page handed out, no VM has a map |
| Stage2.PageTables.PtAlloc | vre/mmu/stage2.c:29-39 | the next pool page comes back zeroed and no other word of the pool changes; at 1024 pages the core parks instead |
| Stage2.PageTables.Create | vre/mmu/stage2.c:43-51 | a new VM gets a top-level table no other VM has, and no existing map changes; parks exactly when the pool is full |
| Stage2.PageTables.FindLeaf | vre/mmu/stage2.c:137-148 | following bits 30, 21 and 12 reaches the bottom table exactly for the 2 MB windows that were ever mapped, and its word is the page's descriptor or zero |
| Stage2.PageTables.MapOne | vre/mmu/stage2.c:86-113 | one page gets its descriptor, its missing tables are linked in from the pool, nothing else of any VM changes; parks exactly when the result needs more than 1024 tables |
| Stage2.PageTables.Map | vre/mmu/stage2.c:72-124 | refused exactly for a null VM or a misaligned address or size; otherwise the pool of tables becomes the page map `MapN` of the old one, or the core parks, exactly when that map needs more than 1024 table pages |
| Stage2.PageTables.Unmap | vre/mmu/stage2.c:126-156 | refused exactly for a null VM or misalignment, and then unchanged; otherwise the pool of tables becomes `UnmapN` of the old map, tables staying in place |
| Stage2.PageTables.IsMapped | vre/mmu/stage2.c:158-179 | true exactly when some page is mapped in which the start of the range plus a multiple of 4096 below its size lies; if none is, false, except for sizes within 4095 bytes of 2^64, for which the 64-bit loop never comes back; pool unchanged |
| Stage2Spec.StepsFind | vre/mmu/stage2.c:158-179 | what the check finds is always an address of the range; for ranges that end in a page a step comes to, and those longer than 2^39 - 4096 bytes, it finds every mapped one |
| Stage2Spec.LastPageMissed | vre/mmu/stage2.c:158-179 | for every other range there are tables that map an address of it, in its last page, and the check says no |
| Stage2Spec.OverlapCheckExact | core/vm/vm.c:98-106 | so the overlap check is right for all tables exactly for those ranges, aligned ones among them |
| Stage2.PageTables.Walk | arch/arm64/s2_debug.c:8-48 | the walk of the three levels agrees with the abstract map: frame and offset of the mapped page, or nothing exactly when the page is not mapped |
| Stage2Spec.MapNLeaf | vre/mmu/stage2.c:86-113 | for all VMs and pages: mapping a range gives exactly the covered pages of that VM the frame of the last position that lands on them (ranges may wrap round at 2^39 and at 2^64); all other pages of all VMs are unchanged |
| Stage2Spec.UnmapNLeaf | vre/mmu/stage2.c:134-150 | for all VMs and pages: unmapping removes exactly the covered pages of that VM |
| Stage2Spec.CoversPlain | vre/mmu/stage2.c:86-92 | inside the 2^39 window the covered pages are exactly the range's own page numbers, each with the matching frame |
| Stage2Spec.MapNWindows | vre/mmu/stage2.c:93-109 | mapping a range adds exactly the 1 GB and 2 MB windows of its pages to those that own a table |
| Stage2Spec.UnmapNTables | vre/mmu/stage2.c:134-155 | unmapping keeps every table page and only removes leaves |
| Stage2Spec.PageDescFields | vre/mmu/stage2.c:111-112 | for frames below 2^48 and clean flags the ORed fields of a descriptor do not collide and a walk reads frame and offset back |
| TableTree.AddRootCells | vre/mmu/stage2.c:43-51 | linking a top-level table keeps the heap shape: every pool page has one owner and one parent entry, no two VMs share a table |
| TableTree.AddMidCells | vre/mmu/stage2.c:95-101 | the same for linking a second-level table |
| TableTree.AddBottomCells | vre/mmu/stage2.c:103-109 | the same for linking a third-level table |
| TableTree.SetLeafCells | vre/mmu/stage2.c:111-112 | the same for writing a leaf; only that page's word changes |
| TableTree.ClearLeafCells | vre/mmu/stage2.c:146-148 | the same for clearing a leaf |
| VmTables.MapRegionList | core/vm/vm.c:138-163 | regions are mapped in list order up to the first misaligned one, which is reported; parks exactly when the tables do not fit |
| VmTables.BuildTables | core/vm/vm.c:138-171 | the table part of vm_finalize, in place: equals `Built`, with the error of the first refused region |
| VmTables.ClearTables | core/vm/vm.c:219-225 | the table part of vm_stop, in place: equals `Cleared` |
| VmSpec.ExpectedIsLast | core/vm/vm.c:138-163 | what the region list alone says about a page is the descriptor of the last region that covers it, and nothing exactly when none does |
| VmSpec.AttributeBits | core/vm/vm.c:141-156 | every field of a region's descriptor bits: device or write-back by the I/O flag, execute-never unless executable, read-write, inner shareable, accessed |
| VmSpec.LastRegionWins | core/vm/vm.c:138-171 | after vm_finalize, for every list of aligned regions: each page translates by the last region that covers it with that region's attributes, except the one extra Linux page; uncovered pages and all other VMs are as before |
| VmSpec.WalkReadsRegion | core/vm/vm.c:138-163 | a walk adds the offset inside the last covering region to its physical base; the descriptor carries that region's device, write-back and execute-never bits |
| VmSpec.WalkReadsExtra | core/vm/vm.c:165-171 | a walk of the extra page of a Linux VM at 0x2BF000 goes to offset 0x2BF000 of its first region's memory, write-back and executable |
| VmSpec.ClearedLeaf | core/vm/vm.c:219-225 | for every region list, after vm_stop exactly the pages covered by some region that unmapping accepts are gone; misaligned regions leave theirs |
| VmSpec.BuiltWindows | core/vm/vm.c:138-171 | vm_finalize adds exactly the windows of the regions and of the extra page |
| VmSpec.RebuildTakesNoPage | core/vm/vm.c:132-231 | for every region list, stopping and finalizing again takes no further table page |
| VmSpec.RebuildRestores | core/vm/vm.c:132-231 | finalize, stop, finalize gives exactly the tables of the first finalize, including mappings outside the regions |
| TableBudget.PoolAccounting | vre/mmu/stage2.c:25-156 | over every sequence of creates, maps and unmaps: pages used = one per VM + distinct 1 GB windows + distinct 2 MB windows ever mapped |
| TableBudget.BootProfileFits | boot/device_profile.c:38-199 | the shipped three-VM memory profile needs exactly 964 of the 1024 pages |
| Hypervisor.Hypervisor.VmCreate | core/vm/vm.c:60-91 | new VM with the next id and a fresh top-level table, NoMem exactly when four exist; parks exactly when no table page is left |
| Hypervisor.Hypervisor.VmAddMem | core/vm/vm.c:93-117 | Inval for size 0, NoMem at eight regions, Busy exactly when the overlap check finds a mapped page, otherwise appended; does not come back where the overlap check does not |
| Hypervisor.Hypervisor.AddEntries | boot/device_profile.c:209-263 | the profile table, entries of all VMs interleaved: entries of absent VMs are skipped, the first error ends it and is returned |
| Hypervisor.Hypervisor.VmStop | core/vm/vm.c:211-231 | vCPUs stopped, region pages unmapped, state Stopped; no effect on a stopped VM; everything else unchanged |
| Hypervisor.Hypervisor.TakeVcpus | core/vm/vm.c:173-190 | takes the VM's vCPUs one by one from a pool of 16 that is never given back; with all of them the VM is Ready, otherwise NoMem with those taken so far |
| Hypervisor.Hypervisor.VmFinalize | core/vm/vm.c:132-193 | tables then vCPUs, with each error and what it leaves behind; parks exactly when the tables do not fit |
| Hypervisor.Hypervisor.TrustQuarantine | vse/trust.c:138-171 | nothing if already blocked; otherwise quarantined, counted, suspended, and failover is attempted |
| Hypervisor.Hypervisor.ReportFault | vse/trust.c:232-261 | ignored when revoked; counts, degrades at 5, quarantines at 15 |
| Hypervisor.Hypervisor.PromoteTick | vse/trust.c:271-291 | every Degraded VM that has been clean for 30 s is Trusted again with its counter cleared, no other; returns how many |
| Hypervisor.Hypervisor.DoFailover | vse/failover.c:74-163 | with the budget of three spent the VM is revoked and Busy returned; otherwise stop, rebuild, relaunch with the count one higher |
| Hypervisor.Hypervisor.StormStage | vse/ids.c:127-163 | restarts the window when it is over; at its fifth fault alert and enforcement |
| Hypervisor.Hypervisor.NotifyFault | vse/ids.c:95-177 | the four stages in order; nothing for a bad id or before init |
| Hypervisor.Hypervisor.Poll | vse/ids.c:183-217 | scan of all VMs for level drops, promotion, heartbeat record; returns how many VMs had dropped |
| Hypervisor.Hypervisor.Handle | vse/fault_detect.c:54-119 | any event does what the state machine `Step` says; while every VM owns the tables its regions need, none parks the core, in whatever state and whether its failover succeeds or fails; an admissible event keeps a sound state sound |
| Hypervisor.Hypervisor.Serve | vse/fault_detect.c:54-119 | any run of events at all, in place, equals the fold of `Step` and never parks; an admissible run keeps a sound state sound |
| Hypervisor.BringUp | boot/platform_init.c:120-187 | boot from reset with any profile: parks exactly when the profile needs more than 1024 table pages, otherwise returns the first error of platform_init or ends in the state `Boot`, with tables and vCPU books in order, and sound exactly when the RTOS image is genuine |
| Hypervisor.Hypervisor.LaunchAll | boot/platform_init.c:152-167 | all VMs are finalized and started in order up to the first error, which is returned; parks exactly when the tables do not fit |
| Hypervisor.Hypervisor.SwitchOn | boot/main.c:154-236 | trust, fault detection, monitor and failover switched on in this order, then the RTOS registered with its backup |
| Hypervisor.Hypervisor.TrustInit | vse/trust.c:62-97 | every VM Trusted, or Quarantine if its image did not pass; absent VMs Unknown |
| Attest.MeasureAll | vse/trust.c:70-91 | the VMs whose image passes: all but those with a golden value that the image does not hash to |
| Attest.PowerOn | boot/main.c:154-236 | from reset through the measurements to the running machine, for any profile, images and golden values |
| Attest.BootJudges | vse/trust.c:76-91 | after boot a VM is Quarantine exactly when its first descriptor is provisioned and the image in memory does not hash to its golden value, otherwise Trusted; it runs in both cases |
| Hypervisor.Hypervisor.MonitorInit | vse/ids.c:70-88 | log and counters cleared, every window opened now, levels as they are |
| HvBoot.ProfileAccepted | core/vm/vm.c:93-117 | before the first finalize the overlap check sees empty tables: a profile is taken as it stands exactly when no region is empty or near 2^64 in size and no VM gets more than eight, overlapping or not |
| HvBoot.ProfiledIsCreated | boot/platform_init.c:62-147 | creating the three VMs and applying an interleaved profile gives each VM the list of its own entries, exactly for the acceptable profiles |
| HvBoot.AllLaunched | boot/platform_init.c:149-167 | all three VMs start exactly when every region is aligned; then four vCPUs are out and the tables are those of the three region lists |
| HvBoot.PlatformExact | boot/platform_init.c:120-187 | platform_init succeeds exactly for acceptable profiles of aligned regions |
| HvBoot.BootMaps | boot/platform_init.c:120-187 | after boot each of the three maps is the one its own region list describes |
| HvBoot.BootIsSound | boot/main.c:154-236 | whatever the images, boot ends with all VMs running and tables and vCPU books in order; the invariant with the budgets holds exactly when the RTOS image is genuine, because it is registered even in quarantine; blocked VMs are not running exactly when every image is genuine |
| BootCases.BootBudget | boot/main.c:154-236 | over all runs from boot the fault budgets of Linux and Android are kept whatever the images, and that of the RTOS exactly when its own image is genuine |
| BootCases.RejectedRtosGoesOn | vse/trust.c:79-83 | after boot with a rejected RTOS image, any number of its faults, the storm alert recorded among them, leave it running, quarantined and never restarted, with all of them on record |
| BootCases.BootVcpus | core/vcpu/vcpu.c:21-61 | boot starts the four vCPUs at the entry points of the three images with their device trees, by value, registers the RTOS with its backup, by value, and has no fault on record |
| BootCases.RtosRestartsAtEntry | boot/main.c:233-236 | after boot and any run that does not register the RTOS anew, whichever event restarts it starts its new vCPU at 0x8000 |
| BootCases.StormRestartsRtos | vse/ids.c:127-163 | five DMA violations at once, from boot on, leave the RTOS restarted, degraded and running at 0x8000 |
| BootCases.FaultLadder | vse/trust.c:252-259 | from boot on, any faults of a VM without backup that raise no storm alert: trusted up to the fourth, degraded from the fifth, quarantined and suspended from the fifteenth |
| BootCases.CleanFromBoot | vse/trust.c:271-291 | the same as for every run, from boot, with no fault counting as a fault at time 0 |
| HvBoot.BootedRunFits | vre/mmu/stage2.c:29-39 | after boot with the shipped profile, whatever the images, and after every run at all from there exactly 964 table pages are in use |
| HvInv.VcpusLeft | core/vm/vm.c:175-188 | a VM always finds the vCPUs for all the restarts it has left in the pool of 16 |
| HvInv.RestartMove | vse/failover.c:74-163 | a failover with budget left succeeds and changes only that VM: running, Degraded, count one higher, maps as its regions say, tables unchanged |
| HvFrames.StepTame | vse/failover.c:74-196 | every event, in any state with the trust engine up: VMs keep their identity, no table page is taken where VMs own theirs, a blocked VM is let run only by resuming it, a spent VM comes back only by registering it anew; also when a failover fails for lack of vCPUs |
| HvBase.StepBase | vse/trust.c:138-291 | every event keeps the page maps of all VMs as their regions say and the books of the vCPU pool, if a registration comes before the VM's first restart |
| HvBase.EarlyExact | vse/failover.c:48-71 | a registration keeps them exactly when the VM has not been restarted |
| HvRuns.StepKeeps | vse/trust.c:138-291 | every admissible event keeps the whole invariant, from which the budgets of all VMs are kept |
| HvRuns.RunKeeps | vse/trust.c:138-291 | the same over every run with admissible registrations, from any sound state, in any order of events and any clock readings |
| HvRuns.FaultBudget | vse/trust.c:232-261 | one VM, whatever the others have come to: over every run in which registrations come before restarts and its own are admissible, trusted implies fewer than 5 faults, a registered VM that is not revoked has fewer than 15 + restarts, and no registered VM ever more than 18 |
| HvRuns.TrustedBudget | vse/trust.c:232-291 | over every run at all, from every state that has it: a trusted VM has fewer than 5 faults |
| HvRuns.BudgetExact | vse/trust.c:232-261 | the budget of a VM is kept over all those runs exactly if it is not registered in quarantine and its faults and restarts are within bounds now, one fault more being allowed while it is revoked |
| HvRuns.QuarantinedGoesOn | vse/trust.c:243-255 | from any state, any run of faults of a quarantined VM, storms included, changes nothing about it but the count of faults |
| HvRuns.VcpuPoolSuffices | vse/failover.c:80-132 | over every run in which registrations come before restarts: vCPUs taken are exactly the boot ones plus one set per restart, at most 16, and a manual failover succeeds exactly while budget is left |
| HvRuns.TablePoolFixed | vse/failover.c:96-132 | over every run at all, from any state in which VMs own their tables, the number of table pages stays the same |
| HvRuns.BlockedNeverRuns | vse/trust.c:138-224 | over every run without a resume of a blocked VM, from any contained state, failed failovers included: a quarantined or revoked VM is not running between steps |
| HvFrames.ResumeTame | core/vm/vm.c:254-267 | the resume hypercall ignores trust: it breaks containment exactly when the VM is suspended and blocked |
| HvRuns.RegisterExact | vse/failover.c:48-71 | registering wipes the restart count; it keeps the invariant exactly when the count is 0, the VM is not quarantined and its faults are within the bound |
| HvCells.UnitStep | vse/trust.c:138-291 | in any state at all: what any event does to any one VM's level, faults, registration, restart count and run state is one small automaton, with failovers that fail for a misaligned region or for lack of vCPUs; and with the count of quarantines and the vCPUs left |
| HvCells.StepCell | vse/failover.c:74-163 | with tables and vCPU books in order failovers never fail, and the automaton is the one without failures |
| HvRuns.SpentForGood | vse/failover.c:80-85 | from any state: a VM revoked with its budget spent stays revoked and stopped over every run that does not register this VM anew |
| HvRuns.RevocationLifted | vse/failover.c:184-196 | in any state, a revocation is lifted exactly by a manual failover of that VM with failover up, the VM registered, budget left, regions aligned and enough vCPUs left; by no other event |
| HvRuns.RevokedStays | vse/trust.c:240-241 | over every run without such a failover a revoked VM stays revoked |
| HvRuns.StormAnswered | vse/ids.c:127-163 | in any state, right after the fault that raises the storm alert: a VM without failover is blocked; one with failover is revoked or was restarted once more exactly if it was not quarantined before |
| HvVcpus.StepSteady | core/vm/vm.c:173-190 | in any state, no event gives a vCPU back, changes where an existing one goes on, or lets one run; it may stop them |
| HvVcpus.StopVmStops | core/vm/vm.c:216-217 | stopping a VM stops exactly its own vCPUs |
| HvVcpus.RestartEntry | vse/failover.c:134-143 | in any state, whichever event restarts a VM so that it runs: it has new vCPUs, one or for Android two, the first ready at the registered entry with argument 0, the others where the VM itself starts with its device tree |
| HvVcpus.RegistrationHeld | vse/failover.c:48-71 | over every run a VM's backup record is what its last accepted registration in the run said, field by field |
| HvVcpus.FailoverEntry | vse/failover.c:134-143 | over every run: a restarted VM starts at the entry of its last accepted registration |
| HvVcpus.TriggerEntry | vse/failover.c:184-196 | a manual failover that reports success leaves the VM running on such vCPUs |
| CleanPeriod.PromotedExactly | vse/trust.c:271-291 | over every run: a poll makes a degraded VM trusted, with its faults forgotten, exactly if its last fault that found it not revoked is not in the future and at least 30 s ago, the time taken from the fault itself |
| CleanPeriod.OnlyPollsTrust | vse/trust.c:121-291 | in any state, nothing but a poll ever makes a VM trusted that was not |
| CleanPeriod.LastFaultOnFile | vse/trust.c:243-247 | over every run a trust record tells time, type and address of that fault |
| CleanPeriod.TotalCounts | vse/trust.c:247 | over every run the total counts the faults that found their VM not revoked, in 32-bit words |
| CleanPeriod.ChangeDated | vse/trust.c:127-132 | in any state, an event that changes a level leaves its time on record |
| StormWindow.AlertRate | vse/ids.c:127-163 | with a clock that does not go back, each window raises at most one alert, so three alerts span more than a second |
| StormWindow.FiveMeansAlert | vse/ids.c:127-163 | a window that has counted five faults has raised its alert |
| StormWindow.BurstNoticed | vse/ids.c:127-163 | a burst within one second raises an alert exactly when it brings the window open before from fewer than five faults to five, or has five faults for the next window |
| StormWindow.NineFaultsAlert | vse/ids.c:127-163 | nine faults within a second always lead to an alert |
| StormWindow.EightFaultsMissed | vse/ids.c:127-163 | eight faults within four microseconds can raise no alert: the window does not slide |
| HvMonitor.StormsAreAlerts | vse/ids.c:95-177 | over every run, the storm records of a VM are exactly the alerts of its window at the times of its faults |
| HvMonitor.StormRate | vse/ids.c:127-163 | over every run with a clock that does not go back, three storm records of one VM span more than a second |
| HvMonitor.FaultsOnRecord | vse/ids.c:104-105 | over every run, the fault records of a VM are exactly the memory faults and DMA violations charged to it, in order, with type and address |
| HvMonitor.RepeatsOnRecord | vse/ids.c:111-125 | over every run from any state, the repeat records of a VM are exactly the faults at which the unbroken row of its fault type counts three, in 32-bit words |
| HvMonitor.ThirdInARow | vse/ids.c:111-125 | from boot on, a fault adds a repeat record exactly when the faults so far end in a row of three of its type, and not four (or three more than a multiple of 2^32) |
| Detectors.StreakExact | vse/ids.c:111-125 | the count of the row is the length of the last run of equal types, for every list of faults |
| HvMonitor.RapidsOnRecord | vse/ids.c:165-176 | over every run, the escalation records of a VM are exactly the faults that leave it blocked within two seconds of the first fault since the last such record |
| Detectors.EscalationFires | vse/ids.c:165-176 | a VM whose faults first block it within two seconds of its first fault is recorded at that fault, with the time between |
| Detectors.Refires | vse/ids.c:165-176 | after an alert the next fault alerts again exactly if the VM is blocked then and the clock is not zero, against what clearing the first fault is for |
| BootCases.AlertForEveryFault | vse/ids.c:165-176 | a VM without backup hammered with faults from boot on gets a rapid-escalation record for every single fault from the fifth on |
| Detectors.StaleForGood | vse/ids.c:107-109 | with a first fault two seconds old no later escalation is ever recorded |
| HvMonitor.FallsOnRecord | vse/ids.c:191-204 | over every run, the trust-drop records of a VM are exactly the polls that find a worse level than the poll before, if that was known |
| HvMonitor.EnforcementsOnRecord | vse/ids.c:150-156 | over every run, the enforcement records of a VM are exactly its storm alerts that found it not blocked |
| HvMonitor.HeartbeatsOnRecord | vse/ids.c:210-213 | over every run, the heartbeat records are exactly the polls, each with the number of faults the trust engine had counted |
| HvMonitor.LastPollDated | vse/ids.c:214 | in any state, exactly a poll sets the time of the last poll |
| HvMonitor.RecordsBooked | vse/ids.c:26-42 | over every run, every record ever written has the severity of its kind, a trust drop carries the level it fell to, a rapid escalation a level that blocks; and the three counters number the records of their class |
| HvMonitor.PromotionHidesFall | vse/ids.c:191-208 | after a poll that promotes a VM, the next finds a drop exactly if the VM is then quarantined or revoked: falling back to Degraded goes unseen |
| HvMonitor.StatsCount | vse/fault_detect.c:54-119 | over every run, memory faults, DMA violations and unrouted interrupts are each counted by their own counter and all by the total, in 32-bit words |
| HvMonitor.AlertsBalance | vse/ids.c:95-217 | over every run: alerts = anomalies + enforcements, as 32-bit words |
| AuditLog.AuditExact | vse/ids.c:220-236 | reading entry i gives the i-th oldest of the last 128 records for all i, exactly unless the 32-bit total has just come round to less than 128 |
| AuditLog.Ring.Append | vse/ids.c:26-42 | the ring keeps the last 128 records of the history |
| AuditLog.Ring.Count | vse/ids.c:220-224 | how many records the log says it holds |
| AuditLog.Ring.At | vse/ids.c:226-236 | the i-th oldest of the last 128 records, nothing exactly beyond the count |
| Shmem.Sharing.Map | guest/shmem/shmem.c:22-46 | each refusal in order, memory taken from the pool even if the map is refused, both VMs mapped; parks exactly when the tables do not fit |
| Shmem.Sharing.Unmap | guest/shmem/shmem.c:48-60 | the first active share at that address is unmapped from both VMs and deactivated; NotFound exactly when there is none |
| Shmem.TakenOnRecord | guest/shmem/shmem.c:22-46 | a call that succeeds and returns takes exactly what it asked for from where the pool stood, inside the pool, and has that on record; one that fails has nothing on record |
| Shmem.GiveKeepsLayout | guest/shmem/shmem.c:22-32 | a call that returns keeps all shares inside the pool and one after the other, exactly unless the cursor wraps round 2^64 to below the last share |
| Shmem.SharesStayApart | guest/shmem/shmem.c:22-60 | for every mix of calls with no size near 2^64, refused ones included, and other events: shares are pairwise disjoint and inside the pool |
| Shmem.CallsTame | guest/shmem/shmem.c:22-60 | over every mix of shared-memory calls and other events VMs keep the tables their own regions need, and no blocked VM runs unless one is resumed |
| Shmem.FailoverNeverParks | guest/shmem/shmem.c:36-43 | after any such mix no failover or other event takes a table page, however little of the pool sharing has left |
| Shmem.WrappedCursorOverlaps | guest/shmem/shmem.c:26-32 | three calls, the second refused, after which one range is handed out twice |
| Shmem.HugeMapParks | guest/shmem/shmem.c:38-39 | a map of 524800 pages or more always exhausts the table pool |
| Shmem.SharedFrames | guest/shmem/shmem.c:32-43 | right after success both VMs translate every page of the window to the same physical page, page i of the share, write-back, writable and executable |
| Shmem.SharingIsLocal | guest/shmem/shmem.c:32-43 | no other page of any VM changes |
| Shmem.TakeBackUndoes | guest/shmem/shmem.c:48-60 | unmapping after mapping leaves neither VM a page of the window and every other page as it was before |
| Sched.Scheduler.AddSlot | core/sched/sched.c:179-190 | appended, slice 1000 us for 0; ignored at 16 slots |
| Sched.Scheduler.Init | core/sched/sched.c:156-177 | one slot for every vCPU of every VM in order, up to sixteen, half a second for the RTOS and two seconds for the others |
| Sched.BootedSlots | core/sched/sched.c:156-177 | the four slots of the booted machine, by value |
| Sched.Scheduler.SetSlice | core/sched/sched.c:196-213 | exactly the VM's slots get the slice clamped to 100 us .. 1 s; NotFound exactly if it has none |
| Sched.Scheduler.SlotVcpu | core/sched/sched.c:52-61 | the slot's vCPU exactly if its VM runs and the vCPU is there and not stopped |
| Sched.Scheduler.Forward | core/sched/sched.c:78-87 | the do-while scan finds what `Pick` says and stops at the start otherwise |
| Sched.Scheduler.Switch | core/sched/sched.c:107-152 | previous vCPU ready, next running and current, monitor polled at every eighth change of VM |
| Sched.Scheduler.OnTimer | core/sched/sched.c:224-240 | next runnable slot dispatched with its slice, 10 ms exactly if there is none |
| Sched.Scheduler.OnWfi | core/sched/sched.c:255-293 | the program counter passes the WFI; next runnable slot of another VM, of any VM if there is none |
| Sched.MoveElr | core/sched/sched.c:255-264 | a WFI moves the program counter of the vCPU that executed it by four; no timer, no other WFI and no event changes the program counter or argument of any vCPU there is |
| Sched.ElrOverRuns | core/sched/sched.c:255-264 | over every run a vCPU goes on where it started plus four for each WFI it executed |
| Sched.HandedOver | core/vcpu/vcpu.c:87-116 | when a slot can run, its vCPU is current and running afterwards and the one before is ready again |
| Sched.OneRunsAlways | core/vcpu/vcpu.c:87-116 | over every run no vCPU but the current one is running |
| Sched.TimerSlice | core/sched/sched.c:224-293 | the timer is set to the slice of the slot that is current now, or to 10 ms exactly if no slot can run |
| Sched.EveryEighthPolls | core/sched/sched.c:134-144 | a scheduling point that puts another VM on the processor counts, and exactly every eighth of them polls the monitor |
| SchedSpec.PickNearest | core/sched/sched.c:78-87 | the scan finds the eligible slot cyclically nearest ahead, whenever one is eligible |
| SchedSpec.ChooseNearest | core/sched/sched.c:224-293 | a timer takes the nearest runnable slot; a WFI the nearest of another VM, and one of the same VM only if no other can run |
| SchedSpec.BoundedWaiting | core/sched/sched.c:224-293 | a VM that is not running and keeps a runnable slot is dispatched within (slots - 1) turns, for every mix of timer and WFI turns and every behaviour of the other slots |
| SchedSpec.Starves | core/sched/sched.c:272-280 | for every length a sequence of turns in which a slot can always run and is never dispatched |
| SchedSpec.SlotFairness | core/sched/sched.c:255-293 | a slot that can always run is served within any bound of at least the number of slots, exactly if no slot of another VM lies, going round, between it and another slot of its own VM |
| SchedSpec.BootSlots | core/sched/sched.c:156-177 | of the four boot slots exactly the second vCPU of the third VM can be starved |
| Sched.RunsAreTurns | core/sched/sched.c:224-293 | every run of the whole machine, events and scheduling interleaved, moves through the slots as its scheduling points say |
| Sched.WaitingInRuns | core/sched/sched.c:224-293 | in every run of the whole machine with (slots - 1) scheduling points, a VM that was not running and whose slot can run at each of them is the running VM at some moment |
| Sched.MovesTame | core/sched/sched.c:107-293 | every run of events and scheduling, from any state: no table page is taken, and no blocked VM runs unless one is resumed |
| Sched.BlockedNeverPicked | core/sched/sched.c:52-61 | in every run of events and scheduling without a resume of a blocked VM, from any contained state, timer and WFI never dispatch a quarantined or revoked VM |
| Sched.BlockedLeaves | core/sched/sched.c:224-293 | in any contained state, after a timer interrupt or a WFI the VM on the processor is blocked exactly if it was before and no slot can run |
| Sched.MovesKeep | core/sched/sched.c:107-293 | every run of events and scheduling keeps maps and vCPU books with early registrations, and the budgets with admissible ones |
| Sha256.CompressBlock | vse/hmac.c:70-97 | the loops compute message schedule and 64 rounds as section 6.2.2 of FIPS 180-4 defines them |
| Sha256.PaddingIsLeast | vse/hmac.c:142-174 | the padding is the least that makes whole blocks (section 5.1.1) |
| ShaLaws.PaddingByIndex | vse/hmac.c:142-174 | the padded message by index: the message, 0x80, zeros, and in the last eight bytes, most significant first, the length of the message in bits (section 5.1.1 of FIPS 180-4) |
| ShaLaws.ChChooses | vse/hmac.c:48 | the first word chooses, bit by bit, between the other two |
| ShaLaws.MajDecides | vse/hmac.c:49 | where two words agree the majority is theirs, elsewhere the third decides |
| ShaLaws.Ep0Bits | vse/hmac.c:50 | bit i is the parity of bits i + 2, i + 13 and i + 22, coming round |
| ShaLaws.Ep1Bits | vse/hmac.c:51 | bit i is the parity of bits i + 6, i + 11 and i + 25, coming round |
| ShaLaws.Sig0Bits | vse/hmac.c:52 | bit i is the parity of bits i + 7 and i + 18, coming round, and i + 3 if there is one |
| ShaLaws.Sig1Bits | vse/hmac.c:53 | bit i is the parity of bits i + 17 and i + 19, coming round, and i + 10 if there is one |
| ShaLaws.WordBig | vse/hmac.c:56-60 | a word of a block is what its four bytes were written from, most significant first |
| ShaLaws.DigestBig | vse/hmac.c:63-67 | the digest is the eight words in order, each with its most significant byte first |
| ShaLaws.KRoots | vse/hmac.c:19-36 | the round constants are the first 32 bits of the fractional parts of the cube roots of the first 64 primes |
| ShaLaws.IVRoots | vse/hmac.c:38-42 | the initial hash value likewise from the square roots of the first eight |
| Sha256.Hasher.Update | vse/hmac.c:109-140 | any chunk appends to the message: whole blocks absorbed, the rest in the buffer |
| Sha256.Hasher.Final | vse/hmac.c:142-174 | the digest is the hash of the padded message, with one or two padding blocks |
| Sha256.HashPieces | vse/hmac.c:101-174 | for every split of a message into chunks, streaming gives the hash of the whole |
| Hmac.MakeKeyBlock | vse/hmac.c:186-196 | keys over 64 bytes hashed, shorter ones zero-padded (section 4 of FIPS 198-1) |
| Hmac.KeyPadBits | vse/hmac.c:186-205 | the padded key bit by bit: a short key, or the hash of a long one, followed by zeros, with every bit turned where the pad byte has a one |
| Hmac.MacOfTurned | vse/hmac.c:178-238 | whichever two blocks are the key, filled up with zeros, with its bits turned by 0x5C and by 0x36: the MAC is the hash of the first followed by the hash of the second followed by the message |
| Hmac.Context.Init | vse/hmac.c:178-218 | Inval exactly for an empty key; otherwise both pads absorbed |
| Hmac.Context.Update | vse/hmac.c:220-223 | appends to the message |
| Hmac.Context.Final | vse/hmac.c:225-238 | the MAC of section 4 of FIPS 198-1 over all that was appended |
| Hmac.MacOf | vse/hmac.c:240-253 | one-shot HMAC, Inval exactly for an empty key |
| Hmac.Verify | vse/hmac.c:263-269 | true exactly when all bytes agree |
| Measure.HashRegion | vse/guest_measure.c:88-99 | hashing in 4096-byte pieces equals hashing the whole region |
| Measure.Judge | vse/guest_measure.c:138-165 | Learn without a golden value, Match exactly when the image hashes to it |
| Measure.MeasureGuest | vse/guest_measure.c:129-166 | Skip exactly for an unknown name; the first descriptor of the name decides: Mismatch exactly when it is provisioned and the image does not hash to the golden value, Match exactly when it does |
| Measure.MeasureText | vse/component_check.c:116-161 | the MAC of the section, Inval exactly for an empty range |
| Measure.MeasureRodata | vse/component_check.c:135-158 | the MAC of the section with the golden table cut out; Inval exactly if the table is not inside |
| Measure.SeenExactly | vse/component_check.c:135-158 | the measured bytes change with every byte of the section outside the golden table and with no other |
| Measure.GoldenEditUnseen | vse/component_check.c:135-158 | writing any golden table leaves the measurement unchanged |
| Measure.IsBlank | vse/component_check.c:196-202 | true exactly for 32 zero bytes |
| Seal.ComputeSealKey | vse/seal.c:39-65 | bind tag and seal key from master key and configuration |
| Seal.ComputeMac | vse/seal.c:68-91 | the MAC over magic, length, bind tag and the full payload area |
| Seal.SealData | vse/seal.c:112-146 | Inval exactly when too long or not ready; otherwise the sealed blob |
| Seal.SealedFields | vse/seal.c:128-133 | the fields of a sealed blob by value: magic word, length, the MAC of the configuration as tag, the payload filled up with zeros |
| Seal.SealedMac | vse/seal.c:39-91 | what is authenticated, byte by byte, and under which key |
| Seal.Unseal | vse/seal.c:149-198 | accepts exactly when ready, magic and length are right and the recomputed MAC matches, and there is room; tells the needed size when only room is lacking |
| Seal.RoundTrip | vse/seal.c:201-233 | seal then unseal returns the payload for every length up to 256 exactly when there is room |
| Seal.AuthInjective | vse/seal.c:68-91 | the authenticated string determines magic, length, bind tag and payload |
| Seal.TamperingNeedsCollision | vse/seal.c:149-198 | two different accepted blobs with the same MAC are a MAC collision |
| Seal.BoundToConfig | vse/seal.c:39-91 | a sealed blob opens on its own platform; opening under another configuration needs a collision of the bind tag, the seal key or the blob MAC |
| FdtSpec.DecodeStruct | boot/dtb/dtb_gen.c:59-145 | decoding by section 5.4 of the Devicetree Specification gives back every emitted item, every name offset resolving to its NUL-terminated string |
| FdtSpec.ItemFront | boot/dtb/dtb_gen.c:29-33 | the four bytes in front of every item by value |
| FdtSpec.BlobFront | boot/dtb/dtb_gen.c:328-338 | the blob starts with d00dfeed and its structure block ends with the end token, by value |
| FdtSpec.TreeExactly | boot/dtb/dtb_gen.c:86-145 | a call sequence parses as a tree exactly when it is the call sequence of that tree: properly nested, properties before children |
| FdtSpec.BlobReads | boot/dtb/dtb_gen.c:160-359 | the whole blob reads back as a tree exactly when the calls were the calls for that tree |
| FdtSpec.HeaderField | boot/dtb/dtb_gen.c:337-346 | all ten header words read back as written |
| FdtSpec.StringListExact | boot/dtb/dtb_gen.c:108-121 | a value is a concatenation of NUL-terminated strings (section 2.2.4 of the Devicetree Specification) exactly when it is empty or ends in NUL |
| FdtSpec.CutStringList | boot/dtb/dtb_gen.c:108-121 | so prop_stringlist gives a list of strings exactly when the cut is behind a NUL; the 23 bytes of the UART's compatible property are no list, 24 would be |
| Fdt.Builder.EmitPadded | boot/dtb/dtb_gen.c:65-74 | bytes and zero padding to the next multiple of four |
| Fdt.Builder.AddString | boot/dtb/dtb_gen.c:76-84 | name and NUL appended to the strings, its offset returned |
| Fdt.Builder.Emit32 | boot/dtb/dtb_gen.c:59-63 | one big-endian word appended; past the end only the position moves |
| Fdt.Builder.PadOut | boot/dtb/dtb_gen.c:70-73 | zero bytes up to the next multiple of four |
| Fdt.Builder.BeginNode | boot/dtb/dtb_gen.c:86-90 | one more item, position 4-byte aligned; past the end of the buffer only the position moves |
| Fdt.Builder.EndNode | boot/dtb/dtb_gen.c:92 | one more item |
| Fdt.Builder.PropStr | boot/dtb/dtb_gen.c:94-106 | one more property, value with its NUL |
| Fdt.Builder.PropStringList | boot/dtb/dtb_gen.c:108-121 | one more property, the first bytes of the memory given |
| Fdt.Builder.PropU32 | boot/dtb/dtb_gen.c:123-129 | one more property, one cell |
| Fdt.Builder.PropCells2 | boot/dtb/dtb_gen.c:131-138 | one more property, two 64-bit cells, also past the room that the other calls respect, as long as the buffer lasts |
| Fdt.Builder.PropEmpty | boot/dtb/dtb_gen.c:140-145 | one more property, no value |
| Fdt.Builder.Finish | boot/dtb/dtb_gen.c:320-351 | end token, strings and header in place: the buffer holds the blob of the calls made exactly when the structure block stayed inside its room |
| Ipc.Queue.Enqueue | guest/ipc/ipc.c:82-107 | Busy exactly at eight waiting messages and then unchanged, otherwise the last accepted |
| Ipc.Queue.Dequeue | guest/ipc/ipc.c:129-148 | the oldest message not yet received, cut to the room given |
| Ipc.Ipc.Send | guest/ipc/ipc.c:77-112 | Inval for a bad destination or length, Busy when full, otherwise Ok and exactly this message is appended to the destination's queue, no other queue touched |
| Ipc.Ipc.Receive | guest/ipc/ipc.c:119-153 | only the receiver's queue moves on |
| Ipc.FirstInFirstOut | guest/ipc/ipc.c:77-153 | in every run of sends and receives the k-th non-empty receive of a VM gets the prefix, of length min(len, max), of the k-th message accepted for it, and at most eight wait |
| Ipc.AcceptedExactly | guest/ipc/ipc.c:77-112 | told from the operations alone: the queue of a VM holds exactly the messages of 1 to 256 bytes sent to it while fewer than eight waited, with their senders, in order |
| Ipc.Arrives | guest/ipc/ipc.c:77-153 | end to end: a message sent while w wait, w below eight, is what the receiver gets from its receive after the next w, from the right sender and cut to its room, whatever else is sent and received in between |

## Left out

- Hypervisor.Hypervisor.DoFailover: does not model the copy of the backup image into the live region, since guest memory contents are not part of the machine state.
- Hypervisor.Hypervisor.VmSuspend: leaves out the gating of device interrupts; so does Hypervisor.Hypervisor.VmResume.
- Hypervisor.Hypervisor.Feed: one clock reading stands for the several that the source takes while it handles one fault.
- HvMonitor.StormsAreAlerts: the times are the readings at which the monitor decides; the source stamps each record with a reading of its own, taken a moment later, and so it is for HvMonitor.FaultsOnRecord, HvMonitor.RepeatsOnRecord, HvMonitor.RapidsOnRecord and HvMonitor.FallsOnRecord.
- HvMonitor.StormRate: bounds the times of decision for the same reason, not strictly those in the records.
- HvRuns.FaultBudget: asks that registrations of all VMs come before their restarts, because a late one takes vCPUs that other restarts need (`HvBase.EarlyExact`); of the VM itself it asks exactly what it takes, by `HvRuns.BudgetExact`.
- HvRuns.RunKeeps: its runs, like all of HvRuns, have no shared-memory calls; `Shmem.CallsTame` and `Shmem.FailoverNeverParks` state what holds with them in between.
- Hypervisor.BringUp: takes the measured images as a set; `Attest.PowerOn` computes it. MMIO ownership and SMMU streams of profile entries are left out.
- Sched.Scheduler.Switch: CPU time accounting and the switch of registers are left out.
- Sched.Scheduler.Forward: keeps the slot it is at in a local variable and stores it when the scan ends; the source updates the global at every step, which nothing observes.
- Sched.Scheduler.OnWfi: requires at least one slot, since the source divides by the number of slots.
- Shmem.Sharing.Map: leaves out the undo after a failed second map, which cannot be reached because both maps check the same alignment.
- Ipc.Ipc.Send: takes the message bytes as given; the translation of the sender's buffer address by a constant offset is left out, and likewise for the receiver's.
- Fdt.Builder.PropCells2: requires that the buffer does not end before the two cells, which the source writes without checking.
- Fdt.Builder.Finish: requires that both blocks lie inside the buffers, as the source copies without checking; the content of the Linux tree is not spelled out.
- Measure.MeasureGuest: physical memory is a byte sequence that holds the images; learn mode as a build option is left out.
- Seal.Unseal: scrubbing of key material is not modelled, nor in Hmac.Context.Init and Hmac.Context.Final.
- ShaLaws.KRoots: the order of the rounds and of the message schedule is fixed only by Sha256.CompressBlock, whose recursion is the one of section 6.2.2 of FIPS 180-4; no example digest is worked out.
- Strength of SHA-256 and HMAC: no assumption is made; where it would be needed the lemma names the collision.
- s2_destroy, TLB and cache maintenance, system registers, interrupt controller, timer, UART, SMMU: hardware state.
- sched_run (choice of the very first slot), per-VM CPU statistics and context-switch logging: would add only easy members.
- Hypercall dispatch, PSCI, PCIe, MMIO traps, interrupt routing, power gating: switches and table look-ups that one branch settles.
- Login, one-time passwords, key store, configuration check: thin callers of HMAC.
- Concurrency: the source runs on one core; entry points are atomic steps in any order.
