# Verified model of the Qemu_NTB_Switch data and control path

Two virtual machines exchange data through a modelled IDT non-transparent bridge. This project models the
four protocols that carry that exchange, and two smaller ones beside them, and proves what they promise over
every run. All sources are under `src/`; `dafny verify dfyconfig.toml` checks everything.

- **The shared-memory ring** (`Ring`, `RingSafety`, `RingTheorems`, `RingProgress`, `RingPrograms`,
  `RingGeometry`). The sender and the receiver of the profiling tool are two programs interleaved at every
  shared load and store. Plain stores sit in a pending buffer and land one at a time, in any order, until the
  next barrier; the release stores of `seq`, `head` and `tail` take effect at once. Either program may abort
  anywhere. The ring is proved to refine a FIFO queue, to conserve bytes, to be free of deadlock, and to start
  up safely exactly when the region carries no stale magic word. `run_tx` and `run_rx` are loops over a shared
  ring object, with the other program and the memory system running between any two accesses.
- **The message-register mailbox** (`MessageRegisters`, `Mailbox`). The device accepts or refuses each register
  write. Two drivers run `send_cmd` and `recv_cmd` one register access at a time. The three registers behave as
  one exact, untorn one-slot channel in each direction.
- **The segment lifecycle** (`Sisci`, `SisciProtocol`, `SisciTheorems`, `SisciLifetime`,
  `SisciOverMailbox`, `SisciDriver`). Two drivers publish,
  withdraw, create and remove segments over such channels, with sends failing and links dropping. The protocol is
  proved over abstract channels, and every register-level run is proved to be a run of that protocol.
- **The switch device** (`BarWindows`, `IdtDevice`, `IdtSafety`, `IdtTheorems`, `IdtInterrupts`,
  `IdtHandlers`, `MemoryWindows`, `MwDriver`, `StaleAlias`). Two devices connect through the server, exchange ids, raise interrupts and program
  each other's memory windows; each step is one handler. No interrupt is lost while they connect, the RAM alias
  follows the configuration registers, and a window reaches the memory its driver asked for.
- **The server's byte stream** (`ServerStream`) and **the character-device driver** (`AppFrames`), with
  `LittleEndian` for the numbers both carry. `Basics` holds what all modules share.

Every protocol has a value-level state, a total step function (a step that is not enabled changes nothing) and
runs over arbitrary schedules. Objects and programs that update state in place are proved to take those steps:
`RingPrograms.RunTx` and `RunRx`, `Mailbox.SendCmd` and `RecvCmd`, the segment driver's work function and ioctls
(`SisciDriver`), two devices under any schedule (`IdtHandlers.RunDevices`, `MessageRegisters.ServeGuests`), the
server reader and the character-device driver.

Where a promise does not hold on every run, the project shows failing runs and proves exactly when it holds:

- The ring's handshake is sound iff the region does not already carry the ring's magic word
  (`RingTheorems.HandshakeSoundIffNoStaleMagic`). The sender rejects the ring only for a chunk larger
  than the receiver's or too large for the mapping (`RingProgress.OnlyOversizedChunksAreRejected`).
- Mapped segment memory stays allocated unless its owner frees it while the last command it placed is an AVAIL
  (`SisciLifetime.StepKeepsCurrentIff`, `MappedMemoryIsAlive`, `FreeingAdvertisedDangles`,
  `FreeingUnreadDangles`); failed sends and link
  drops lead there in three ways (`SisciTheorems.ThreeWaysToDangle`).
- The second device's aliases are fresh whenever everything is handled iff they are up to date while the first
  device is connected, or cannot be mapped at all (`StaleAlias.SecondStaysFreshIffConnected`).
- Frames fit window and receive buffer iff no SIZE is taken while the window stays mapped, too small to be tried
  or beyond the window with the address zeroed (`AppFrames.FramesAlwaysFitIff`, `AppFrames.TwoWaysToOverrun`).

Modelling assumptions. Handlers of the two devices are atomic with respect to each other. 64-bit ring words are
loaded and stored atomically. Timeouts, failed barriers and killed processes are aborts at any step. Results of
calls into the kernel or into QEMU (window set-up, allocation, opening the peer's RAM file, the link state) are
parameters of the steps that make them, or, for the readings of `send_cmd`, given by the object it runs over. The interrupt mask, BAR base addresses and the size of peer RAM are fixed.
Where the send path tests its own failure-interrupt mask, the model follows the code.

## Model

| member | source | states |
|---|---|---|
| `RingGeometry.SlotsFit` | user_src/ntb_utils.c:219-240 | For every mapping and chunk the receiver accepts there is at least one slot, and header plus all slots fit the mapping. |
| `RingGeometry.LayoutIsMaximal` | user_src/ntb_profiling.c:370-377 | A slot holds the whole chunk, or all the mapping leaves for one; one more slot would not fit, unless the count is already 2^32 - 1. |
| `RingGeometry.SlotInside` | user_src/ntb_utils.c:242-256 | No step of the slot address computation wraps; every slot with its payload lies between the header and the end of the mapping. |
| `RingGeometry.SlotsDisjoint` | user_src/ntb_utils.c:242-256 | Two indices share a slot iff they are congruent modulo the slot count; otherwise their bytes do not overlap. |
| `RingGeometry.WindowIsInjective` | user_src/ntb_profiling.c:513-524 | Indices less than a ring apart never share a slot, so a sender with room cannot touch an unread slot. |
| `RingSafety.StepKeepsInv` | user_src/ntb_profiling.c:383-448 | Every step of either program, every landing of a plain store and every abort keeps the ring invariant. |
| `RingSafety.TailSlotIsGood` | user_src/ntb_profiling.c:405-416 | The slot at tail, when there is one, carries its sequence number and a length that fits, so the invalid-slot test fails. |
| `RingSafety.PendingStoreStaysInSlot` | user_src/ntb_profiling.c:524-529 | Every pending plain store lies in the bytes of the slot at head, past its sequence number, inside the mapping, and clear of the header and of every unread slot. |
| `RingTheorems.RingRefinesFifo` | user_src/ntb_profiling.c:508-538 | The head store appends exactly the next frame of the transfer, the tail store removes exactly the oldest, and no other step changes the queue, which never exceeds the slot count. |
| `RingTheorems.RingIsSafe` | user_src/ntb_profiling.c:401-424 | tail <= head <= tail + slot count, no counter overflows, every unread slot holds its frame, and the receiver never takes its invalid-slot exit. |
| `RingTheorems.SuccessMeansEverythingArrived` | user_src/ntb_profiling.c:425-443 | The receiver succeeds only with received = reported = total and exactly ceil(total/chunk) frames produced and consumed. |
| `RingTheorems.AbortedSenderMeansNoSuccess` | user_src/ntb_profiling.c:553-557 | If the sender aborts before its DONE store, the receiver never reports success. |
| `RingTheorems.LastFrame` | user_src/ntb_profiling.c:520-522 | The stream is complete after exactly ceil(total/chunk) frames. |
| `RingTheorems.StaleMagicBreaksHandshake` | user_src/ntb_profiling.c:479-491 | With a stale magic word there is a run in which the sender leaves its handshake on a half-written header. |
| `RingTheorems.HandshakeSoundIffNoStaleMagic` | user_src/ntb_profiling.c:383-393 | On every schedule the sender is past its handshake loop only with a final header and no initialisation store still to land, iff the region does not start with the ring's magic word. |
| `RingProgress.NoStepRaisesMeasure` | user_src/ntb_profiling.c:401-448 | No step of either program, polling included, raises the measure of work left. |
| `RingProgress.RingIsDeadlockFree` | user_src/ntb_profiling.c:508-550 | With a sender's chunk no larger than the receiver's and fitting the mapping beside 128 header bytes, while both programs live and are not both finished, some step strictly lowers the measure. |
| `RingProgress.UsefulStepsAreBounded` | user_src/ntb_profiling.c:508-557 | Any schedule contains at most measure-many useful steps. |
| `RingProgress.RingCanAlwaysFinish` | user_src/ntb_profiling.c:401-448 | Under the same condition, from every reachable state with both programs alive there is a schedule of at most measure-many steps after which both have finished. |
| `RingProgress.OnlyOversizedChunksAreRejected` | user_src/ntb_profiling.c:490-497 | The sender gives up only for a chunk larger than the receiver's or too large for the mapping beside the headers, and then nothing is ever published or reported as received. |
| `RingProgress.CompatibleMeansFits` | user_src/ntb_profiling.c:490-497 | The sender's chunk fits a slot iff it is no larger than the receiver's and fits the mapping beside 128 header bytes. |
| `RingPrograms.FindRing` | user_src/ntb_profiling.c:479-489 | The handshake loop ends found, or timed out after more than `patience` shared accesses, having taken the steps of the model. |
| `RingPrograms.SendFrame` | user_src/ntb_profiling.c:520-535 | One frame is filled, fenced and published; the count of bytes sent grows by its payload without overflow. |
| `RingPrograms.DrainRing` | user_src/ntb_profiling.c:540-550 | The drain loop ends with the ring empty, or timed out after more than `patience` shared accesses. |
| `RingPrograms.RunTx` | user_src/ntb_profiling.c:455-567 | The sender returns 0 iff it stored DONE, and then every frame has been produced and consumed; it fails only when its chunk is rejected or after more than `patience` shared accesses. |
| `RingPrograms.RunRx` | user_src/ntb_profiling.c:350-453 | The receiver never takes its invalid-slot exit, returns 0 only when everything has arrived, and fails only after more than `patience` shared accesses. |
| `MessageRegisters.WriteOutbound` | qemu_src/hw/misc/idt_ntb_ivshmem.c:467-505 | Each write is either accepted, with value and source stored at the peer, or leaves the peer alone and sets the writer's own error bit. |
| `MessageRegisters.InterruptIffRaised` | qemu_src/hw/misc/idt_ntb_ivshmem.c:467-505 | Under any traffic of both guests, an end's message interrupt is pending iff, since it was last cleared, a write filled one of its empty unmasked registers with the global mask open or one of its own writes was refused with notice, or it was pending before and never cleared. |
| `MessageRegisters.SettingsAreLastWritten` | qemu_src/hw/misc/idt_ntb_ivshmem.c:803-845 | Masks and partition are, under any traffic, what their owners last wrote. |
| `MessageRegisters.AcceptedIsStable` | qemu_src/hw/misc/idt_ntb_ivshmem.c:803-841 | Under any traffic of both guests on all four registers, an accepted value and its source stay until the owner clears the status bit. |
| `MessageRegisters.AcceptancesBalanceReleases` | qemu_src/hw/misc/idt_ntb_ivshmem.c:474-491 | A register has been filled exactly as often as it was emptied, plus one if it is full. |
| `MessageRegisters.Device.WriteOutboundMsg` | qemu_src/hw/misc/idt_ntb_ivshmem.c:467-505 | The in-place handler leaves both register files as the model's write does. |
| `MessageRegisters.ServeGuests` | qemu_src/hw/misc/idt_ntb_ivshmem.c:803-845 | Two devices over the same registers, both guests writing as they please: an accepted value and source survive unless emptied by their owner, and fills balance releases. |
| `Mailbox.SplitJoin` | kernel_src/ntb-idt-sisci-app/ntb-idt-sisci-app.c:278-295 | Joining the low and high register of a 64-bit value gives the value back. |
| `Mailbox.MailboxIsExact` | kernel_src/ntb-idt-sisci-app/ntb-idt-sisci-app.c:193-235 | On every interleaving of register accesses, what was received followed by what sits in the registers is what was placed, in order, once and untorn; what was placed is exactly the sends that returned 0. |
| `Mailbox.InterruptMeansWholeCommand` | kernel_src/ntb-idt-app/ntb-idt-app.c:303-348 | A step of a sending driver leaves the peer's message interrupt pending iff it was, or the step is the command write with the global mask open, and then the peer's mailbox holds that whole command; the sender's own is raised only by a low-word write into a full mailbox. |
| `Mailbox.SendCmd` | kernel_src/ntb-idt-sisci-app/ntb-idt-sisci-app.c:193-235 | Returns success iff the command was placed, once; otherwise it was not placed at all. It returns the lost-link error iff its last reading of the link was down, the first such; it gives up only after 100 attempts under an up link; and if the peer has received everything so far an up link at the first attempt is enough. |
| `Mailbox.SendStepMeans` | kernel_src/ntb-idt-sisci-app/ntb-idt-sisci-app.c:193-235 | A send ends with a lost link, with the retry limit or with success exactly at a down link check, at the check after 100 attempts, and at the status read of the command register; an attempt is spent exactly by a refused low-word write, and that is refused exactly when the peer's mailbox is full. |
| `Mailbox.SendSucceeds` | kernel_src/ntb-idt-sisci-app/ntb-idt-sisci-app.c:193-235 | From every reachable state whose peer has received everything, eight steps of the sender under an up link place the command and log success, the peer unchanged. |
| `Mailbox.RecvCmd` | kernel_src/ntb-idt-sisci-app/ntb-idt-sisci-app.c:278-295 | On success returns the oldest placed command not yet received; it fails only when everything placed before the call has been received. |
| `Mailbox.NotRefused` | kernel_src/ntb-idt-app/ntb-idt-app.c:318-345 | Once the low data word is accepted, the other two writes of a send cannot be refused. |
| `SisciProtocol.TakeTracks` | kernel_src/ntb-idt-sisci-app/ntb-idt-sisci-app.c:353-385 | Handling the next command keeps the receiver in step with the peer's stream; an AVAIL finds the size and address of its own publication and an unmapped window. |
| `SisciProtocol.StepKeepsInv` | kernel_src/ntb-idt-sisci-app/ntb-idt-sisci-app.c:335-391 | Every send, receive, failure, link change and ioctl keeps the two drivers consistent with each other's streams. |
| `SisciTheorems.PublicationIsNeverMixed` | kernel_src/ntb-idt-sisci-app/ntb-idt-sisci-app.c:237-262 | Over every run, a ready peer's id, size, address and programmed window are those of one single completed publication. |
| `SisciTheorems.ConnectReportsUsableSize` | kernel_src/ntb-idt-sisci-app/ntb-idt-sisci-app.c:628-640 | At every point the driver flags are consistent, and a CONNECT that succeeds reports the smaller of published size and window size, which is zero only for an empty window. |
| `SisciTheorems.ConnectSucceedsIff` | kernel_src/ntb-idt-sisci-app/ntb-idt-sisci-app.c:605-644 | On every run, CONNECT to an id succeeds iff the peer is ready and its last whole publication taken carries that id. |
| `SisciLifetime.StepKeepsCurrentIff` | kernel_src/ntb-idt-sisci-app/ntb-idt-sisci-app.c:438-444 | An end stops owning the segment it advertises by exactly one kind of step: freeing, by REMOVE or a re-allocating CREATE, while the last command it placed is an AVAIL. |
| `SisciLifetime.MappedMemoryIsAlive` | kernel_src/ntb-idt-sisci-app/ntb-idt-sisci-app.c:264-276 | On every run without such a free, failed sends and link drops included, a mapped segment is still allocated at the mapped address and size, or the command that unmaps it is in the peer's mailbox. |
| `SisciLifetime.FreeingAdvertisedDangles` | kernel_src/ntb-idt-sisci-app/ntb-idt-sisci-app.c:596-601 | Such a free, with the peer mapped, leaves a mapping to freed memory and nothing in the mailbox to undo it. |
| `SisciLifetime.FreeingUnreadDangles` | kernel_src/ntb-idt-sisci-app/ntb-idt-sisci-app.c:366-374 | Such a free while the AVAIL is still in the mailbox does so too: the peer then takes it and maps what is gone. |
| `SisciTheorems.CalmFreesAreAnnounced` | kernel_src/ntb-idt-sisci-app/ntb-idt-sisci-app.c:562-566 | With no failed send and the link up, no such free happens, and a segment is freed only if the peer has not mapped it or its UNAVAIL is already in the peer's mailbox. |
| `SisciTheorems.ThreeWaysToDangle` | kernel_src/ntb-idt-sisci-app/ntb-idt-sisci-app.c:586-604 | A failed withdrawal, a link drop only the owner sees, and a failed re-publication each let REMOVE free memory the peer still maps. |
| `SisciOverMailbox.RegistersRefineProtocol` | kernel_src/ntb-idt-sisci-app/ntb-idt-sisci-app.c:335-391 | Every interleaving of register accesses and locked sections is a run of the segment protocol. |
| `SisciOverMailbox.MixingIsImpossibleAtRegisters` | kernel_src/ntb-idt-sisci-app/ntb-idt-sisci-app.c:297-333 | Register by register, a ready peer has mapped one whole publication out of the commands placed. |
| `SisciOverMailbox.MappedMemoryIsAliveAtRegisters` | kernel_src/ntb-idt-sisci-app/ntb-idt-sisci-app.c:438-444 | Register by register, with sends failing and links dropping: unless its owner frees a segment while the last command it placed is an AVAIL, a mapped segment is still allocated or the command that unmaps it has been placed. |
| `Sisci.Device.MapPeer` | kernel_src/ntb-idt-sisci-app/ntb-idt-sisci-app.c:297-333 | The peer's window is mapped with the announced size and address, or any failing call leaves it unmapped. |
| `Sisci.Device.Dispatch` | kernel_src/ntb-idt-sisci-app/ntb-idt-sisci-app.c:353-385 | Each received command takes the model's step for it; unknown commands change nothing. |
| `Sisci.Device.CreateSegment` | kernel_src/ntb-idt-sisci-app/ntb-idt-sisci-app.c:423-486 | An existing segment is reused, refused as busy or freed before the new one is allocated. |
| `Sisci.CreateMeans` | kernel_src/ntb-idt-sisci-app/ntb-idt-sisci-app.c:423-486 | CREATE succeeds iff the end then owns the id with at least the wanted size; it is refused as busy iff another or too small a segment is advertised; a segment kept or refused is left alone, and otherwise the old one is freed first. |
| `Sisci.AllocateMeans` | kernel_src/ntb-idt-sisci-app/ntb-idt-sisci-app.c:445-486 | A fresh segment has the least multiple of the alignment holding the wanted size, within the size limit, and is neither available nor published; without a failing call, allocation fails only for an empty, wrapping or over-limit request. |
| `Sisci.Device.PublishAvailable` | kernel_src/ntb-idt-sisci-app/ntb-idt-sisci-app.c:237-262 | Exactly the first commands of the publication up to the first failed send are tried and placed; the segment counts as published iff all four were; nothing is sent when there is nothing to publish. |
| `Sisci.Device.PublishUnavailable` | kernel_src/ntb-idt-sisci-app/ntb-idt-sisci-app.c:264-276 | Both flags are cleared before the send; the withdrawal is tried iff the segment was published and the link is up, and placed iff that send succeeds. |
| `Sisci.Device.Drain` | kernel_src/ntb-idt-sisci-app/ntb-idt-sisci-app.c:353-385 | The commands handled are exactly those received, in order, with the other driver running between any two register accesses; a drained mailbox means that everything placed before the call was received, and a loop cut short has used all its call outcomes. |
| `SisciDriver.Service` | kernel_src/ntb-idt-sisci-app/ntb-idt-sisci-app.c:335-391 | The work function is a sequence of this end's protocol steps: the link step, one receive per command taken, and one send per command placed; cut short, it is the link step and the receives. Completed under an up link it has received everything placed before, and a wanted publication is sent whole or up to a failed send. |
| `SisciDriver.SetAvailable` | kernel_src/ntb-idt-sisci-app/ntb-idt-sisci-app.c:552-569 | Refused for a segment the end does not own; otherwise the protocol's publication steps, whole or up to a failed send when the link is up and nothing sent when it is down; the driver flags stay consistent. |
| `SisciDriver.SetUnavailable` | kernel_src/ntb-idt-sisci-app/ntb-idt-sisci-app.c:570-585 | Refused for a segment the end does not own; otherwise the protocol's withdrawal, sent iff the segment was published and the link is up; the driver flags stay consistent. |
| `SisciDriver.RemoveSegment` | kernel_src/ntb-idt-sisci-app/ntb-idt-sisci-app.c:586-604 | As SET_UNAVAILABLE, and the segment is freed unless the withdrawal's send fails. |
| `SisciDriver.EachIsAStep` | kernel_src/ntb-idt-sisci-app/ntb-idt-sisci-app.c:335-391 | The step sequences used by these programs are this end's part of the protocol's steps. |
| `BarWindows.AliasAgreesWithSlowPath` | qemu_src/hw/misc/idt_ntb_ivshmem.c:700-753 | Every access the alias serves is one the MMIO handlers accept, at the same peer RAM address, inside peer RAM. |
| `BarWindows.AccessIsSlowPath` | qemu_src/hw/misc/idt_ntb_ivshmem.c:1039-1121 | With nothing stale, every access has the meaning the MMIO handlers give it. |
| `BarWindows.RefreshIsFresh` | qemu_src/hw/misc/idt_ntb_ivshmem.c:755-762 | A refresh leaves each alias unmapped or equal to what the configuration asks for, and the configuration alone. |
| `BarWindows.RefreshMapsWindow` | qemu_src/hw/misc/idt_ntb_ivshmem.c:700-762 | A refresh that can open peer RAM maps every enabled window whose limit lies above its base and whose translated range lies inside RAM, with the translated address and the smaller of limit and aperture. |
| `IdtSafety.AnnouncementLands` | qemu_src/hw/misc/idt_ntb_ivshmem.c:1455-1473 | The N-th announcement of a machine lands on vector N-1, and there is always room for it. |
| `IdtSafety.FarInit` | qemu_src/hw/misc/idt_ntb_ivshmem.c:627-636 | When the second device publishes its id it already has the first device's eventfds, and its wake-up reaches the first device. |
| `IdtSafety.KickEffect` | qemu_src/hw/misc/idt_ntb_ivshmem.c:423-440 | A kick sets the peer's interrupt eventfd iff the kicker knows its peer and that eventfd and an unmasked interrupt is pending; then nothing raised and unmasked is left unsignalled, and nothing else of either device changes. |
| `IdtSafety.NotifyEffect` | qemu_src/hw/misc/idt_ntb_ivshmem.c:764-769 | A configuration write wakes the peer iff the writer knows the peer and its eventfd, and changes nothing else of the peer. |
| `IdtSafety.StepKeepsInv` | qemu_src/hw/misc/idt_ntb_ivshmem.c:1162-1191 | Every handler of either device keeps ids, eventfd counts, owed interrupts and aliases consistent. |
| `IdtInterrupts.InterruptsMove` | qemu_src/hw/misc/idt_ntb_ivshmem.c:423-440 | On every step, pending bits change only by the peer's raises and the owner's clears, a set interrupt eventfd is cleared only by its owner's own handler, and a peer's step that no longer owes a wake-up has set it. |
| `IdtInterrupts.KnownPeerIsWoken` | qemu_src/hw/misc/idt_ntb_ivshmem.c:423-440 | A raise of an unmasked bit by a device that knows its peer and the peer's interrupt vector leaves the peer's interrupt eventfd set. |
| `IdtInterrupts.NoInterruptIsLost` | qemu_src/hw/misc/idt_ntb_ivshmem.c:384-440 | Whatever the order of connect messages, id exchange and raises: an unmasked bit raised at step i and not cleared since is pending once all server messages and id wake-ups are handled, and some step at or after i left the peer's interrupt eventfd set. |
| `IdtTheorems.SettledIsConnected` | qemu_src/hw/misc/idt_ntb_ivshmem.c:1455-1489 | Once everything is handled each device knows the other and all its eventfds, although the first may have taken itself for its peer on the way. |
| `IdtTheorems.AliasFollowsConfiguration` | qemu_src/hw/misc/idt_ntb_ivshmem.c:863-892 | From any reachable state with the peer connected and no stale alias, on every continuation with no refresh pending: each mapped alias is what the registers ask for, every access has the slow path's meaning, and what the alias serves lies in peer RAM. |
| `IdtTheorems.FirstDeviceCatchesUp` | qemu_src/hw/misc/idt_ntb_ivshmem.c:627-636 | The first device is never stale once everything is handled, whatever was written before it was connected. |
| `IdtTheorems.ConnectedWritesAreSeen` | qemu_src/hw/misc/idt_ntb_ivshmem.c:764-769 | Once a device can wake its peer it stays able to, and the peer's aliases, once up to date or changed once more, are fresh or about to be refreshed ever after. |
| `MemoryWindows.RunFollows` | qemu_src/hw/misc/idt_ntb_ivshmem.c:858-892 | Whatever else happens, the registers behind a window are what the writes to them, alone and in order, make of it. |
| `StaleAlias.UnconnectedCanStayStale` | qemu_src/hw/misc/idt_ntb_ivshmem.c:1377-1384 | From every reachable state in which the first device is not connected, and for every window of the second that can be mapped, everything can be handled with a stale alias left at the second device. |
| `StaleAlias.SecondStaysFreshIffConnected` | qemu_src/hw/misc/idt_ntb_ivshmem.c:764-769 | From any reachable state, the second device's aliases are fresh whenever everything is handled, on every continuation, iff none of its windows can be mapped at all, or they are up to date now and the first device is already connected. |
| `MemoryWindows.WindowReachesMemory` | yocto_files/meta-ntb-cxl/recipes-kernel/linux/linux-yocto/0001-OUT-OF-SPECIFICATION-Inbound-MW.patch:36-95 | After a set-up and the refresh it causes, interleaved with anything but other writes to these registers, an access at offset o reaches addr + o iff its bus address does not exceed the programmed limit, for any pair of BAR bases; a mapped alias is the requested window. |
| `MemoryWindows.RefreshMapsProgrammed` | yocto_files/meta-ntb-cxl/recipes-kernel/linux/linux-yocto/0001-OUT-OF-SPECIFICATION-Inbound-MW.patch:36-95 | After a set-up of a non-empty window inside RAM, with anything but other writes to its registers in between, the pending wake-up maps exactly the requested address with the smaller of size and aperture. |
| `MemoryWindows.WindowServesItsSize` | yocto_files/meta-ntb-cxl/recipes-kernel/linux/linux-yocto/0001-OUT-OF-SPECIFICATION-Inbound-MW.patch:76-84 | With equal bases every access below min(size, aperture) reaches addr + o, inside RAM. |
| `MemoryWindows.ClearedWindowRefuses` | yocto_files/meta-ntb-cxl/recipes-kernel/linux/linux-yocto/0001-OUT-OF-SPECIFICATION-Inbound-MW.patch:108-140 | After a clear and the refresh it causes, the alias is unmapped and every access is refused. |
| `MwDriver.MwSetTrans` | yocto_files/meta-ntb-cxl/recipes-kernel/linux/linux-yocto/0001-OUT-OF-SPECIFICATION-Inbound-MW.patch:36-95 | Returns 0 iff both indices are in range, address and size are multiples of non-zero alignments, the size is within the limit and the window is direct; then it has selected the peer's partition and made exactly the register writes of a set-up, the upper limit of a 64-bit BAR included; otherwise none. |
| `MwDriver.MwClearTrans` | yocto_files/meta-ntb-cxl/recipes-kernel/linux/linux-yocto/0001-OUT-OF-SPECIFICATION-Inbound-MW.patch:108-140 | Returns 0 iff both indices are in range and the window is direct, and then has selected the peer's partition and made exactly the register writes of a clear; otherwise none. |
| `MwDriver.ActAllIsRun` | yocto_files/meta-ntb-cxl/recipes-kernel/linux/linux-yocto/0001-OUT-OF-SPECIFICATION-Inbound-MW.patch:80-84 | The driver's writes, made in a row, are a schedule of the device pair in which only the writer runs. |
| `IdtHandlers.Endpoint.UpdateAlias` | qemu_src/hw/misc/idt_ntb_ivshmem.c:700-753 | One alias becomes what its configuration asks for, or is unmapped; BARs outside 2 to 4 are left alone. |
| `IdtHandlers.Endpoint.RefreshAliases` | qemu_src/hw/misc/idt_ntb_ivshmem.c:755-762 | The loop recomputes exactly the aliases of BARs 2 to 4. |
| `IdtHandlers.Endpoint.Translate` | qemu_src/hw/misc/idt_ntb_ivshmem.c:1039-1121 | With no stale alias, every access has the MMIO handlers' meaning whether the alias or the handler serves it, and the alias never leads outside peer RAM. |
| `IdtHandlers.RunDevices` | qemu_src/hw/misc/idt_ntb_ivshmem.c:1162-1191 | Two device objects running their handlers in any order keep the joint invariant; once everything is handled every lasting unmasked interrupt of the run has set its eventfd, each device knows the other, and the first has no stale alias. |
| `LittleEndian.ValueOfDigits` | qemu_src/hw/misc/idt_ntb_ivshmem.c:1538-1538 | A number survives its little-endian encoding. |
| `ServerStream.RoundTrip` | qemu_src/hw/misc/idt_ntb_ivshmem.c:1538-1538 | A signed 64-bit message survives its little-endian encoding. |
| `ServerStream.StreamIsReassembled` | qemu_src/hw/misc/idt_ntb_ivshmem.c:1517-1547 | The reader's assertions hold exactly for the fragmentations that respect what it said it can receive, and then the messages processed are the 8-byte groups of the stream. |
| `ServerStream.EventfdsByVector` | qemu_src/hw/misc/idt_ntb_ivshmem.c:1455-1473 | With no disconnect, each machine's eventfds are the first announced ones, in vector order, and never more than the device has vectors. |
| `ServerStream.DisconnectOne` | qemu_src/hw/misc/idt_ntb_ivshmem.c:1444-1453 | A disconnect empties the entry of the machine it names, unless that is the device itself, and no other. |
| `ServerStream.StreamBuildsTable` | qemu_src/hw/misc/idt_ntb_ivshmem.c:1491-1547 | However the encoded messages are cut up, each machine ends with its own eventfds. |
| `ServerStream.Reader.Read` | qemu_src/hw/misc/idt_ntb_ivshmem.c:1525-1547 | The in-place buffer takes a chunk and processes a message exactly when it is complete. |
| `ServerStream.Reader.MayReceive` | qemu_src/hw/misc/idt_ntb_ivshmem.c:1517-1523 | There is always room for at least one byte. |
| `ServerStream.Reader.Process` | qemu_src/hw/misc/idt_ntb_ivshmem.c:1491-1515 | Invalid and shared-memory messages leave the table alone; a connect appends; a disconnect empties. |
| `AppFrames.StepKeepsFramesFitIff` | kernel_src/ntb-idt-app/ntb-idt-app.c:260-301 | The promise that every committed frame fits window and receive buffer survives a step iff the step is not a SIZE taken while the window stays mapped (below a header, or beyond the window with the address zeroed), nor maps a window smaller than a header. |
| `AppFrames.FramesAlwaysFitIff` | kernel_src/ntb-idt-app/ntb-idt-app.c:412-475 | Over all orders and contents of SIZE and XLAT, link changes and failed set-ups, every frame fits at every point of a run iff no step of the run is such a step. |
| `AppFrames.SoundRunsNeverBreak` | kernel_src/ntb-idt-app/ntb-idt-app.c:432-475 | With announced sizes above a header, non-zero addresses and a window larger than a header, no run breaks the promise. |
| `AppFrames.TwoWaysToOverrun` | kernel_src/ntb-idt-app/ntb-idt-app.c:265-270 | A zero address followed by a size, and a size below a header, each let a frame run past window or buffer. |
| `AppFrames.FrameRoundTrip` | kernel_src/ntb-idt-app/ntb-idt-app.c:385-411 | A buffer that starts with a written frame is accepted with that frame's length and sequence number, and holds its payload. |
| `AppFrames.OnlyFramesAreAccepted` | kernel_src/ntb-idt-app/ntb-idt-app.c:385-411 | Whatever the receive buffer holds, an accepted length is the announced one and fits the buffer, which starts with that frame's magic word, length and sequence number. |
| `AppFrames.HeaderLayout` | kernel_src/ntb-idt-app/ntb-idt-app.c:532-555 | The header's sixteen bytes are the magic word, length, sequence number and zero flags, each little-endian. |
| `AppFrames.CommittedFrameIsRead` | kernel_src/ntb-idt-app/ntb-idt-app.c:532-555 | In a run that never breaks the promise, a committed frame is read back whole from a receive buffer of the announced size. |
| `AppFrames.ReadyMeansLinkUp` | kernel_src/ntb-idt-app/ntb-idt-app.c:156-167 | On every run, a peer that counts as ready has its link up. |
| `AppFrames.App.SetUpPeerMw` | kernel_src/ntb-idt-app/ntb-idt-app.c:260-301 | Succeeds iff a non-zero address and a size above a header were announced and no call fails; then the window is mapped with the smaller of announced and window size; a failing call leaves it unmapped with both cleared. |
| `AppFrames.App.Service` | kernel_src/ntb-idt-app/ntb-idt-app.c:432-485 | The work function: the peer's state takes exactly the steps of the link and of the commands received through the mailbox, frames keep fitting unless one of these breaks the promise; completed under an up link, everything placed before was received, and a peer not ready is sent the receive buffer whole or up to a failed send. |
| `AppFrames.App.TxCommit` | kernel_src/ntb-idt-app/ntb-idt-app.c:532-555 | A header is written iff the peer is ready, mapped and the length fits; the sequence number advances modulo 2^32, nothing beyond the header changes, and the KICK is then tried, and placed exactly on success. |
| `AppFrames.App.Write` | kernel_src/ntb-idt-app/ntb-idt-app.c:605-657 | Header and payload are written iff the checks pass and the copy does not fault; nothing beyond the frame is touched, a fault leaves only a payload prefix, and the KICK is tried exactly after a written frame and placed exactly on success. |

## Left out

- Opening devices, mapping memory, ioctl and poll plumbing, module loading, clocks and printing: thin wrappers; a timeout is an abort.
- KVM and MSI-X routing, migration, realize and exit of the device, recipes, scripts and the MSI example: library calls or build files.
- Option and size parsing: easy claims about `strtoull`.
- Load- and store-level races on status words between the two QEMU processes: the C updates are not atomic, so only the handler-atomic model is claimed.
- Loss-free delivery of character-device frames: the sender may overwrite an unread frame; the (size, address) pair there may also mix two lives of the peer.
- Module removal, which runs outside the mutex, and a module reload that clears status bits during a send.
- Peer disconnect and reconnect at the device, and an inbound BAR number above 5.
- Accumulation of doorbell bits: the register is assigned, so no claim is built on it.
- Server messages at the device pair: taken in the order the ivshmem server sends them, every vector of the first machine and then every vector of the second; arbitrary streams are in `ServerStream`.
- RingProgress.RingIsDeadlockFree: assumes a chunk no larger than the receiver's that fits the mapping, because otherwise the sender gives up in its handshake (`RingProgress.OnlyOversizedChunksAreRejected`).
- RingProgress.RingCanAlwaysFinish: the same assumption, for the same reason.
- Mailbox.InterruptMeansWholeCommand: the mask is the one `enable` leaves; enabling a second time during a send is not modelled.
- MwDriver.MwSetTrans: the call runs without interleaving, which `MemoryWindows` covers; a limit at or above 2^32 is written as the source does but no theorem is built on it.
- MwDriver.MwClearTrans: runs without interleaving, which `MemoryWindows` covers.
- Sisci.Device.Drain: handles at most as many commands as it is given call outcomes for, because the peer may keep the source's loop busy for ever.
- SisciDriver.Service: inherits that bound.
- AppFrames.App.Service: the same bound on its receive loop; what a KICK does to the receive side is `CompleteRx`, not part of this step.
