# Verified model of w-vmm

This project models the parts of w-vmm that carry safety claims and proves those
claims for every input, every schedule and every pattern of host failures. It is
plain Dafny 4.11; `dafny verify dfyconfig.toml` checks all of it.

Five groups of modules follow the program's own parts.

* **Hot-plug memory** (`Mappings`, `Transaction`, `HotplugMemory`, `HotplugQueue`,
  `UnplugSafety`, `Teardown`, `Runtime`, `RunSafety`, `RunLoop`, `Shutdown`, `Program`).
  The virtio-mem device keeps three views of memory in step: its block table, the
  hypervisor's mapping table and the guest DMA view. The model keeps the map/unmap loop
  and the reverse-order rollback as loops, and lets the n-th hypervisor call and the n-th
  allocation fail by an arbitrary function. The main results are the transaction law (all,
  nothing, or off only where an undo call failed), unplug safety for the whole round over
  all devices, and the run loop over the real devices: after every turn of every run the
  ready rings of every device that is not isolated are guest memory and the three views
  agree, and a lenient VM on a host that does not fail never fails.
* **Virtqueues and the virtio-mmio transport** (`Virtqueue`, `PinScan`,
  `RingStability`, `Bits`, `Transport`, `Devices`). Bounded walks over guest-controlled
  links, 16-bit ring positions, the status state machine, and lenient isolation. `Devices`
  puts the block, network and memory devices behind their transports. Status,
  feature and interrupt words are sets of bit positions; `Bits.NumberOfBits` shows that
  nothing is lost by that.
* **vCPU barrier and PSCI power** (`Cpus`, `CpuProtocol`, `CpuShared`). One mutex, one
  condition variable, a worker thread per vCPU and the VMM thread, as a state machine
  whose steps are critical sections and the moves between them. Schedules are arbitrary
  step sequences. `CpuShared.Shared` is the same state as an object whose methods are
  shown to do what the steps do.
* **Control protocol** (`Control`, `ControlProtocol`, `ControlShared`). Requests with
  replies, the lifecycle, and stop racing pause, in the same style.
* **Scatter/gather data paths** (`Buffers`, `DescriptorLists`, `Overlap`, `Storage`,
  `Block`, `Net`, `Receive`). A list of slices means its list of byte addresses; loading and storing
  are byte by byte. Disk batching, the direct receive path, transmit backpressure and
  block requests are each shown equal to that simple meaning.

`Layout` decides machine layouts, `EndToEnd` joins layout to hot-plug and worker faults to
the result of `run`, and `Program` is `run` itself: assemble, map, loop, clean up. `Wrappers`, `Errors`, `GuestMemory` and `Finite` hold the
shared vocabulary.

## Reading notes

* Libraries whose code is not part of this model appear as small contracts. A guest view
  is a finite map of regions and their bytes, and an empty range is always inside it. A
  virtqueue is valid when it is ready and its three rings are inside the view; taking an
  entry reads slot `next_avail % size` and advances; a size is accepted only if it is a
  power of two up to 128. The image library may move the segments of one operation in
  any order. The mapper is atomic on error, as `src/memory.rs:15-20` asks.
* A failed take has still consumed its ring entry (`src/devices/mmio.rs:145-180`), and
  the "cyclic" error is also what a chain gets that uses all descriptors and then links
  out of range. Acceptance is therefore stated exactly and errors are not told apart by
  name.
* The comment above `change` speaks of `Err` as a failed rollback only. The code also
  returns `Err` when an allocation or a view edit fails before anything is mapped
  (`src/devices/memory.rs:54-69`); the model follows the code.
* `NEEDS_RESET` is cleared only by a reset, but it is not set only by the device: a
  driver may write bit 0x40 itself. `Transport.NeedsResetArises` gives the exact
  condition and `Transport.DriverMaySetNeedsReset` the input.
* A pause is claimed from the Ok reply until a resume is taken from the queue: the
  status can still read Paused while the resume is being served.
* A zero-length descriptor at a block's first byte does not pin that block, so pin
  claims are about nonempty buffers.
* Everything that was pinned stays in view, whatever the guest does. That the entries still
  pending hold the chains they held needs the guest to keep the memory device's responses
  clear of live rings (`Runtime.Undisturbed`), since a response may overwrite a ring.
* `RunLoop.Machine.Run` gets what comes from outside (requests, the platform's answers and
  events, guest writes) as an arbitrary sequence of turns, and calls the devices' own
  methods. While it looks at the devices the guest may rewrite memory between any two.

## Model

| member | source | states |
|---|---|---|
| `Virtqueue.ChainWalkExact` | src/devices/mmio.rs:152-180 | the walk bounded by the ring size accepts a head if and only if its links reach an end through in-range indices, legal flags and in-view buffers; the path it returns revisits nothing |
| `Virtqueue.PathDistinct` | src/devices/mmio.rs:152-180 | a path of links that reaches an end never visits a descriptor twice |
| `Virtqueue.PathFound` | src/devices/mmio.rs:152-180 | such a path has at most `size` descriptors, by pigeonhole, so the bound never cuts one off |
| `Virtqueue.Queues.Available` | src/devices/mmio.rs:119-139 | a disabled queue has nothing; a ready one is accepted exactly when valid and not overrun, and the count is modulo 2^16 |
| `Virtqueue.Queues.Pop` | src/devices/mmio.rs:141-181 | the entry is consumed before validation; a chain comes back if and only if the links from its head end; errors are guest errors |
| `Virtqueue.Queues.Walk` | src/devices/mmio.rs:152-180 | the loop over raw links returns exactly the descriptors of the path |
| `Virtqueue.Queues.Complete` | src/devices/mmio.rs:183-195 | on success the used element, the wrapped used index and the queue interrupt; on error nothing |
| `Virtqueue.Queues.Pinned` | src/devices/mmio.rs:60-117 | the nested scan loops compute the pins of every ready queue or fail exactly when one does not scan |
| `Virtqueue.Queues.PinQueue` | src/devices/mmio.rs:62-114 | rings and pending buffers of one queue, in order |
| `Virtqueue.Queues.PinChain` | src/devices/mmio.rs:85-113 | the walk of one pending chain ends exactly when its links do and records its nonempty buffers in order |
| `Virtqueue.Queues.PinEntry` | src/devices/mmio.rs:82-114 | the nonempty buffers of one pending chain |
| `PinScan.SlotsDistinct` | src/devices/mmio.rs:81-84 | up to a ring's worth of consecutive positions use distinct slots, also across the 2^16 wrap |
| `PinScan.PopAllInOrder` | src/devices/mmio.rs:141-181 | taking until empty yields the pending chains in order if each has one |
| `PinScan.AllPinsExact` | src/devices/mmio.rs:60-117 | a range is pinned if and only if it is a ring of a ready queue or a nonempty buffer of one of its pending chains |
| `PinScan.PinScanAgreesWithPopping` | src/devices/mmio.rs:60-181 | after a successful scan, on unchanged memory, popping each ready queue until empty succeeds, gives the scanned chains from distinct slots, and every nonempty descriptor is pinned |
| `PinScan.PinsInView` | src/devices/mmio.rs:60-117 | every pin lies in the view it was scanned in |
| `RingStability.ChainStable` | src/devices/mmio.rs:152-180 | a chain reads back the same if the descriptor table is unwritten and its buffers stay in view |
| `RingStability.ScanStable` | src/devices/mmio.rs:60-117 | the whole scan repeats on any view that keeps ring bytes and pins |
| `Mappings.PredecessorTestIsComplete` | src/platform/macos_arm64/hvf.rs:128-139 | looking only at the last entry below the new end is the same as testing every entry |
| `Mappings.MappingTable.Map` | src/platform/macos_arm64/hvf.rs:123-143 | maps exactly when the region fits, meets no entry and the host agrees; else the table is unchanged |
| `Mappings.MappingTable.Unmap` | src/platform/macos_arm64/hvf.rs:145-164 | releases exactly when address, length and allocation match and the host agrees |
| `Transaction.Forward` | src/devices/memory.rs:71-77 | the forward loop applies a prefix and stops at the first host failure |
| `Transaction.Rollback` | src/devices/memory.rs:78-88 | the reverse loop undoes everything but the regions whose own undo call failed |
| `Transaction.Execute` | src/devices/memory.rs:71-96 | for any failure pattern: all applied, cleanly refused, or fatal with the table off exactly at failed undo calls; the error names the failed call and the first failed undo |
| `Transaction.FirstUndoIsFirst` | src/devices/memory.rs:78-94 | the reported undo failure is the first in undo order, and there is one exactly if a region is stuck |
| `Transaction.CleanAbortRestores` | src/devices/memory.rs:89-95 | a refusal means that the mapping table is what it was |
| `HotplugMemory.MemoryControl.SetRequestedMib` | src/memory.rs:75-83 | a target is accepted exactly before stop, as a whole number of blocks within the region |
| `HotplugMemory.VirtioMem.New` | src/devices/memory.rs:110-139 | a device exists exactly for a power-of-two block and a positive aligned region that fit 64 bits; it starts with those sizes, empty and accounted |
| `HotplugMemory.VirtioMem.AttachAt` | src/devices/memory.rs:149-162 | the window is placed exactly at an aligned address whose end fits, and picks up the requested size; the grid stays valid |
| `HotplugMemory.GridBound` | src/devices/memory.rs:292-293 | blocks on the grid of a window take up no more than the window |
| `HotplugMemory.VirtioMem.PluggedFits` | src/devices/memory.rs:292-293 | plugged blocks times block size never exceeds the capacity, so the product cannot overflow |
| `HotplugMemory.GridTable` | src/devices/memory.rs:236-253 | base RAM outside the window with blocks on the grid is a table of disjoint regions |
| `HotplugMemory.BuildPlug` | src/devices/memory.rs:54-70 | regions and next view can be built exactly if no address is plugged and every allocation succeeds |
| `HotplugMemory.BuildUnplug` | src/devices/memory.rs:54-70 | the device's own regions, and the view without them |
| `HotplugMemory.VirtioMem.Change` | src/devices/memory.rs:45-106 | transactional agreement: success commits block table, mappings and view together; refusal and fatal error keep table and view; mappings are off only at failed undo calls |
| `HotplugMemory.VirtioMem.Judge` | src/devices/memory.rs:227-288 | ERROR exactly for malformed requests, NACK exactly for a plug beyond the target, BUSY exactly for an unplug that meets a pin, STATE exact, and anything else may go ahead |
| `HotplugMemory.AnyPinned` | src/devices/memory.rs:280-286 | the saturating test finds exactly the blocks that share a byte with a pin |
| `HotplugMemory.VirtioMem.Request` | src/devices/memory.rs:220-297 | what is not acknowledged changes nothing; an acknowledged plug or unplug is granted in full, within the target, with sizes accounted and the generation bumped |
| `HotplugQueue.GrantKeeps` | src/devices/memory.rs:280-296 | a granted request keeps every pinned range in view with its bytes |
| `HotplugQueue.Parse` | src/devices/memory.rs:311-342 | a chain is a request exactly if it reads 24 bytes, can write 10, and no readable buffer follows a writable one |
| `HotplugQueue.Deliver` | src/devices/memory.rs:343-355 | the response is scattered over the writable buffers and the chain completed |
| `HotplugQueue.ServeChain` | src/devices/memory.rs:307-355 | one chain: pinned ranges stay, its own response buffers stay, agreement and accounting are kept unless the error is fatal; a malformed chain changes nothing; the response sent is true of what was done |
| `HotplugQueue.Perform` | src/devices/memory.rs:329-342 | the request runs with the chain's own buffers pinned, so those stay in view; the answer is exact |
| `Virtqueue.AheadIsModular` | src/devices/mmio.rs:141-148 | taking k entries moves the position by k modulo 2^16 |
| `UnplugSafety.CalmTake` | src/devices/memory.rs:307-310 | in a round that leaves rings unwritten the k-th take is the k-th scanned chain |
| `UnplugSafety.RingsStay` | src/devices/memory.rs:280-288 | rings of a scanned queue stay in view whatever the round writes |
| `UnplugSafety.NeededStays` | src/devices/memory.rs:280-288 | whatever a scanned queue needed before the round, rings and nonempty pending buffers, is in view after it, also if the round wrote over its rings |
| `UnplugSafety.PendingKept` | src/devices/memory.rs:280-288 | if the round left its rings unwritten, a scanned queue still scans in the new view and every entry still pending holds the very chain it held before |
| `UnplugSafety.Process` | src/devices/memory.rs:299-358 | up to 128 requests: every pinned range stays in view, tables agree unless fatal, a reliable host leaves only guest errors, only queue 0's positions move, and a success took and completed all pending requests or a full round |
| `Teardown.TeardownExact` | src/devices/memory.rs:192-205 | for any table, exactly those regions are gone that were mapped and whose own unmap call succeeded |
| `Teardown.TeardownAt` | src/devices/memory.rs:192-205 | a mapped region stays exactly if its own call failed, whatever other calls did |
| `Teardown.UnmapAll` | src/devices/memory.rs:196-204 | every region is attempted and the result is Ok exactly without failures |
| `Teardown.Stop` | src/devices/memory.rs:189-205 | the device stops after one unmap attempt per block; Ok exactly without failures; with agreeing tables base RAM is untouched and a reliable host leaves exactly base RAM |
| `Teardown.SyncTarget` | src/devices/memory.rs:207-218 | a configuration change is signalled exactly when the target differs |
| `Bits.NumberOfBits` | src/devices/mmio.rs:374-403 | a register word is determined by its bit positions |
| `Transport.TransportInvariant` | src/devices/mmio.rs:359-448 | after every sequence of accesses and callbacks FEATURES_OK means a legal feature subset and DRIVER_OK the whole handshake |
| `Transport.RingsFrozenWhileDriverOk` | src/devices/mmio.rs:405-442 | from DRIVER_OK until a reset ring sizes and addresses never change and ready flags only fall |
| `Transport.DriverOkNeedsValidRings` | src/devices/mmio.rs:397-402 | DRIVER_OK appears only on a write that found every queue ready and in view |
| `Transport.NeedsResetLasts` | src/devices/mmio.rs:376-387 | isolation lasts until a reset and keeps the device inactive |
| `Transport.IsolationStopsDataPath` | src/devices/mmio.rs:278-288 | while isolated, no callback outcome has any effect on a later state |
| `Transport.NeedsResetArises` | src/devices/mmio.rs:246-264 | the bit appears exactly on a contained guest error or a driver write of it |
| `Transport.DriverMaySetNeedsReset` | src/devices/mmio.rs:376-403 | a driver that writes 0x40 to a fresh device sets it |
| `Transport.GuestErrorIsolates` | src/devices/mmio.rs:246-264 | a guest error in the data path isolates the device and tells a live driver, touching no other status bit |
| `Transport.LenientNeverFails` | src/devices/mmio.rs:331-356 | one access to a lenient device never returns an error if the callback and reset results are no host errors; `RunLoop.Machine.Run` lifts this to runs over the real devices |
| `Transport.Mmio.Configure` | src/devices/mmio.rs:358-448 | a write has exactly its register meaning; a rejected one leaves every register as it was, also where a ready flag was tried out |
| `Transport.Mmio.WriteStatus` | src/devices/mmio.rs:386-403 | clearing bits or starting without the handshake is refused; an illegal feature set leaves FEATURES_OK clear |
| `Transport.Mmio.WriteRing` | src/devices/mmio.rs:405-445 | after DRIVER_OK or while ready only disabling is accepted |
| `Transport.Mmio.Reset` | src/devices/mmio.rs:375-385 | every ring and register is as created |
| `Transport.Mmio.Contain` | src/devices/mmio.rs:246-264 | fatal errors pass, contained ones isolate |
| `Devices.Write` | src/devices/mmio.rs:331-356 | a register write is one step of the transport, with the callback or reset that the device really made; on a sound backend only a strict device returns an error, and a guest error |
| `Devices.Notify` | src/devices/mmio.rs:332-340 | a notification reaches only an active device's ready queue, and its guest error isolates |
| `Devices.Poll` | src/devices/mmio.rs:282-288 | a poll reaches only an active device; its callback moves ring positions and keeps the memory regions |
| `Devices.WriteReset` | src/devices/mmio.rs:375-385 | the device resets first; if that fails no register changes, else a network device has nothing deferred |
| `Devices.WriteConfig` | src/devices/mmio.rs:342-356 | a write that a lenient device rejects is counted and changes no register |
| `Devices.Notified` | src/devices/mod.rs:68-74 | every device type's notification only moves ring positions and on a sound backend fails only by the guest |
| `Devices.Polled` | src/devices/mod.rs:76-82 | the same for polls; a network device transmits and then receives |
| `Runtime.ScanDevice` | src/runtime.rs:231-234 | one device is scanned, or isolated exactly for its own corrupt queues |
| `Runtime.Scan` | src/runtime.rs:228-234 | every live device's queues are pinned, every corrupt device isolated, and nothing that is not needed is pinned |
| `Runtime.DeviceSafe` | src/runtime.rs:228-242 | a device that was live keeps all it needed in view; in an undisturbed round it is still live and each entry still pending holds its old chain |
| `Runtime.FleetSafe` | src/runtime.rs:228-242 | the same for every device that is not isolated at the end |
| `Runtime.Transact` | src/runtime.rs:226-242 | unplug safety of the whole transaction: all that was needed stays in view and, undisturbed, every live queue still scans with its old chains pending; agreement of tables, confinement of guest faults to their device, no error in lenient mode with a reliable host, and a memory device that stays live has finished its round |
| `Runtime.MemoryPending` | src/runtime.rs:210-224 | target changes raise a configuration interrupt; pending requests are found exactly; an unusable queue isolates |
| `Runtime.ProcessMemory` | src/runtime.rs:205-245 | a transaction runs only between pause and resume, with all that `Transact` promises; without one nothing is moved or remapped; a stopping VM is left alone; lenient mode with a fine host never fails |
| `RunSafety.StepInView` | src/devices/mmio.rs:405-442 | no register write, callback or containment leaves a device that is not isolated with a ready ring outside the view |
| `RunSafety.AccessKeepsSafe` | src/devices/mmio.rs:405-442 | an access to one device keeps the ready rings of every device that is not isolated in view |
| `RunLoop.Machine.DoAlone` | src/runtime.rs:188-190 | a poll or write of a device is a step of its own transport that no other device notices |
| `RunLoop.Machine.DoOne` | src/runtime.rs:188-190 | it keeps every live ring in view and the memory books in step |
| `RunLoop.Machine.Hotplug` | src/runtime.rs:191-193 | a hot-plug opportunity keeps the machine valid; with a fine host its errors are guest errors of a strict VM |
| `RunLoop.Machine.HandleIo` | src/runtime.rs:247-322 | an access reaches the one device in whose window it starts; what decodes to no register is an error only in strict mode; only an access to no window is always one |
| `RunLoop.Machine.Run` | src/runtime.rs:141-203 | after every turn, whatever the turns, the ready rings of live devices are in view and base RAM plus blocks equal mappings and view; nothing changes while paused; a fine host and a lenient VM give no error |
| `RunLoop.Machine.TakeTurn` | src/runtime.rs:149-202 | one turn; the platform is asked only for a change of state, and a held VM is left alone |
| `Shutdown.MapBase` | src/runtime.rs:118-124 | wherever start-up ends, exactly the first `mapped` regions are mapped |
| `Shutdown.Cleanup` | src/runtime.rs:325-356 | from any mapping table, also one a failed rollback left: every step runs whatever failed before, a mapped region stays exactly if its own unmap call failed, the first error in order is kept, and a reliable host whose table was in step is left with nothing mapped |
| `Shutdown.InStepByNumber` | src/runtime.rs:336-350 | with a table in step, region k of blocks and base RAM stays exactly if call k of the cleanup failed |
| `Shutdown.CleanupAfterFailedRollback` | src/runtime.rs:323-350 | after a failed plug rollback a cleanup whose calls succeed leaves exactly the stuck regions; after a failed unplug rollback nothing, and it reports the missing blocks |
| `Shutdown.FirstErrorIsEarliest` | src/runtime.rs:327-350 | the kept error is the earliest one |
| `Shutdown.Outcome` | src/runtime.rs:37 | the run loop's error comes before the vCPU fault, and that before the cleanup error |
| `Buffers.PartIsSlice` | src/devices/buffers.rs:14-34 | a byte range of a slice list means that range of its addresses |
| `Buffers.Cut` | src/devices/buffers.rs:14-34 | the skip/len loop computes it |
| `Buffers.CopyTo` | src/devices/buffers.rs:36-46 | the first n bytes in address order |
| `Buffers.CopyFrom` | src/devices/buffers.rs:48-58 | the bytes stored front to back, the rest of memory unchanged |
| `Buffers.LoadOfStore` | src/devices/buffers.rs:36-58 | what was stored at distinct addresses reads back |
| `Overlap.NeighboursDecide` | src/devices/buffers.rs:68-69 | in a sorted list comparing neighbours finds every pair that meets |
| `Overlap.SortKeeps` | src/devices/buffers.rs:68 | sorting keeps whether any two slices meet |
| `Overlap.Overlaps` | src/devices/buffers.rs:60-70 | true if and only if some two slices meet |
| `Overlap.SeparatedDistinct` | src/devices/buffers.rs:60-70 | slices that do not meet have pairwise distinct byte addresses |
| `Storage.AnyOrder` | src/storage.rs:168-178 | separated segments moved in any order give the ordered store |
| `Storage.Disk.Collect` | src/storage.rs:155-166 | a batch is nonempty, within the limit, separated for reads, and ends early only for one of those reasons |
| `Storage.Disk.ReadBatch` | src/storage.rs:173-178 | one vectored read equals the ordered store; a failed one stays within its segments |
| `Storage.Disk.WriteBatch` | src/storage.rs:168-172 | one vectored write stores the concatenation even if sources overlap |
| `Storage.Disk.Transfer` | src/storage.rs:135-182 | out of bounds nothing moves; a read equals reading segment by segment in order, overlaps included; a write stores the concatenation; a failure touches nothing outside the request |
| `Block.SplitHeader` | src/devices/block.rs:127-138 | the 16-byte header may be split anywhere; header bytes must be readable and the data directions are those of the bytes behind it |
| `Block.Drive.CheckTransfer` | src/devices/block.rs:148-173 | a read or write passes exactly with one direction, whole sectors, permission, a used length that fits 32 bits and bounds |
| `Block.Drive.Execute` | src/devices/block.rs:111-196 | a request that fails validation touches nothing; an accepted one has exactly its meaning or fails within its own bytes, and succeeds on a healthy backend; a read's used length is payload plus one and fits |
| `Block.Drive.Request` | src/devices/block.rs:83-108 | only an untrustworthy status descriptor is an error; a request that fails validation writes only the status byte; the status byte tells the outcome |
| `Block.Drive.ServeChain` | src/devices/block.rs:47-57 | one chain: its request is answered, then its head is completed with the used length |
| `Block.Drive.Notify` | src/devices/block.rs:47-57 | exactly the requests pending at the notification are taken and completed |
| `Block.BlockRoundTrip` | src/devices/block.rs:147-181 | a written payload reads back through any two scatter lists and header splits, destinations apart from each other and the status byte |
| `Net.Transmitter.Transmit` | src/devices/net.rs:47-97 | accepted frames are the taken payloads in ring order, each once; heads are completed in that order; taken is completed plus at most one deferred frame; a call on a ready ring ends only after its budget, on a refusal, or with the ring empty |
| `Net.Transmitter.Retry` | src/devices/net.rs:53-63 | a retry offers the saved bytes of the deferred frame |
| `Net.Transmitter.PopFrame` | src/devices/net.rs:65-88 | a taken frame is the chain at the ring position without its header |
| `Net.Transmitter.Check` | src/devices/net.rs:68-87 | a chain is sendable exactly if readable, sized between a minimal frame and the capacity, and without offloads |
| `Net.Transmitter.Offer` | src/devices/net.rs:89-95 | an accepted frame is completed, a refused one saved with its head |
| `Net.Transmitter.Reset` | src/devices/net.rs:181-185 | a reset drops the deferred frame |
| `Receive.DirectIsDelivered` | src/devices/net.rs:113-146 | packet first and header later into non-overlapping buffers leaves what one pass of header and packet would |
| `Receive.Receiver.Fill` | src/devices/net.rs:112-145 | the guest bytes do not depend on the path taken; an absent packet leaves memory alone |
| `Receive.Receiver.ServeChain` | src/devices/net.rs:104-146 | an absent packet puts the entry back; a packet is delivered, or dropped if the chain is too small, with the exact used length |
| `Receive.Receiver.ReceiveOne` | src/devices/net.rs:100-146 | a round that ends leaves ring position and memory as they were |
| `Receive.Receiver.ReceiveAll` | src/devices/net.rs:99-148 | both ring positions move by exactly the packets delivered, the transmit ring is untouched, and a call ends only after its budget, on an empty ring, or when no packet is left |
| `Cpus.StepKeepsRunInv` | src/platform/macos_arm64/cpus.rs:121-156 | running flags cover everyone on the guest, a held pause has nobody running, and after a destroy nobody runs |
| `CpuProtocol.EveryRun` | src/platform/macos_arm64/cpus.rs:275-413 | the whole protocol invariant holds in every state of every schedule |
| `CpuProtocol.PauseBarrier` | src/platform/macos_arm64/cpus.rs:121-169 | once pause has returned Paused no vCPU runs or touches guest registers until resume |
| `CpuProtocol.NobodyRunsAfterDestroy` | src/platform/macos_arm64/cpus.rs:212-231 | after any vCPU is destroyed none ever runs again |
| `CpuProtocol.PowerAlternates` | src/platform/macos_arm64/cpus.rs:76-96 | two successful CPU_ON calls are separated by exactly one boot with the first call's entry and context and then one CPU_OFF |
| `CpuProtocol.PowerInEveryRun` | src/platform/macos_arm64/cpus.rs:281-319 | each vCPU's power events alternate in every run, and guest code runs only while its power is On |
| `CpuProtocol.NoLostWakeup` | src/platform/macos_arm64/cpus.rs:127-150 | a sleeping thread's own wait condition holds: the workers' three waits and the VM thread's wait for a pause, also where there is a timeout |
| `CpuProtocol.NoFaultLost` | src/platform/macos_arm64/mod.rs:161-210 | at the end every failed worker's fault was polled or drained, once, and no other |
| `CpuProtocol.ResultInEveryRun` | src/platform/macos_arm64/mod.rs:161-210 | a polled fault is the run loop's result, and the first drained one is the stop's |
| `CpuShared.Shared.TurnOn` | src/platform/macos_arm64/cpus.rs:76-96 | CPU_ON does its protocol step with the exact result code, and notifies exactly when it changed something |
| `CpuShared.Shared.Affinity` | src/platform/macos_arm64/cpus.rs:98-119 | the exact AFFINITY_INFO answer for one vCPU and for a group |
| `CpuShared.Shared.Decide` | src/platform/macos_arm64/cpus.rs:281-296 | the loop-top critical section does its protocol step |
| `CpuShared.Shared.CompleteIo` | src/platform/macos_arm64/cpus.rs:127-137 | write-back waits exactly while paused and not stopping |
| `CpuShared.Shared.TryPause` | src/platform/macos_arm64/cpus.rs:141-156 | Paused means nobody runs, Stopping means a stop won the race |
| `CpuShared.Shared.Quit` | src/platform/macos_arm64/cpus.rs:217-220 | the exit path stops everybody first |
| `CpuShared.Events.Poll` | src/platform/macos_arm64/mod.rs:176-196 | a fault is returned as soon as received and leaves the channel; only an empty channel consults stopping |
| `CpuShared.Events.Drain` | src/platform/macos_arm64/mod.rs:200-210 | the first fault left in the channel, and an empty channel |
| `ControlProtocol.ExactlyOneReply` | src/control.rs:132-261 | in every interleaving each accepted request is queued, in hand or answered, exactly one of these once, and answered when the run thread is over |
| `ControlProtocol.QueueEmptyOutsideRunning` | src/control.rs:132-153 | the queue is empty whenever the lifecycle is not Running or Paused |
| `ControlProtocol.LifecycleMovesForward` | src/control.rs:159-261 | the lifecycle never moves back |
| `ControlProtocol.NoLostWakeup` | src/control.rs:171-240 | a sleeping run loop has nothing to do, a sleeping stop call's VM has not stopped |
| `ControlProtocol.StopResultIsFinal` | src/control.rs:152-176 | stop returns only after Stopped, with the saved cleanup result, which never changes again |
| `ControlProtocol.PauseLastsUntilResume` | src/runtime.rs:149-180 | from the Ok reply until a resume is taken the VM stays held and no device is processed |
| `ControlProtocol.PauseReplyHolds` | src/control.rs:209-223 | an Ok reply to a pause leaves the VM held |
| `ControlShared.VmControl.Submit` | src/control.rs:132-153 | a request is accepted exactly while running or paused |
| `ControlShared.VmControl.Cancel` | src/control.rs:178-182 | every queued request is rejected, oldest first |
| `ControlShared.VmControl.Stop` | src/control.rs:159-171 | stop does its protocol step and rejects the queue |
| `ControlShared.VmControl.Complete` | src/control.rs:209-223 | a served request is answered and a stop that came first keeps its lifecycle |
| `ControlShared.VmControl.RejectStopping` | src/control.rs:225-233 | this request and all queued ones are rejected |
| `ControlShared.VmControl.Finish` | src/control.rs:253-261 | the VM is stopped and nothing stays queued |
| `Layout.Validate` | src/platform/mod.rs:62-141 | a layout passes if and only if its windows are nonempty, representable and pairwise disjoint and meet the configuration |
| `Layout.Add` | src/platform/mod.rs:84-103 | a window is added exactly if it fits and clashes with none before it |
| `Layout.AtMostOneWindow` | src/platform/mod.rs:62-141 | no address is in two windows of an accepted layout |
| `Layout.Decode` | src/runtime.rs:253-283 | an access decodes to the one device whose window it starts in, or to none |
| `EndToEnd.LayoutSuitsHotplug` | src/platform/mod.rs:62-141 | an accepted layout gives base RAM as a table of disjoint regions outside the hot-plug window |
| `EndToEnd.WorkerFailureFailsRun` | src/runtime.rs:33-38 | in every run a failed vCPU worker makes `run` return an error, and no worker is blamed that has not failed |
| `Program.RunVm` | src/runtime.rs:16-38 | a whole VM: its loop is safe after every turn; a host that never fails ends with nothing mapped, whatever the guest did and however the run ended; a lenient VM whose accesses all start in device windows reports no error unless the platform, a vCPU or a flush does |
| `Program.StartAndRun` | src/runtime.rs:99-139 | wherever start-up and the loop end, cleanup finds sound books and, unless the host failed, exactly the mapped base RAM and the blocks |
| `Program.Build` | src/runtime.rs:54-97 | freshly attached devices on a layout's base RAM make a valid machine |

## Left out

- Foreign calls: Hypervisor.framework, vmnet, XPC, file locks, flushes and `qcow2` parsing are host behaviour; hypervisor calls, allocations, flushes, sends and receives are parameters that may fail at any call.
- Guest writes that race a device reading the same buffer: guest memory is stable during a device step.
- Host pointers: slices are guest address ranges, and a slice is not split where guest regions meet; overlap is decided on guest addresses.
- Alignment of ring addresses inside the virtqueue library: any address a driver writes is stored.
- Values read from registers and configuration space: easy members beside the write path; whether a read decodes is modelled.
- Program.RunVm: the vCPU threads' fault is a parameter there, and `EndToEnd.WorkerFailureFailsRun` says what it is; one schedule over vCPU threads and devices together is not modelled.
- Boot images, device tree, serial port, CLI and logging: not safety relevant here or library work.
- Thread creation and a panic outside a worker's own fault reporting: schedules start with every worker at the top of its loop; waits with a timeout may also wake at any time.
- A panic of a platform call while a request is in hand: platform calls return in the control protocol.
- Kicking a vCPU out of the guest: in a schedule a guest exit can happen at any time.
- The owner-thread check of `submit` and `stop`, the memory status shown beside the lifecycle, and the final error text.
- `Mappings::destroyed`: taking or leaking the whole table at destruction has nothing to prove.
- Net.Transmitter.Transmit: after an error the ledger is only in order, not settled, since the source then isolates or ends the device.
- Liveness and timing: polling periods, timeouts and that a step is eventually taken are not modelled.
