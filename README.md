# WaterWall core, modelled in Dafny

WaterWall is a packet tunnelling engine. A configuration chains nodes ("tunnels") into a pipeline. Each connection travelling through the chain is a *line*, and *contexts* carry payload buffers or control flags (Init, Establish, Finish) between neighbouring nodes. This project models the part of WaterWall that moves bytes and keeps lines alive, together with the containers that part relies on. It then proves what that code promises.

Each source file is one Dafny module. Stateful code is a `class` whose methods are tied, through a `View()` snapshot, to pure specification functions. The properties are stated and proved about those functions.

- `Common`: optional values, the fixed-width unsigned integers of the C source, and byte strings.
- `DynArray` (`ww/base/internal_types/array.h`): the generic growable array. It covers capacity growth, insertion and deletion with negative positions counting from the end, swap-removal and swapping. The storage is an `array` with a `size` prefix in use.
- `MasterPool` (`ww/master_pool.h`): the capacity-bounded stack of reusable items shared by workers. `pop` takes items from the top and creates the rest; `reuse` stores items up to the capacity and destroys the rest.
- `ShiftBuffer` (`ww/bufio/shiftbuffer.c`): the payload buffer with reserved left padding. It covers creation with rounded capacity and padding, duplicate, concatenation, move, slice, and the header room it keeps.
- `SelectWatcher` (`ww/event/select.c`): the `select()` back end's descriptor sets, counters and `max_fd` bound, plus the event-loop entry points that maintain them.
- `NodeLibrary` (`ww/node_builder/node_library.c`): the append-only registry of node types. Lookup is by name hash, with the zeroed descriptor as the fallback.
- `WSocket` (`ww/base/wsocket.c`): the socket-address helpers. They cover family-dispatched port access, address length, host-to-address resolution, errno normalisation, the listen guard and the connect-timeout split.
- `TunDevice` (`ww/devices/tun/tun_linux.c`): the Linux TUN device's control logic. The reader hands packets to workers round-robin and the writer drains the write channel. `tundeviceWrite` is non-blocking on a bounded channel. The up/running state machine and the handling of a packet posted to a worker are modelled too.
- `ListenerCreate` (`tunnels/TcpListener/instance/create.c`): validation of the TcpListener settings, ending in the listener's socket filter options.
- `Backpressure`: the write-queue backpressure rule shared by the TCP tunnels:
  - payload is written straight to the socket until a write is partial;
  - the line then pauses and signals Pause, and queues payload while paused;
  - it resumes only once the queue is drained after a write-complete event.
- `TcpListener` (`tunnels/TcpListener/downstream/payload.c`, `tunnels/TcpListener/common/helpers.c`): the accepted side's payload handler and socket callbacks, which follow that rule.
- `TcpConnector` (`tunnels/TcpConnector/upstream/init.c`, `tunnels/TcpConnector/upstream/payload.c`): the outbound side's line set-up and its payload handler. The set-up covers the destination strategies, resolution, free bind, the socket and its single failure path.
- `ConnectorAdapter` (`tunnels/adapters/connector/tcp.c`): the older connector adapter. Instead of sending Pause/Resume signals, it stops reads on a context's source socket when it queues the context. It restarts those reads, once per run of equal sockets, when the context is released.

Calls into code outside the model are handled as follows:
- The event loop, the buffer pools, the next and previous node, and the operating system are outside the model.
- What the core asks of them is recorded in logs, such as writes, read stops, signals, destroyed contexts and connects.
- What they answer is taken as an input: bytes written, resolution results, descriptors and exit statuses.

## Model

| member | source | states |
|---|---|---|
| DynArray.ResizedCapacity | ww/base/internal_types/array.h:80-84 | a resize request for 0 slots becomes ARRAY_INIT_SIZE (16), any other request is kept, so the capacity is always positive |
| DynArray.GrownCapacity | ww/base/internal_types/array.h:86-88 | `double_resize` always grows the block, and doubles a nonzero capacity |
| DynArray.Inserted | ww/base/internal_types/array.h:111-115 | inserting before `p`: one element longer, `x` at `p`, the prefix unchanged, the tail shifted right by one |
| DynArray.Removed | ww/base/internal_types/array.h:123-126 | deleting at `p`: one shorter, the prefix unchanged, the tail shifted left by one |
| DynArray.SwapRemoved | ww/base/internal_types/array.h:134-137 | `del_nomove` at `p`: one shorter, the last element now at `p`, every other slot unchanged |
| DynArray.Swapped | ww/base/internal_types/array.h:147-149 | exactly the two named slots are exchanged |
| DynArray.InsertThenDelete | ww/base/internal_types/array.h:103-127 | `del(p)` after `add(x, p)` gives back the original contents |
| DynArray.RemovedKeepsOrder | ww/base/internal_types/array.h:118-127 | `del` keeps the relative order of the surviving elements |
| DynArray.SwapRemovedMultiset | ww/base/internal_types/array.h:129-138 | `del_nomove` loses exactly the deleted element: what remains plus that element is the original multiset |
| DynArray.Vec.Init | ww/base/internal_types/array.h:64-68 | a fresh array is empty with a block of exactly the requested capacity |
| DynArray.Vec.Clear | ww/base/internal_types/array.h:70-73 | no element is in use afterwards; the block and its capacity are kept |
| DynArray.Vec.Resize | ww/base/internal_types/array.h:80-84 | the block is reallocated to `ResizedCapacity(requested)` and the elements in use are kept |
| DynArray.Vec.DoubleResize | ww/base/internal_types/array.h:86-88 | the capacity becomes `GrownCapacity` of the old one and the contents are kept |
| DynArray.Vec.PushBack | ww/base/internal_types/array.h:90-96 | the contents become the old contents plus `x` at the end, and a full block is doubled first, so `size <= maxsize` is kept |
| DynArray.Vec.PopBack | ww/base/internal_types/array.h:98-101 | on a nonempty array the last element is dropped and nothing else changes |
| DynArray.Vec.At | ww/base/internal_types/array.h:48-54 | a negative position counts from the end, the resolved position lies in `[0, size)`, and the result is the element there |
| DynArray.Vec.Front | ww/base/internal_types/array.h:56-58 | None exactly when the array is empty, otherwise the first element |
| DynArray.Vec.Back | ww/base/internal_types/array.h:60-62 | None exactly when the array is empty, otherwise the last element |
| DynArray.Vec.Add | ww/base/internal_types/array.h:103-116 | the contents become `Inserted(old contents, resolved pos, x)`, and a full block is doubled first |
| DynArray.Vec.OpenGap | ww/base/internal_types/array.h:111-113 | the `memoryMove` of `add`: slots below `p` are kept and `[p, size)` moves one slot right |
| DynArray.Vec.Del | ww/base/internal_types/array.h:118-127 | the contents become `Removed(old contents, resolved pos)` within the same block |
| DynArray.Vec.DelNoMove | ww/base/internal_types/array.h:129-138 | the contents become `SwapRemoved(old contents, resolved pos)` within the same block |
| DynArray.Vec.Swap | ww/base/internal_types/array.h:140-150 | the block is `Swapped` at the two resolved positions; when both are in use, so are the contents |
| MasterPool.Kept | ww/master_pool.h:53-54 | the stack `pop` leaves, followed by the taken items, is the old stack |
| MasterPool.Dropped | ww/master_pool.h:102-105 | `reuse` destroys exactly the passed items it does not store |
| MasterPool.ReuseConserves | ww/master_pool.h:79-106 | every item passed to `reuse` is stored or destroyed, and none is both |
| MasterPool.PopConserves | ww/master_pool.h:49-59 | the items `pop` takes and the stack it leaves are together exactly the old stack |
| MasterPool.ReuseThenPop | ww/master_pool.h:55-101 | `reuse` of k items into a pool with room for them, then `pop` of k, returns the same items in the same order and restores the stack |
| MasterPool.Pool.constructor | ww/master_pool.h:31-40 | a new pool is empty, with the requested capacity |
| MasterPool.Pool.CreateItem | ww/master_pool.h:62-72 | the create callback hands out the next fresh item and touches nothing else |
| MasterPool.Pool.DestroyItem | ww/master_pool.h:83-104 | the destroy callback logs the item and touches nothing else |
| MasterPool.Pool.CreateInto | ww/master_pool.h:60-73 | the create loop fills `iptr[from..count)` with fresh items and leaves every other slot and the pool alone |
| MasterPool.Pool.TakeInto | ww/master_pool.h:55-59 | the copy loop puts `available[pbase..pbase+n)` into `iptr[0..n)` |
| MasterPool.Pool.PopItems | ww/master_pool.h:42-74 | `iptr[0..count)` receives `Taken(old stack, count)` then fresh items; the stack becomes `Kept`; nothing is destroyed; an empty pool creates all `count` and stays unchanged |
| MasterPool.Pool.PopStack | ww/master_pool.h:46-64 | the locked branch takes `min(len, count)` items from the top, bottom first, and lowers `len` by that many |
| MasterPool.Pool.DestroyRange | ww/master_pool.h:81-105 | a destroy loop passes `iptr[from..to)` to the destroy callback in order |
| MasterPool.Pool.StoreFrom | ww/master_pool.h:98-101 | the store loop writes `iptr[0..n)` at `available[base..base+n)` and keeps the slots below |
| MasterPool.Pool.ReuseItems | ww/master_pool.h:76-109 | the stack becomes old stack plus `Stored`, the destroy log gains `Dropped`, `len <= cap` is kept, and a full pool destroys every passed item |
| ShiftBuffer.RoundedPadding | ww/bufio/shiftbuffer.c:31 | the left padding is rounded up to the next multiple of 16 in 16-bit arithmetic (wrapping to 0 only above 65520) |
| ShiftBuffer.RoundedCapacity | ww/bufio/shiftbuffer.c:33-37 | a nonzero capacity that is not a cache-line multiple is rounded up to a multiple of 64 and to at least one line; 0 is kept |
| ShiftBuffer.RoundedPaddingIdempotent | ww/bufio/shiftbuffer.c:31-72 | rounding a padding twice is rounding it once, so a buffer's own `l_pad` survives re-creation |
| ShiftBuffer.RoundedCapacityIdempotent | ww/bufio/shiftbuffer.c:33-37 | rounding a capacity twice is rounding it once |
| ShiftBuffer.SBuf.WithPadding | ww/bufio/shiftbuffer.c:28-53 | a new buffer is empty and not temporary, with `curpos = l_pad = RoundedPadding(pad)` and `capacity = RoundedCapacity(min) + l_pad` |
| ShiftBuffer.SBuf.ReserveSpace | ww/bufio/shiftbuffer.c:89-109 | afterwards `n` bytes fit from `curpos`, and payload and padding are kept |
| ShiftBuffer.SBuf.ShiftRight | ww/bufio/shiftbuffer.c:114 | the first `n` payload bytes are dropped and the read position moves forward by `n` |
| ShiftBuffer.Create | ww/bufio/shiftbuffer.c:60-63 | `sbufCreate` is `sbufCreateWithPadding` with padding 0 |
| ShiftBuffer.Destroy | ww/bufio/shiftbuffer.c:13-20 | a temporary buffer is left alone; any other is released |
| ShiftBuffer.Duplicate | ww/bufio/shiftbuffer.c:70-77 | the copy has the same payload, the same left padding and at least the same capacity beyond it |
| ShiftBuffer.DuplicateFits | ww/bufio/shiftbuffer.c:72-127 | the sizes passed back to `sbufCreateWithPadding` fit in 32 bits, the padding is kept and the capacity grows by less than a line |
| ShiftBuffer.AlignedPaddingKept | ww/bufio/shiftbuffer.c:31 | a padding that is already a multiple of 16 is unchanged by the rounding |
| ShiftBuffer.Concat | ww/bufio/shiftbuffer.c:85-95 | the root's payload becomes root ++ buf, with length the sum of the two |
| ShiftBuffer.MoveTo | ww/bufio/shiftbuffer.c:104-117 | on an empty `dest` and `bytes <= len(source)`: `dest` holds the first `bytes` bytes and `source` the rest, and together they are the old source |
| ShiftBuffer.Slice | ww/bufio/shiftbuffer.c:125-130 | the slice has `b`'s left padding and `bytes` bytes, and slice ++ remaining `b` is the old payload |
| SelectWatcher.TallyAdd | ww/event/select.c:43-54 | `FD_SET` guarded by `FD_ISSET`: the fd joins the set, the counter moves only for a new fd, so `count == |fds|` is kept |
| SelectWatcher.TallyDel | ww/event/select.c:64-75 | `FD_CLR` guarded by `FD_ISSET`: the fd leaves the set, the counter moves only for a present fd, so `count == |fds|` is kept |
| SelectWatcher.AddedAsWritten | ww/event/select.c:40-54 | the add as written: `max_fd` is raised to `fd` whenever `fd > max_fd`, including over the -1 mark; the sets and counters stay in step |
| SelectWatcher.Added | ww/event/select.c:40-54 | the corrected add: the sets gain `fd` for the requested kinds, the counters stay in step, and `max_fd` never goes down and covers `fd` unless it is the -1 mark |
| SelectWatcher.Deleted | ww/event/select.c:61-75 | deleting `fd == max_fd` resets it to -1; the sets lose `fd` for the requested kinds with the counters in step |
| SelectWatcher.AddIdempotent | ww/event/select.c:43-54 | adding the same registration twice is adding it once |
| SelectWatcher.DeleteIdempotent | ww/event/select.c:61-75 | deleting the same registration twice is deleting it once |
| SelectWatcher.DeleteAbsentUnchanged | ww/event/select.c:64-75 | deleting an fd that is not registered and is not the bound changes nothing |
| SelectWatcher.AddThenDeleteRestoresSets | ww/event/select.c:43-75 | registering a new fd and deleting it again restores both sets and both counters |
| SelectWatcher.AddKeepsCover | ww/event/select.c:40-122 | the corrected add keeps `max_fd` a bound on every registered fd (or the -1 mark) |
| SelectWatcher.DeleteKeepsCover | ww/event/select.c:61-63 | a delete keeps `max_fd` a bound: it stays or becomes -1 |
| SelectWatcher.AddAsWrittenLosesDescriptor | ww/event/select.c:40-63 | add 3, add 7, delete 7, add 2 leaves `max_fd == 2` while fd 3 is still registered, so `select(max_fd + 1)` no longer polls it |
| SelectWatcher.RecomputedBoundCovers | ww/event/select.c:79-122 | the highest ready io slot bounds every registered fd when every registered fd's io is ready |
| SelectWatcher.SelectCtx.constructor | ww/event/select.c:19-25 | a fresh watcher has `max_fd = -1`, empty sets and zero counters |
| SelectWatcher.SelectCtx.Store | ww/event/select.c:39-54 | writes a snapshot back into the fields |
| SelectWatcher.EventLoop.Init | ww/event/select.c:17-28 | idempotent: an existing watcher is kept, otherwise a fresh one is created |
| SelectWatcher.EventLoop.AddEvent | ww/event/select.c:35-56 | creates the watcher when missing, then applies the add as written (`AddedAsWritten`): the descriptor joins the chosen sets and `max_fd` rises to it whenever it is larger, the -1 reset mark included |
| SelectWatcher.AsWrittenAgreesUnlessReset | ww/event/select.c:40-42 | the add as written equals the intended add, and keeps `max_fd` a bound, whenever `max_fd` is not the -1 mark a delete leaves; the two differ only right after such a delete |
| SelectWatcher.EventLoop.DelEvent | ww/event/select.c:58-77 | a no-op without a watcher, otherwise applies `Deleted` |
| SelectWatcher.EventLoop.FindMaxActiveFd | ww/event/select.c:79-86 | the highest slot whose io is non-null, active and has events, or -1 when there is none |
| SelectWatcher.EventLoop.PollEvents | ww/event/select.c:111-131 | skips without a watcher or with both counters 0; otherwise recomputes a -1 bound, keeps sets and counters, polls `max_fd + 1` descriptors, and splits a finite timeout into seconds and microseconds |
| NodeLibrary.LookupFindsFirst | ww/node_builder/node_library.c:65-79 | with no registry the result is the zeroed node; otherwise it is the first registered node with the key's hash, and the zeroed node when none matches |
| NodeLibrary.RegisterThenLookup | ww/node_builder/node_library.c:65-97 | after registration a new hash finds the new node, and an already registered hash keeps finding the earlier one |
| NodeLibrary.RegisterFindsNew | ww/node_builder/node_library.c:70-96 | appending a node with a hash not yet present makes that hash find it |
| NodeLibrary.RegisterKeepsEarlier | ww/node_builder/node_library.c:70-96 | appending never changes what an already present hash finds |
| NodeLibrary.ChainHeadIsBitInclusion | ww/node_builder/node_library.c:99-102 | the test holds exactly when every ChainHead bit is set: setting them makes it true, clearing them false, other bits do not matter; ChainHead, ChainHead\|ChainEnd and None answer true, true, false |
| NodeLibrary.Registry.constructor | ww/node_builder/node_library.c:87-94 | before the first registration there is no registry |
| NodeLibrary.Registry.Register | ww/node_builder/node_library.c:87-97 | the registry is created on first use and the node is appended at the end |
| NodeLibrary.Registry.LoadByTypeHash | ww/node_builder/node_library.c:65-79 | the front-to-back scan returns `Lookup(registry, htype)` |
| NodeLibrary.Registry.LoadByTypeName | ww/node_builder/node_library.c:81-85 | a lookup by name is the lookup by the name's hash |
| NodeLibrary.Registry.Cleanup | ww/node_builder/node_library.c:104-116 | every registered type name is freed, in order, and the registry becomes null |
| NodeLibrary.TypeNames | ww/node_builder/node_library.c:108-111 | the type names of the registered nodes, position by position |
| NodeLibrary.TypeNamesAppend | ww/node_builder/node_library.c:108-111 | the names of a registry with one more node are the old names plus its name |
| NodeLibrary.CleanupForgetsAll | ww/node_builder/node_library.c:87-116 | after cleanup every lookup gives the zeroed node, and a new registration starts a fresh registry holding only that node |
| WSocket.Port | ww/base/wsocket.c:90-99 | the port of an IPv4 or IPv6 address, and 0 for any other family |
| WSocket.SetPortRoundTrip | ww/base/wsocket.c:90-117 | for IPv4 and IPv6, setting port `p` and reading it back gives `p mod 2^16` (`p` itself in range); family and address are kept; any other family is left unchanged and reads 0 |
| WSocket.Len | ww/base/wsocket.c:133-146 | the IPv4 size, the IPv6 size, or `sizeof(sockaddr_u)` for any other family, never more than the last |
| WSocket.ErrnoNegative | ww/base/wsocket.c:22-26 | always negative: `-err` for a positive errno, else -1; the descriptor is closed exactly when it is valid |
| WSocket.ListenFd | ww/base/wsocket.c:227-234 | a negative descriptor passes through unchanged; the result is negative exactly when the descriptor was or `listen()` failed, and is the descriptor otherwise |
| WSocket.Timeval | ww/base/wsocket.c:239 | `ms / 1000` seconds and `(ms % 1000) * 1000` microseconds with C's truncating operators, totalling `ms * 1000` microseconds |
| WSocket.Chosen | ww/base/wsocket.c:69-74 | the index of the first IPv4 entry, or 0 when there is none |
| WSocket.ResolvePrefersInet | ww/base/wsocket.c:50-78 | an IPv4 literal sets AF_INET and returns 0 without lookup; a lookup error returns its code; otherwise the first IPv4 result is copied, falling back to the first result |
| WSocket.SockAddr.constructor | ww/base/wsocket.c:101-131 | a zeroed address |
| WSocket.SockAddr.SetPortOf | ww/base/wsocket.c:110-117 | the address becomes `SetPort(old address, p)` |
| WSocket.SockAddr.ResolveAddr | ww/base/wsocket.c:50-78 | the address and return code are `Resolved(old address, lookup)`, the list walk finding the first IPv4 entry |
| WSocket.SockAddr.SetIp | ww/base/wsocket.c:101-108 | a null or empty host gives IPv4 INADDR_ANY and 0; any other host is resolved |
| WSocket.SockAddr.SetIpPort | ww/base/wsocket.c:119-131 | a failing `SetIp` code is returned and the port is not set; otherwise the port is set and 0 returned |
| WSocket.SetIpPortRule | ww/base/wsocket.c:101-130 | an empty host gives IPv4 INADDR_ANY with the port set; a nonzero `SetIp` code is returned unchanged with no port set; on success an IPv4 or IPv6 port reads back modulo 2^16 |
| TunDevice.ClassifyRule | ww/devices/tun/tun_linux.c:86-158 | a result of 0 or a negative one with a critical errno exits; a negative one with EINVAL, EAGAIN/EWOULDBLOCK or EINTR retries; a positive count proceeds |
| TunDevice.ReadLoopRoundRobin | ww/devices/tun/tun_linux.c:75-117 | packets go to workers 0, 1, ..., W-1, 0, ... in turn, each with its read length; the target id always stays below W |
| TunDevice.ReadLoopConserves | ww/devices/tun/tun_linux.c:79-118 | every buffer taken from the reader pool is posted to exactly one worker or given back; the routine exits exactly when some read is end of file or critical, and otherwise uses every read |
| TunDevice.WriteCount | ww/devices/tun/tun_linux.c:130-159 | the writer takes buffers up to and including the first whose write ends it, else all of them |
| TunDevice.WriteStops | ww/devices/tun/tun_linux.c:143-158 | the writer stops right after the first write that ends it |
| TunDevice.WriteAll | ww/devices/tun/tun_linux.c:130-159 | with no write ending it, the writer takes the whole queue |
| TunDevice.UpDownRule | ww/devices/tun/tun_linux.c:236-300 | bring-up of an up device answers false and changes nothing; otherwise it is up and running with an empty open channel and starts the threads only when the link command succeeds, returning false with `up` still true when it fails; bring-down of a down device answers true and changes nothing; otherwise it is down, not running, without channel, and every leftover buffer went to the reader pool in order |
| TunDevice.UpIdempotent | ww/devices/tun/tun_linux.c:238-285 | a second bring-up changes nothing, and bring-down after bring-up leaves the device down with no channel |
| TunDevice.SendRule | ww/devices/tun/tun_linux.c:164-189 | a write succeeds exactly when the device runs and its open channel has room; it then queues the buffer last, and otherwise changes nothing |
| TunDevice.WriterKeepsOrder | ww/devices/tun/tun_linux.c:130-159 | the writer hands the channel's buffers to the writer pool in FIFO order with none lost, takes them all unless a write ends it, and exits only on such a write |
| TunDevice.Device.constructor | ww/devices/tun/tun_linux.c:236-264 | a created device is down, has no channel and runs no thread |
| TunDevice.Device.BringUp | ww/devices/tun/tun_linux.c:236-264 | device and answer are `BroughtUp(old device, command status)` |
| TunDevice.Device.BringDown | ww/devices/tun/tun_linux.c:267-300 | device and answer are `BroughtDown(old device, command status)` |
| TunDevice.Device.DrainChannel | ww/devices/tun/tun_linux.c:278-285 | closes the channel, moves every buffer left in it to the reader pool in order, and drops the channel |
| TunDevice.Device.Write | ww/devices/tun/tun_linux.c:164-189 | device and answer are `Sent(old device, buf)` |
| TunDevice.Device.ReadRoutine | ww/devices/tun/tun_linux.c:72-121 | a running device gains the packets, takes and returns of `ReadLoop` over the read results; a stopped one changes nothing |
| TunDevice.Device.ReadAll | ww/devices/tun/tun_linux.c:79-118 | the loop's posted packets and counters are those of `ReadLoop` from the start state |
| TunDevice.Device.WriteRoutine | ww/devices/tun/tun_linux.c:124-161 | device and exit flag are `WriterRan(old device, outcomes)` |
| TunDevice.Device.WriteLoop | ww/devices/tun/tun_linux.c:130-159 | the first `WriteCount` buffers leave the channel for the writer pool, in order, and nothing else changes |
| TunDevice.Device.WriteFront | ww/devices/tun/tun_linux.c:132-141 | one turn of the writer moves the front buffer to the writer pool |
| TunDevice.Device.EventReceived | ww/devices/tun/tun_linux.c:46-53 | the read callback sees the posted packet once and its message goes back to the pool; pending plus handled packets are conserved |
| ListenerCreate.Get | tunnels/TcpListener/instance/create.c:7-111 | an object member is found exactly when the object has a member with that key, and the value found is that of the first such member |
| ListenerCreate.Find | tunnels/TcpListener/instance/create.c:7-111 | a key is found in a member list exactly when some member has it, with the value of the first member that has it |
| ListenerCreate.PortSectionTerminates | tunnels/TcpListener/instance/create.c:5-47 | the port section terminates exactly on a missing field, a zero or non-number value, an array whose size is not 2, or an array with a zero or non-number element; `[9000, 80]` is accepted as min 9000, max 80 with no ordering check |
| ListenerCreate.ListenerState.constructor | tunnels/TcpListener/instance/create.c:52-65 | the tunnel state starts zeroed |
| ListenerCreate.ParsePortSection | tunnels/TcpListener/instance/create.c:5-47 | terminates exactly when `PortSection` is None; otherwise a nonzero number sets min = max = it, and a two-element array sets min and max from its elements in order |
| ListenerCreate.BackendStatus | tunnels/TcpListener/instance/create.c:99-100 | the status is 2 exactly for `"iptables"` and 3 exactly for `"socket"` |
| ListenerCreate.ReadWhitelist | tunnels/TcpListener/instance/create.c:111-145 | the loop yields `Whitelist(settings)`: a bad entry terminates, accepted entries are appended in order, and anything but a non-empty array gives an empty list |
| ListenerCreate.CreateOutcome | tunnels/TcpListener/instance/create.c:69-139 | create returns NULL exactly when the settings are not a non-empty object or lack the `address` string; it terminates exactly when those pass and the port section or a whitelist entry is bad |
| ListenerCreate.CreateFilter | tunnels/TcpListener/instance/create.c:93-150 | a registered filter carries the address, the min/max ports, TCP, no backend exactly for a single port, Iptables for status 2 and Sockets for status 3, and every whitelist entry verified and parsed, in order |
| ListenerCreate.WhitelistInOrder | tunnels/TcpListener/instance/create.c:111-145 | an accepted whitelist has one parsed entry per array item, in order, and every item passed both checks |
| ListenerCreate.TunnelCreate | tunnels/TcpListener/instance/create.c:49-155 | the settings part of create ends in `Create(settings)`: NULL, termination, or the registered filter options |
| Backpressure.Popped | tunnels/TcpListener/common/helpers.c:119-136 | the queue drain pops every buffer when all writes are full, otherwise up to and including the first partial one, and every earlier write was full |
| Backpressure.PoppedStops | tunnels/TcpListener/common/helpers.c:129-132 | the drain stops right after the first partial write and reports "pending" |
| Backpressure.PoppedAll | tunnels/TcpListener/common/helpers.c:123-135 | with every write full the drain pops the whole queue and reports true |
| Backpressure.PausedPayloadQueues | tunnels/TcpListener/downstream/payload.c:9-13 | while paused, the payload goes to the end of the pause queue, nothing is written, and exactly one Pause is signalled per payload |
| Backpressure.UnpausedPayloadWrites | tunnels/TcpListener/downstream/payload.c:14-27 | when not paused, the payload is written and the read timeout reset on every attempt; the line pauses and signals Pause exactly on a partial write (`0 <= nwrite < bytes`), never on a full or negative one |
| Backpressure.ResumedKeepsOrder | tunnels/TcpListener/common/helpers.c:119-136 | the drain writes a prefix of the queue in FIFO order and leaves the rest queued in order |
| Backpressure.ResumeOnlyWhenDrained | tunnels/TcpListener/common/helpers.c:138-164 | Resume is signalled exactly when the write is complete and the queue drains with every write full, and then the flag is cleared, the callback removed and the queue empty; otherwise flag, callback and signals are unchanged |
| Backpressure.StepKeepsBalanced | tunnels/TcpListener/downstream/payload.c:21-26 | one payload or write event keeps "paused iff callback installed" and "no more Resumes than Pauses" |
| Backpressure.RunKeepsBalanced | tunnels/TcpListener/common/helpers.c:150-162 | any sequence of payload and write events keeps the line balanced |
| Backpressure.ConnectedRunsBalanced | tunnels/TcpListener/common/helpers.c:66-70 | a line set up unpaused on connection stays balanced whatever the socket answers |
| TcpListener.ListenerLine.constructor | tunnels/TcpListener/common/helpers.c:64-95 | a new line state is unpaused, not established, with empty queues and Init sent |
| TcpListener.ListenerLine.DownStreamPayload | tunnels/TcpListener/downstream/payload.c:5-28 | the line state becomes `OnPayload(old state, buf, nwrite)` |
| TcpListener.ListenerLine.WriteHead | tunnels/TcpListener/common/helpers.c:114-127 | the head of the data queue is popped and handed to the socket; nothing else changes |
| TcpListener.ListenerLine.ResumeWriteQueue | tunnels/TcpListener/common/helpers.c:119-136 | the state becomes `Resumed(old state, nwrite)` and the answer is true exactly when every write was full |
| TcpListener.ListenerLine.WriteLoop | tunnels/TcpListener/common/helpers.c:123-135 | the first `Popped` buffers leave the queue for the socket in order, and nothing else changes |
| TcpListener.ListenerLine.FlushWriteQueue | tunnels/TcpListener/common/helpers.c:106-117 | the state becomes `Flushed(old state, closed)` |
| TcpListener.ListenerLine.FlushLoop | tunnels/TcpListener/common/helpers.c:108-116 | queued buffers are written in order until the socket is first found closed |
| TcpListener.ClosedStops | tunnels/TcpListener/common/helpers.c:110-113 | the flush stops at the first buffer found closed |
| TcpListener.ClosedNone | tunnels/TcpListener/common/helpers.c:108-116 | with the socket never found closed the flush writes the whole queue |
| TcpListener.FlushKeepsOrder | tunnels/TcpListener/common/helpers.c:106-117 | the flush writes a prefix of the queue in FIFO order, all of it unless the socket closes, and changes neither the flag nor the signals |
| TcpListener.Socket.constructor | tunnels/TcpListener/common/helpers.c:46-54 | an accepted socket starts with no userdata, no callbacks and no reading |
| TcpListener.OnRecv | tunnels/TcpListener/common/helpers.c:4-19 | with a null line state the buffer is recycled and nothing is forwarded; otherwise it is forwarded upstream as payload |
| TcpListener.OnClose | tunnels/TcpListener/common/helpers.c:21-44 | the userdata is cleared before the line is destroyed and Finish sent, so a later close sees null state and does nothing |
| TcpListener.OnInboundConnected | tunnels/TcpListener/common/helpers.c:46-104 | a fresh unpaused line state becomes the socket's userdata, the callbacks are installed, Init is sent, and reading starts only if the line is still alive |
| TcpListener.OnWriteComplete | tunnels/TcpListener/common/helpers.c:138-164 | nothing with a null line state; otherwise the line state becomes `Backpressure.OnWriteComplete(old state, complete, nwrite)` |
| TcpConnector.AddrCopy | tunnels/TcpConnector/upstream/init.c:23-26 | the address part (numeric address or domain) comes from the source context; port and protocol stay the destination's |
| TcpConnector.DestinationFollowsStrategies | tunnels/TcpConnector/upstream/init.c:20-47 | the address comes from the source (FromSource), the configured constant (Constant), or stays the line's destination with TCP set (FromDest and any other value); the port independently from the source, the constant, or unchanged |
| TcpConnector.InitConnectsIffChecksPass | tunnels/TcpConnector/upstream/init.c:49-126 | the set-up connects exactly when the destination is numeric or a present, resolvable domain, free bind succeeds when a range is set, the socket is valid and, with a mark set, SO_MARK succeeds; the peer is then numeric with the chosen port, and its address is the one free bind picked when a range is set, else the numeric or resolved one |
| TcpConnector.ConnectorLine.constructor | tunnels/TcpConnector/upstream/init.c:7-18 | a line reaching the connector with its routing context, no socket and no signal sent |
| TcpConnector.ConnectorLine.UpStreamInit | tunnels/TcpConnector/upstream/init.c:5-132 | the line state starts write-paused; any failing check destroys it and sends exactly one Finish back with no connect; success attaches the socket, sets the chosen peer (with the free-bind address when a range is set), resets the read timeout once and issues exactly one connect with no signal |
| TcpConnector.ConnectorLine.ResetState | tunnels/TcpConnector/upstream/init.c:10-14 | the initialised line state is write-paused, with empty queues and no socket |
| TcpConnector.ConnectorLine.SelectDestination | tunnels/TcpConnector/upstream/init.c:17-47 | both switches rewrite the destination to `Destination(cfg, src, old dest)` and touch nothing else |
| TcpConnector.ConnectorLine.FailPath | tunnels/TcpConnector/upstream/init.c:129-131 | the fail label destroys the line state and sends exactly one Finish, and issues no connect |
| TcpConnector.ConnectorLine.UpStreamPayload | tunnels/TcpConnector/upstream/payload.c:5-27 | the line state becomes `OnPayload(old state, buf, nwrite)`: queue and Pause while paused, otherwise write, reset the timeout, and pause with the callback and one Pause on a partial write |
| TcpConnector.PayloadBeforeConnectQueues | tunnels/TcpConnector/upstream/init.c:14 | payload reaching a freshly set-up (paused) line is queued and answered with one Pause, never written |
| ConnectorAdapter.Ids | tunnels/adapters/connector/tcp.c:13-37 | the context ids of a queue, one per context, in queue order |
| ConnectorAdapter.PayloadIds | tunnels/adapters/connector/tcp.c:21-24 | exactly the ids of the queued contexts that still hold a payload |
| ConnectorAdapter.ReleaseReadStarts | tunnels/adapters/connector/tcp.c:13-37 | a release loop restarts reads on exactly the sockets `Restarts` lists, appended to the log in order |
| ConnectorAdapter.ReleaseDiscarded | tunnels/adapters/connector/tcp.c:21-24 | the data-queue loop discards the payload of every context still holding one, in order; the finished-queue loop discards none |
| ConnectorAdapter.ReleaseDestroyed | tunnels/adapters/connector/tcp.c:25-36 | a release loop destroys every context of the queue once, in queue order |
| ConnectorAdapter.ReleaseOneDestroyed | tunnels/adapters/connector/tcp.c:25 | releasing one context destroys exactly that context |
| ConnectorAdapter.ReleaseFrame | tunnels/adapters/connector/tcp.c:13-37 | a release loop stops no reads, writes nothing, recycles no buffer, passes nothing on, connects and closes nothing |
| ConnectorAdapter.ReleaseClosedForm | tunnels/adapters/connector/tcp.c:13-37 | the whole effect of a release loop: reads restarted per `Restarts`, payloads discarded when asked, every context destroyed once in order, nothing else |
| ConnectorAdapter.RestartsNoRepeats | tunnels/adapters/connector/tcp.c:16-72 | reads are restarted once per run: never the same socket twice in a row, and never the socket restarted just before |
| ConnectorAdapter.RestartsCover | tunnels/adapters/connector/tcp.c:16-34 | every released context with a source socket gets that socket's reads restarted unless it was the socket restarted just before |
| ConnectorAdapter.RestartsSound | tunnels/adapters/connector/tcp.c:16-34 | only source sockets of released contexts have their reads restarted |
| ConnectorAdapter.RestartsAppend | tunnels/adapters/connector/tcp.c:11-37 | the two loops of cleanup, sharing `last_resumed_io`, restart reads as one loop over both queues |
| ConnectorAdapter.CleanupReleasesAll | tunnels/adapters/connector/tcp.c:5-42 | cleanup unbinds and frees the state, empties both queues, discards every data-queue payload, destroys every queued context once in queue order and restarts reads once per run over both queues |
| ConnectorAdapter.AllPayloadIds | tunnels/adapters/connector/tcp.c:21-24 | when every context holds a payload (as in `data_queue`), all of them are discarded |
| ConnectorAdapter.Sent | tunnels/adapters/connector/tcp.c:48-59 | the write loop pops every context up to and including the first partial write, or the whole queue when none is partial |
| ConnectorAdapter.SentStops | tunnels/adapters/connector/tcp.c:57-58 | after the first partial write the loop stops having popped that context, and the queue is not drained |
| ConnectorAdapter.SentAll | tunnels/adapters/connector/tcp.c:48-60 | with every write full, the loop pops the whole queue and drains it |
| ConnectorAdapter.WrittenStep | tunnels/adapters/connector/tcp.c:51-54 | each loop turn writes one payload and returns that same buffer to the pool |
| ConnectorAdapter.PrefixStep | tunnels/adapters/connector/tcp.c:50-56 | each loop turn adds one payload and one emptied context to what was written and parked |
| ConnectorAdapter.ResumedFifo | tunnels/adapters/connector/tcp.c:43-74 | resume writes a prefix of the queue in order and keeps the rest queued in order; it returns true exactly when every write was full, and then both queues are empty; otherwise the written contexts are parked in `finished_queue` and nothing is destroyed |
| ConnectorAdapter.PayloadsSplit | tunnels/adapters/connector/tcp.c:48-59 | the written payloads followed by the still-queued ones are the original queue's payloads |
| ConnectorAdapter.ResumedDrained | tunnels/adapters/connector/tcp.c:43-74 | when no queued write is partial, resume writes the whole queue in order, returns true and releases `finished_queue` followed by the emptied contexts, leaving both queues empty |
| ConnectorAdapter.ResumedPartial | tunnels/adapters/connector/tcp.c:48-59 | when a queued write is partial, resume returns false, keeps the unwritten rest queued and parks the written prefix emptied in `finished_queue` |
| ConnectorAdapter.ResumedDrainedDestroysAll | tunnels/adapters/connector/tcp.c:61-73 | a drained resume destroys every context of `finished_queue` and then of `data_queue`, each once, in that order |
| ConnectorAdapter.IdsAppend | tunnels/adapters/connector/tcp.c:56 | appending contexts to a queue appends their ids |
| ConnectorAdapter.WriteCompletePausesIffPending | tunnels/adapters/connector/tcp.c:76-111 | after a complete write the line stays paused, with the write callback, exactly when the queue could not be drained; otherwise it is unpaused with both queues empty |
| ConnectorAdapter.NullStateCallbacksIgnored | tunnels/adapters/connector/tcp.c:80-143 | write-complete, receive and close callbacks that find no state change nothing |
| ConnectorAdapter.UpPayloadRule | tunnels/adapters/connector/tcp.c:186-216 | while paused a payload stops its source's reads and is queued last with nothing written; unpaused it is written once and the line pauses exactly on a partial write, which also stops the source's reads |
| ConnectorAdapter.FinalContext | tunnels/adapters/connector/tcp.c:237-268 | the address comes from the source context, the destination context or the settings (a configured domain starts unresolved), and the port independently from the source, the destination or the settings |
| ConnectorAdapter.UpInitOutcome | tunnels/adapters/connector/tcp.c:219-341 | a new state starts paused with empty queues; a failed resolve or socket leaves no state, connects nothing and sends exactly one Finish back; success connects exactly once and sends nothing; the init context is destroyed either way |
| ConnectorAdapter.ResumedKeepsValid | tunnels/adapters/connector/tcp.c:43-74 | every context still in `data_queue` after a resume holds its payload |
| ConnectorAdapter.WriteCompleteKeepsValid | tunnels/adapters/connector/tcp.c:76-111 | a write-complete event keeps the state's shape invariant |
| ConnectorAdapter.ReceiveAndCloseKeepValid | tunnels/adapters/connector/tcp.c:113-383 | receiving keeps the shape invariant; a close frees the state with both queues empty |
| ConnectorAdapter.ConnectedResumes | tunnels/adapters/connector/tcp.c:152-376 | an outbound connection marks the line established and unpauses it exactly when the queue drains; otherwise it installs the write callback and stays paused |
| ConnectorAdapter.Connector.constructor | tunnels/adapters/connector/tcp.c:222-223 | a line with no connector state, no socket and empty queues |
| ConnectorAdapter.Connector.ReleaseData | tunnels/adapters/connector/tcp.c:13-26 | the data-queue loop of cleanup releases the queue front to back and returns the last restarted socket; only the queue and the log change |
| ConnectorAdapter.Connector.ReleaseFinished | tunnels/adapters/connector/tcp.c:28-109 | the finished-queue loop releases the queue front to back without discarding; only the queue and the log change |
| ConnectorAdapter.Connector.ReleaseContext | tunnels/adapters/connector/tcp.c:16-25 | one loop turn: restart reads if the source differs from the last, discard when asked, destroy |
| ConnectorAdapter.Connector.Cleanup | tunnels/adapters/connector/tcp.c:5-42 | the new state is `CleanedUp` of the old one |
| ConnectorAdapter.Connector.WriteQueued | tunnels/adapters/connector/tcp.c:48-59 | the write loop pops `Sent` contexts, writes their payloads in order, parks them emptied in `finished_queue`, and reports whether the queue drained; nothing else changes |
| ConnectorAdapter.Connector.WriteFront | tunnels/adapters/connector/tcp.c:50-56 | one write-loop turn pops the front context, writes and recycles its payload and parks it emptied |
| ConnectorAdapter.Connector.ResumeWriteQueue | tunnels/adapters/connector/tcp.c:43-74 | state and result are `Resumed` of the old state |
| ConnectorAdapter.Connector.OnWriteComplete | tunnels/adapters/connector/tcp.c:76-111 | the new state is `WriteCompleted` of the old one |
| ConnectorAdapter.Connector.OnRecv | tunnels/adapters/connector/tcp.c:113-131 | the new state is `Received` of the old one |
| ConnectorAdapter.Connector.OnClose | tunnels/adapters/connector/tcp.c:133-150 | the new state is `Closed` of the old one |
| ConnectorAdapter.Connector.OnOutBoundConnected | tunnels/adapters/connector/tcp.c:152-180 | the new state is `OutBoundConnected` of the old one |
| ConnectorAdapter.Connector.NewEstablish | tunnels/adapters/connector/tcp.c:176-178 | a fresh Establish context whose source is the outbound socket |
| ConnectorAdapter.Connector.UpStreamPayload | tunnels/adapters/connector/tcp.c:186-216 | the new state is `PayloadUp` of the old one |
| ConnectorAdapter.Connector.UpStreamInit | tunnels/adapters/connector/tcp.c:219-328 | the new state is `InitUp` of the old one |
| ConnectorAdapter.Connector.Reset | tunnels/adapters/connector/tcp.c:222-235 | a fresh state: live, write-paused, no socket, empty queues |
| ConnectorAdapter.Connector.Connect | tunnels/adapters/connector/tcp.c:312-327 | binds the new socket to the state, issues one connect and destroys the init context |
| ConnectorAdapter.Connector.FailSetUp | tunnels/adapters/connector/tcp.c:279-341 | cleanup, then exactly one new Finish passed back and the init context destroyed |
| ConnectorAdapter.Connector.UpStreamFin | tunnels/adapters/connector/tcp.c:329-336 | the new state is `FinUp` of the old one: cleaned up, context destroyed, socket closed |
| ConnectorAdapter.Connector.UpStream | tunnels/adapters/connector/tcp.c:182-342 | the new state is `UpStreamed` of the old one |
| ConnectorAdapter.Connector.DownStream | tunnels/adapters/connector/tcp.c:343-384 | the new state is `DownStreamed` of the old one |
| ConnectorAdapter.Connector.EstablishDown | tunnels/adapters/connector/tcp.c:366-376 | the new state is `EstDown` of the old one |
| ConnectorAdapter.Connector.SetWriteFlags | tunnels/adapters/connector/tcp.c:370-373 | unpause when the queue drained, else install the write callback |
| ConnectorAdapter.Connector.StartReading | tunnels/adapters/connector/tcp.c:368-369 | marks the line established and starts reading its socket |
| ConnectorAdapter.Connector.PassOn | tunnels/adapters/connector/tcp.c:375 | passes one context on to the previous node |

## Left out

- Concurrency: the master pool's mutex and atomic length, the TUN reader and writer threads, and the worker message queues are modelled one step at a time. Interleavings, including the pool's racy read of its length, are not modelled.
- Memory management is reduced to logs of destroyed or recycled items:
  - `malloc`/`free`, `memset` zeroing (including `array_clear` and the debug fill of shift buffers) and the allocator are not modelled;
  - `array_cleanup` and the trivial accessors of `array.h` are not modelled.
- DynArray.Vec.DoubleResize: capacities are unbounded. The `(int)` narrowing of `maxsize * 2` in `array.h` is not modelled.
- DynArray.Vec.Swap: `array_swap` checks its positions against `maxsize` only. Out-of-range positions are therefore excluded by a requires rather than modelled as the memory corruption they would cause.
- ShiftBuffer: the helpers the file calls but does not define (`sbufReserveSpace`, `sbufShiftRight`, `sbufSetLength`, `sbufWriteBuf`) have the contracts their uses imply. Other buffer operations are not modelled.
- ShiftBuffer.SBuf.WithPadding: requires the rounded capacity plus the rounded padding to fit in 32 bits. The source's wrap of `real_cap` beyond that is not modelled.
- ShiftBuffer.Create: requires the rounded capacity to fit in 32 bits, where the source would wrap.
- ShiftBuffer.Duplicate: requires the rounded capacity to fit in 32 bits, where the source would wrap.
- ShiftBuffer.Duplicate: requires the payload to fit in the capacity without the left padding. A buffer whose payload reaches into the padding, after a header was prepended, is excluded. For such a buffer `sbufDuplicate` sets a length larger than the new buffer's capacity, and the model does not describe that overrun.
- ShiftBuffer.Slice: requires the rounded capacity to fit in 32 bits, where the source would wrap.
- ShiftBuffer: the cache-line size is fixed at 64 bytes.
- SelectWatcher: the following are not modelled:
  - the `select()` system call itself;
  - the readiness scan after it;
  - `remove_bad_fds`;
  - the watcher's clean-up.
  A poll is reported as the `select()` it would issue.
- TunDevice: `open`/`ioctl` of the device and the creation of its buffer pools are not modelled. Shell commands (`ip link set ... up/down`, address assignment) are their exit status, given as an input. The blocking `chanRecv` of the writer is a step that finds the channel open or closed.
- TunDevice: packet contents are not inspected; reads and writes are modelled by their lengths and results.
- TunDevice.Device.EventReceived: requires a pending message to exist, which the event loop guarantees by dispatching only posted messages.
- TunDevice: when the device is brought down, buffers still queued on the write channel go back to the reader's pool, not the writer's. The model records this hand-back as written.
- WSocket: Unix domain sockets are not modelled.
- WSocket: `inet_pton`, `getaddrinfo`, `listen()` and `errno` are inputs. Family numbers and structure sizes are those of Linux.
- WSocket: `Bind`, `Connect` and `wwListen` are not modelled beyond the guard and timeout arithmetic, because they are direct system-call wrappers.
- WSocket.Resolved: when `getaddrinfo` reports success with an empty result list, `resolveAddr` returns 0 without setting an address. The model keeps this behaviour.
- ListenerCreate: JSON numbers are integers, and the port's conversion to 16 bits wraps as the C cast does.
- ListenerCreate: the bodies of `getStringFromJsonObject`, `getBoolFromJsonObject` and `parseDynamicStrValueFromJsonObject` are not part of this model. They are given the definitions their names and uses imply (`StringField`, `BoolField`, `BackendStatus`).
- ListenerCreate: the CIDR check and the CIDR parser are inputs, as parameters of `Create`.
- ListenerCreate: the `interface` and `balance-group` strings are passed through unchecked. The `balance-interval` number is not modelled.
- NodeLibrary: the name hash `calcHashBytes` is a parameter, and the node flag bit values are those of `node.h`. `node.h` is not part of this model.
- NodeLibrary: dynamic loading of node libraries from disk (`library_loader.c`) is not part of this model. The fallback returns the zeroed descriptor as the source does.
- TcpConnector: these set-up steps are inputs:
  - name resolution (`resolveContextSync`);
  - the address the free-bind helper picks (`tcpconnectorApplyFreeBindRandomDestIp`), or its failure;
  - `socket()`;
  - the `SO_MARK` option.
- TcpConnector: the `TCP_NODELAY` and `TCP_FASTOPEN` options and the conversion of the destination to a `sockaddr` for the peer address are not modelled. They change no state the model observes. The read timeout set at connect time is counted in `timeoutResets`; its value is not modelled.
- TcpConnector.AddrCopy: copies the address part only. This is the contract of `addresscontextAddrCopy` as the set-up uses it; its body is not part of this model.
- TcpListener: the payload handler queues paused payload on `pause_queue`, while the write-complete callback drains `data_queue`. The model keeps the two queues separate as written. Draining `pause_queue` happens in code that is not part of this model.
- TcpListener: while paused, the source sends one Pause per arriving payload, not a single Pause. The model follows the code.
- ConnectorAdapter: the `PROFILE` timing blocks and all logging are not modelled.
- ConnectorAdapter: the socket options (`tcp_nodelay`, `so_reuseport`, `TCP_FASTOPEN`) and the peer address set on the new socket are not modelled. They change no state the model observes.
- ConnectorAdapter.FinalContext: the source passes `&src_ctx` and `&dest_ctx`, which have type `socket_context_t **`, to `copySocketContextAddr`. The model performs the copy of the address part that is evidently intended.
- ConnectorAdapter: `onOutBoundConnected` installs the read callback on the socket; the model records only the reads started.
- ConnectorAdapter: the limit on queued contexts is a parameter of the context queue and is not modelled.
- Not part of this model:
  - `ww/event/overlapio.c`, the overlapped-I/O event back end;
  - `core/main.c`;
  - `ww/library_loader.c`;
  - `ww/ww.h`;
  - `tunnels/adapters/tcp_connector/resolve.c`, the adapter's resolver; its result is an input;
  - the node descriptors in the `instance/node.c` files of TcpListener, Bridge and UdpStatelessSocket;
  - the Bridge tunnel's `upstream/resume.c`.

## Findings

| source | as written | input that shows it | evidently intended | confidence | as-written member | corrected member |
|---|---|---|---|---|---|---|
| ww/event/select.c:40-42 | after deleting the current maximum resets `max_fd` to -1, the next add of any descriptor sets `max_fd` to that descriptor, even when a larger one is still registered | add 3 for read, add 7 for read, delete 7, add 2 for read: `max_fd` becomes 2 while 3 is registered, so `select(max_fd + 1)` never polls descriptor 3 | keep `max_fd` at -1 so that the next poll recomputes it, or otherwise keep a bound that covers every registered descriptor | medium, not executed | SelectWatcher.AddedAsWritten | SelectWatcher.Added |
