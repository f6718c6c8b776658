# A verified model of ipc-shm

ipc-shm is a driver for exchanging messages between two operating systems over shared memory. Each side runs the
same code and writes only its own half of the memory. This project models its queue (`ipc-queue.c`), buffer manager,
initialisation and receive loop (`ipc-shm.c`), and interrupt path (`os_kernel/ipc-os.c`), and proves what the driver
is for: messages arrive once, in order and intact; no buffer is lost or owned twice; a side may restart at any time;
no channel starves; no notification is lost.

`dafny verify dfyconfig.toml` checks the whole project.

| file | what it models |
|---|---|
| `Types.dfy` | constants, machine integer widths, error codes, buffer descriptors |
| `Fifo.dfy` | one direction of a queue as a value; push and pop as single steps |
| `Spsc.dfy` | the same push and pop as loads, word-by-word copies and index stores, in any interleaving |
| `Handshake.dfy`, `Queue.dfy` | index synchronisation; the queue of `ipc-queue.c` as objects over shared arrays |
| `Restart.dfy` | a queue over any run of init, free, push and pop by both sides |
| `Resync.dfy` | what a side restarting against a live peer recovers of its buffer pool |
| `ConcurrentInit.dfy` | both sides initialising a whole instance at once, load by load, with roll-back and retry |
| `InitCompletes.dfy` | why two retrying sides cannot refuse each other forever |
| `SoloInit.dfy` | the same loads and stores without interruption, against the single-step handshake and populate loop |
| `Rollback.dfy` | what failed and repeated init attempts leave in memory |
| `Layout.dfy`, `Address.dfy` | placement of rings and buffers, and the address arithmetic over it |
| `Channel.dfy`, `Port.dfy` | circulation of buffers on a managed channel; the API calls on the shared rings of its queues |
| `Boot.dfy` | from an accepted configuration and cleared memory to the state in which messages start to flow |
| `Unmanaged.dfy` | Tx counter signalling of unmanaged channels |
| `RxCount.dfy` | the course and the count of the receive loop, as a function of queue lengths, Tx counters and arrivals |
| `RxLoop.dfy`, `Kernel.dfy` | the fair receive loop while the peer keeps sending; polling, interrupt and tasklet routines |
| `Wakeup.dfy`, `WakeupRuns.dfy` | senders, interrupt handlers, tasklet and receive loop interleaved step by step; what whole runs add up to |
| `SoloRx.dfy` | the same steps of the receive loop without interruption, against `RxCount` |

## Premises

- Both sides have the same channel and pool configuration (`ipc-types.h:236`), and shared memory starts cleared.
- Memory is sequentially consistent. The driver contains no barriers, so this is an assumption about the platform.
- Each queue has one pushing and one popping thread (`ipc-queue.h:40-43`).
- A sentinel word holds one of three values: clear, initialisation in progress, initialised.
- Instance numbers are below `IPC_SHM_MAX_INSTANCES`; mapping addresses plus offsets do not exceed the address space.
- `Spsc` and `ConcurrentInit` interleave single loads and stores. `Wakeup` interleaves the load of a write index or Tx
  counter, the store that follows from it, and every single access to the interrupt bits. Elsewhere an API call is one
  step, and in `RxLoop` the peer acts before every load of the receive loop.
- Over retries of an init attempt the configuration and the mapping addresses stay the same.
- The interrupt hardware is a latched pending bit and an enable bit per instance; an interrupt is raised while both
  are set. A tasklet does not run concurrently with itself and clears its scheduled bit when it starts.
- The two applications of a managed channel are arbitrary but disciplined: they send buffers they hold, fill only
  those, and release each received buffer at most once.
- The outside world is a parameter: what the peer sends at each moment (`RxLoop.Traffic`), and what an init attempt
  finds in the peer's memory (`Rollback.World`).

## Where the code differs from its documentation

- `ipc_shm_poll_channels` is documented to return the number of messages processed (`ipc-shm.h:155-156`). The count is
  converted to `int8_t`, and the callback of an unmanaged channel is counted as a whole share of the budget
  (`ipc-shm.c:325`). `RxLoop.Instance.PollChannels` shows for every mix of channels and a silent peer: the result is the
  number of messages and callbacks handled if and only if fewer than 128 messages are queued and no unmanaged channel
  has a changed counter. `RxLoop.PollOneCallback`: one message on a single unmanaged channel makes the result -128.
- The check that a pool fits into shared memory (`ipc-shm.c:487-496`) is made on a size computed in 32 bits.
  `Layout.OverflowAccepted` is an accepted configuration whose buffers lie outside; `Layout.BuffersInsideIffFits32`
  shows that the buffers lie inside if and only if no pool size overflows.
- Unmanaged channels are not checked against the memory size (`ipc-shm.c:642-682`). `Layout.UnmanagedOverrunAccepted`
  is an accepted configuration that does not fit; `Layout.AllInsideIffSizesFit` gives the exact condition.
- A restarting side is meant to recover all buffers of a pool. The API lets the peer release buffers in any order.
  `Resync.OutOfOrderReleaseLosesABuffer` recovers one buffer twice and another never;
  `Resync.ResyncSafeIffReleasedInOrder` shows that recovery is right throughout a run if and only if every release
  returned the oldest buffer still out.
- A changed Tx counter is meant to cause a callback. A multiple of 2^32 sends between two receives is missed
  (`Unmanaged.FullCircleIsMissed`); `Unmanaged.CallbackIffUnreceived` is exact.
- The comment in `ipc_shm_softirq` reads as if the interrupt were enabled again only when the budget was not used up.
  The code enables it in both cases (`os_kernel/ipc-os.c:84-90`), and so does the model.

## Model

| member | source | states |
|---|---|---|
| Fifo.PushAppends | ipc-queue.c:47-80 | Push puts the element behind everything queued, keeps the indexes in range, and is refused with -ENOMEM, changing nothing, exactly when n - 1 elements are queued: one slot is never filled |
| Fifo.PopTakesHead | ipc-queue.c:10-45 | Pop returns the oldest element and leaves the rest, and is refused with -ENOBUFS, changing nothing, exactly when nothing is queued |
| Fifo.BadIndexIsRefused | ipc-queue.c:27-31 | Push and pop refuse with -EINVAL, changing nothing, exactly when an index is outside the ring |
| Fifo.PushAllAppends | ipc-shm.c:498-511 | A sequence that fits beside what is queued is queued entirely, in order, without moving the read index |
| Spsc.PublishKeeps | ipc-queue.c:72-77 | Storing the write index makes the completely copied element, and nothing else, visible at the tail, whatever the popper is doing |
| Spsc.CopyWordKeeps | ipc-queue.c:72-74 | Copying any single word into the ring changes nothing a popper can see |
| Spsc.ConsumerSurvivesPublish | ipc-queue.c:22-31 | What a popper concluded from an older write index stays true when the write index advances |
| Spsc.ProducerSurvivesTake | ipc-queue.c:58-70 | What a pusher concluded from an older read index stays true when the read index advances |
| Spsc.TakeKeeps | ipc-queue.c:37-42 | The element assembled word by word while the pusher ran is exactly the head of the queue when the read index is stored |
| Spsc.PushStepKeeps | ipc-queue.c:47-80 | Every load, word copy and store of push keeps the two-thread invariant and what has been popped |
| Spsc.PopStepKeeps | ipc-queue.c:10-45 | Every load, word copy and store of pop keeps the two-thread invariant and what has been pushed |
| Spsc.RunKeepsInv | ipc-queue.c:10-80 | The invariant holds in every state of every interleaving, from any indexes a first init or a restart left |
| Spsc.SpscIsFifo | ipc-queue.h:40-43 | In every state of every interleaving, from any valid indexes: popped elements followed by the queued ones are the initially queued and the pushed ones; at most n - 1 are queued; the slot being written is never one that may be read; a refusal was justified at some moment of the call; no index is found invalid |
| Spsc.SoloPushIsAtomic | ipc-queue.c:47-80 | A push whose steps nobody interrupts has exactly the effect and reply of the single-step push |
| Spsc.SoloPopIsAtomic | ipc-queue.c:10-45 | A pop whose steps nobody interrupts has exactly the effect, element and reply of the single-step pop |
| Queue.RingMem.constructor | ipc-queue.h:15-20 | A ring in cleared memory has a clear sentinel and zero indexes |
| Queue.Queue.Pop | ipc-queue.c:10-45 | On the shared arrays, takes the head of the incoming direction by writing only the own ring's read index; the outgoing direction is untouched; unmapped, unmarked or empty-sized rings are refused unchanged |
| Queue.Queue.Push | ipc-queue.c:47-80 | On the shared arrays, appends to the outgoing direction by writing only the own ring; the incoming direction is untouched |
| Queue.Queue.SyncIndex | ipc-queue.c:91-118 | Writes only the own control words, with the values of the synchronisation rule for channel and pool queues |
| Queue.Queue.Init | ipc-queue.c:120-147 | Refuses each invalid argument leaving everything unchanged; otherwise maps both rings with one extra slot and synchronises; a count of 65535 wraps to 0 slots |
| Queue.Queue.Free | ipc-queue.c:149-168 | Clears a marked own ring completely, leaves an unmarked one alone, and unmaps it in both cases |
| Queue.Queue.Populate | ipc-shm.c:498-514 | Offers every buffer of the pool in order, or stops at the first refused push; marks the ring as initialised only when all were queued |
| Restart.PopulateSucceeds | ipc-shm.c:498-511 | After synchronising in any reachable state, the populate loop is never refused and leaves exactly the pool's descriptors queued |
| Restart.InitSynchronises | ipc-queue.c:91-147 | Init of a freed side succeeds, touches nothing of the peer, and against an initialised peer leaves a channel queue empty and a pool queue full in both directions |
| Restart.SyncIndexValues | ipc-queue.c:97-115 | The adopted indexes are the peer's read and write index, one further for a pool |
| Restart.ApplyKeepsInv | ipc-queue.c:10-168 | Init, free, push and pop of either side keep all indexes in range and free memory zeroed, never touch the peer's memory, and change what is queued in the two directions and the marks as the calls promise |
| Restart.RestartAlwaysResynchronises | ipc-queue.c:91-168 | After any run of init, free, push and pop by both sides from cleared memory, the next init of a freed side succeeds and resynchronises both directions with an initialised peer |
| Restart.FirstInitIsFresh | ipc-shm.c:474-514 | After the first init of both sides, a channel queue is empty and a pool queue offers all its buffers in order, in both directions |
| Resync.PushSlides | ipc-queue.c:108-111 | The window a resynchronisation would offer slides by one with each release, dropping its oldest entry |
| Resync.ReleaseKeepsInv | ipc-shm.c:1096-1101 | A release is refused exactly when every acquired buffer is back; otherwise it slides the offered window |
| Resync.AcquireKeepsInv | ipc-shm.c:979-981 | An acquire leaves the offered window as it is |
| Resync.RestartsKeepInv | ipc-queue.c:101-111 | A restarting acquirer finds exactly the offered window in its ring; a restarting releaser offers every buffer in order |
| Resync.StepIsSafeIffInOrder | ipc-queue.c:101-111 | From a state in which resynchronisation would recover every buffer once, a step leads to such a state if and only if it is in order |
| Resync.ResyncSafeIffReleasedInOrder | ipc-queue.c:101-111 | Over every run of acquires, releases and restarts: resynchronisation would recover every buffer exactly once in all states if and only if every release returned the oldest buffer still out |
| Resync.OutOfOrderReleaseLosesABuffer | ipc-shm.c:1096-1101 | With two buffers, releasing the later one first makes a restart offer buffer 1 twice and buffer 0 never |
| ConcurrentInit.VisitKeeps | ipc-queue.c:97-117 | While a side initialises a ring it changes that ring only, and what it adopts from the peer is what a first init would have stored |
| ConcurrentInit.FreeKeepsSide | ipc-shm.c:738-797 | Each store of a roll-back keeps the invariant of both sides |
| ConcurrentInit.StepKeeps | ipc-shm.c:824-912 | Each load or store of init, by either side, keeps the invariant of both sides |
| ConcurrentInit.ConcurrentInitConverges | ipc-shm.c:877-903 | For every instance layout, every interleaving and any number of rolled-back attempts: no init fails for good, the sides are never rolled back at the same time, when both have finished every ring is in the one state of a first init, and a ring with a clear sentinel has zero indexes unless a roll-back is just clearing them |
| ConcurrentInit.RankFalls | ipc-shm.c:881-897 | Every step of a side that is not refused brings it closer to finishing, also while it rolls back |
| ConcurrentInit.RetryCompletes | ipc-shm.c:881-897 | Once one side has finished, the other finishes within a bounded number of its own steps |
| ConcurrentInit.EveryRetryCompletes | ipc-shm.c:877-903 | The same after every interleaving from cleared memory |
| InitCompletes.RefusalPassesTheLead | ipc-queue.c:97-99 | A side that has claimed the first f rings for good can only be refused at a later ring, and by a peer that has then claimed more rings for good |
| InitCompletes.RefusedPotential | ipc-shm.c:881-897 | Each change of the lead uses up one of the rings it can be lost at |
| InitCompletes.ScheduleProgress | ipc-shm.c:877-903 | A schedule brings the end closer unless the side whose turns count has none in it |
| InitCompletes.BothFinish | ipc-shm.c:877-903 | From cleared memory, every schedule with enough rounds in which each side gets a turn ends with both sides finished, however often attempts were refused and rolled back |
| SoloInit.SyncAlone | ipc-queue.c:91-118 | The single loads and stores of the handshake, uninterrupted, store exactly what the handshake rule says |
| SoloInit.PopulateAlone | ipc-shm.c:498-511 | The single steps of the populate loop, uninterrupted, leave exactly what pushing all buffers leaves, or fail when a push is refused |
| SoloInit.VisitAlone | ipc-shm.c:474-514 | An uninterrupted visit of a ring is handshake, populate loop and mark, for every kind of ring and any state of the peer that does not refuse it |
| Rollback.Instance.constructor | ipc-shm.c:366-378 | An instance that was never initialised reads as free and has left no trace |
| Rollback.Instance.Populate | ipc-shm.c:498-511 | Succeeds exactly when every push finds room for the read index it loads, and then the write index has gone round to the slot before its start; sentinel and read index stay |
| Rollback.Instance.PoolInit | ipc-shm.c:444-518 | Succeeds exactly when count, 32-bit size, peer sentinel and every push allow it, and then the marked ring offers all its buffers behind the adopted read index; asks for a retry exactly when the peer is busy; in every other case a touched ring carries a mark by which free finds it |
| Rollback.Instance.InitPools | ipc-shm.c:628-637 | The same for the pools of a channel, each placed where the previous one ends |
| Rollback.Instance.InitChannel | ipc-shm.c:566-728 | Succeeds exactly when every check of the channel at its place succeeds, and then queue, area and pools hold the adopted or first indexes; after any failure everything the attempt touched can be found by free; no other channel changes |
| Rollback.SyncedMeans | ipc-queue.c:101-111 | Against an initialised peer with indexes in range, the indexes a successful attempt stores leave both directions of a channel queue empty and of a pool queue full |
| Rollback.Instance.FreeChannel | ipc-shm.c:738-797 | Everything an attempt touched in the channel is zeroed and unmapped, whatever point it failed at; no other channel changes |
| Rollback.Instance.FreeAllChannels | ipc-shm.c:887-893 | The same for all channels |
| Rollback.Instance.InitChannels | ipc-shm.c:877-903 | All channels initialised, or all memory clear again |
| Rollback.Instance.InitInstance | ipc-shm.c:824-912 | Succeeds exactly when arguments, platform and every channel allow it; then the instance reads as used and every ring holds the adopted or first indexes; otherwise it reads as free and no sentinel or index of its own memory is left set; a retry is asked for only when the peer is busy; an instance in use is refused and unchanged |
| Rollback.Instance.SucceedsIff | ipc-shm.c:824-912 | An attempt succeeds if and only if the platform parts succeed, the layout accepts the configuration, and the peer's memory refuses no ring and no push: demands on the configuration and on the peer are independent |
| Rollback.Instance.OnlyBusyPeersRefuse | ipc-shm.c:662-665 | With an accepted configuration, a working platform and room for every push, an attempt succeeds if and only if the peer is not in the middle of initialising any of the rings |
| Rollback.Instance.FreeInstance | ipc-shm.c:914-939 | Leaves the instance free with no trace |
| Rollback.Instance.Retry | ipc-shm.c:881-897 | Over any number of attempts, each meeting its own peer and platform: the instance ends up in use exactly when some attempt met no obstacle, and otherwise memory is clear again |
| Layout.GetTotalBufPerChan | ipc-shm.c:531-564 | The sum of the pool sizes if the pools are sorted by buffer size and the sum leaves room for the extra slot in 16 bits, else 0 |
| Layout.BufPoolInit | ipc-shm.c:444-496 | Which pools are accepted, with which error otherwise, and where ring and buffers go in both views |
| Layout.InitPools | ipc-shm.c:628-637 | Accepts the pools exactly when every count is in range and the 32-bit sizes fit together; each pool starts where the previous one ends |
| Layout.ManagedChannelInit | ipc-shm.c:566-640 | Accepts a managed channel exactly under the stated conditions and places its ring and pools; -ENOMEM means that it does not fit, -EINVAL that an argument is bad |
| Layout.GetChanMemmapSize | ipc-shm.c:800-821 | For an accepted channel the sum made in 32 bits is the true sum |
| Layout.InitInstance | ipc-shm.c:824-903 | Accepts the instance exactly when each channel, placed where the previous one ends, is accepted; the result is the placement of all channels |
| Layout.RingHoldsItsSlots | ipc-queue.h:144-149 | The footprint of a ring is its control words and all its slots, and every slot ends inside it |
| Layout.StoredSizeExact | ipc-shm.c:487 | Without overflow the stored pool size is control words, slots and buffers |
| Layout.LayoutChained | ipc-shm.c:877-903 | For every accepted configuration without overflow, control words, slots, buffers and unmanaged areas, each with its true extent, fill memory one after the other without gap or overlap, in both views |
| Layout.LayoutDisjoint | ipc-shm.c:478-496 | Any two areas of the instance are disjoint, in either view: no slot of a ring overlaps a buffer or another ring |
| Layout.ViewsAgree | ipc-shm.c:615-637 | Every area has the same offset in the local and in the remote view |
| Layout.ManagedAreasInside | ipc-shm.c:618-637 | The control words, slots and buffers of a managed channel end within the shared memory, in the local view and in the remote one, which is not checked |
| Layout.BuffersInsideIffFits32 | ipc-shm.c:487-496 | Among accepted configurations, all buffers lie inside the shared memory if and only if no pool size overflows 32 bits |
| Layout.AllInsideIffSizesFit | ipc-shm.c:642-682 | All areas, unmanaged ones included, lie inside the shared memory if and only if the channel sizes add up to no more than it |
| Layout.OverflowAccepted | ipc-shm.c:487-496 | A concrete accepted instance with a pool of 2^32 bytes |
| Layout.UnmanagedOverrunAccepted | ipc-shm.c:642-682 | A concrete accepted unmanaged channel larger than the shared memory |
| Address.FindPoolForBuf | ipc-shm.c:1044-1068 | The loop returns the first pool whose buffer array contains the address, if any |
| Address.FindPool | ipc-shm.c:1044-1068 | A pool that is found contains the address and has a non-zero buffer size, so the division that follows is defined |
| Address.BufferBounds | ipc-shm.c:991-992 | The 32-bit products of buffer number and size are exact and each buffer ends inside its pool |
| Address.OnlyPool | ipc-shm.c:1053-1065 | An address inside a buffer belongs to the array of that buffer's pool and of no other |
| Address.AddressRoundTrip | ipc-shm.c:1139-1141 | Any address inside any buffer, in any view, maps back to exactly that buffer's descriptor, and the buffer lies inside shared memory |
| Address.BuffersDisjoint | ipc-shm.c:991-992 | No address is inside two buffers |
| Address.GeoOfLayout | ipc-shm.c:478-485 | The pool addresses of both sides, local and remote, are the view bases plus one and the same geometry, which satisfies what the round trip needs |
| Channel.AcquireBestFit | ipc-shm.c:973-989 | Acquire hands out a free buffer of the smallest sufficient size, at its true address, and fails, changing nothing, exactly when size is 0 or no pool has one |
| Channel.TakeKeeps | ipc-shm.c:979-1000 | The popped descriptor is a buffer nobody holds, and the address check never rejects it |
| Channel.ChanHasRoom | ipc-shm.c:546-563 | While the sender holds a buffer, the channel ring has room for it |
| Channel.FreeHasRoom | ipc-shm.c:456-468 | While the receiver holds a buffer, its free ring has room for it |
| Channel.TxKeeps | ipc-shm.c:1113-1155 | Sending a held buffer by any address inside it succeeds, records exactly that buffer with its bytes, and keeps the invariant |
| Channel.RxKeeps | ipc-shm.c:332-350 | The callback gets exactly the oldest message not yet received, at the receiver's address of the buffer that was sent; nothing is received exactly when nothing is under way |
| Channel.ReleaseKeeps | ipc-shm.c:1070-1111 | Releasing a received buffer by any address inside it succeeds and returns exactly that buffer |
| Channel.FillKeeps | ipc-shm.c:955-1004 | The stores of an application reach the buffer it holds and no other |
| Channel.ForeignAddressIsRefused | ipc-shm.c:1132-1136 | Tx and release refuse an address outside the buffer arrays of the channel with -EINVAL and change nothing |
| Channel.FreshIsInv | ipc-shm.c:498-514 | The state two first inits leave satisfies the invariant |
| Channel.ApplyKeepsInv | ipc-shm.c:955-1155 | Every disciplined call keeps the invariant |
| Channel.BufferConservation | ipc-shm.c:955-1155 | In every state of every disciplined run each buffer is in exactly one place: free ring, sender, channel ring or receiver |
| Channel.EndToEndDelivery | ipc-shm.c:332-350 | In every disciplined run the callback has been given, in order, the addresses and sizes of a prefix of what tx accepted, and buffers the receiver still holds contain the bytes they were sent with |
| Channel.NeverFull | ipc-shm.c:596-605 | After every disciplined run, no disciplined tx or release is refused |
| Boot.BothInit | ipc-queue.c:91-147 | The first init of both sides leaves a queue of the configured size with indexes in range |
| Boot.BootIsFresh | ipc-shm.c:566-640 | For every accepted configuration without overflow, the first init of one side after the other from cleared memory leaves the geometry and rings from which the conservation, delivery and never-full results start |
| Boot.ConcurrentBootIsFresh | ipc-shm.c:877-903 | The same when the two inits of the whole instance were interleaved load by load, refused and retried in any way |
| Port.ManagedChannel.CheckIntegrity | ipc-shm.c:268-285 | Succeeds exactly when the channel queue and all pool queues are marked on both sides |
| Port.ManagedChannel.PushPool | ipc-queue.c:47-80 | A push on one pool queue, seen on both directions of the whole channel: one free ring of the receiving direction changes, the sending direction and all other queues do not |
| Port.ManagedChannel.PopPool | ipc-queue.c:10-45 | A pop on one pool queue changes one free ring of the sending direction and nothing of the receiving direction |
| Port.ManagedChannel.AcquireBuf | ipc-shm.c:955-1004 | On the shared rings: the acquire whose best fit is proved, or a refusal that changes nothing when a ring is unmarked; writes local memory only and leaves the receiving direction as it is |
| Port.ManagedChannel.Send | ipc-shm.c:1113-1155 | On the shared rings: the tx whose delivery is proved, or a refusal that changes nothing when a ring is unmarked; writes the own channel ring only and leaves the receiving direction as it is |
| Port.ManagedChannel.ReleaseBuf | ipc-shm.c:1070-1111 | On the shared rings: the release whose conservation is proved, or a refusal that changes nothing when a ring is unmarked; writes local memory only and leaves the sending direction as it is |
| Port.ManagedChannel.ReceiveOne | ipc-shm.c:333-350 | On the shared rings: one rx step, for a descriptor naming an existing pool; only the own read index is written and the sending direction stays as it is |
| Port.ManagedChannel.Receive | ipc-shm.c:332-353 | Hands over as many of the messages under way as the budget allows, oldest first, keeps the invariant and leaves the sending direction as it is |
| Port.QueuedIsSent | ipc-shm.c:333-338 | Whatever a correct peer queued names an existing pool |
| Unmanaged.ApplyKeepsInv | ipc-shm.c:662-679 | Over init, free, tx and rx, the counters of two ready sides differ by the unreceived sends modulo 2^32, counted from the list of actions |
| Unmanaged.CallbackIffUnreceived | ipc-shm.c:309-328 | After any run, both sides are ready exactly when each was initialised last, and the next receive then calls back if and only if the number of sends in the run since the last receive or restart is not a multiple of 2^32 |
| Unmanaged.ReceiveSettles | ipc-shm.c:316-320 | Right after a receive nothing is left to call back for, and the other direction is as before |
| Unmanaged.RestartIsSilent | ipc-shm.c:662-679 | After any run, restarting either side against a ready peer causes no callback on either side and leaves the peer's memory alone |
| Unmanaged.FullCircleIsMissed | ipc-shm.c:1188-1189 | After any run and a receive, any multiple of 2^32 sends in a row goes unnoticed |
| RxCount.ShareIsLargest | ipc-shm.c:404-406 | The budget of a channel in a round is the largest number of messages all channels together can afford, and at least one; a round hands out no more than is left, or one message per channel if less is left |
| RxCount.ScanSilent | ipc-shm.c:332-353 | Without arrivals a scan takes what is queued up to its budget, and one more look if it ends early |
| RxCount.TwoRounds | ipc-shm.c:402-417 | With eight channels, a first round of 127 messages is followed by one of m, for every m from 1 to 8 |
| RxLoop.ChanLaterTransitive | ipc-shm.c:296-353 | Over any stretch of time a channel has accepted exactly what the peer sent, behind what was there; only accepted messages are delivered, in order; a counter moved by what was sent |
| RxLoop.Instance.ChannelRx | ipc-shm.c:296-353 | While the peer keeps sending: messages are delivered in order, at most the budget, and fewer only if the queue was found empty; an unmanaged channel is called back at most once, exactly when the counter it had seen changed, and charged as the whole budget; the course is the one of RxCount |
| RxLoop.ScanServes | ipc-shm.c:409-416 | A channel scan gives the channel its fair share since the round began, whatever the peer sends meanwhile: pending messages up to the budget, or the callback of a changed counter unless gap and new sends reach 2^32; reporting less than the budget means all that was pending was taken notice of |
| RxLoop.Instance.Round | ipc-shm.c:409-416 | One pass gives every channel its share while the peer keeps sending, calls no channel back twice, and counts each message as one and each callback as the whole share; if it does not ask for another pass, every message pending at its start was delivered and every Tx counter looked at since |
| RxLoop.QuietCalls | ipc-shm.c:309-328 | With a silent peer a pass calls every changed channel back exactly once and leaves no counter changed |
| RxLoop.RxNextRound | ipc-shm.c:402-417 | A further round keeps the fairness of the first, the overshoot bound and the account |
| RxLoop.Instance.ShmRx | ipc-shm.c:391-420 | Terminates however much the peer sends; every managed channel gets at least its pending messages up to any number that all n channels together can afford, and at least one; every changed unmanaged channel gets its callback unless its gap and the sends during the call reach 2^32; returns at most budget + n - 1; a return below the budget means every pending message was delivered and every Tx counter looked at since the call; with a silent peer the return is the messages delivered plus one equal share per changed counter; the return is exactly the count of RxCount; a free instance is left alone |
| RxLoop.CountBeyondBudget | ipc-shm.c:402-419 | Every count from 128 to 135 is returned for some queues and arrivals on eight channels: the overshoot bound is attained |
| RxLoop.QuietCount | ipc-shm.c:402-419 | With a silent peer no more than what was queued is delivered, and exactly that when drained |
| RxLoop.ToInt8 | os_kernel/ipc-os.c:326-332 | Conversion to int8_t keeps a count exactly when it is below 128, and takes 256 off a count from 128 to 255 |
| RxLoop.PollResult | os_kernel/ipc-os.c:326-332 | For every mix of n channels and a silent peer: the result is the messages delivered plus 128 / n per changed counter, converted to int8_t; it equals the messages and callbacks handled if and only if fewer than 128 messages are queued and no unmanaged channel has a changed counter |
| RxLoop.Instance.PollChannels | os_kernel/ipc-os.c:326-337 | Refused when an interrupt is configured or no handler is stored; a non-negative result means every pending message was delivered and every Tx counter looked at since the call; what PollResult says for a silent peer |
| RxLoop.PollOneCallback | ipc-shm.c:309-328 | One message on an unmanaged channel among n, the others empty: the poll returns 128 / n, and -128 for a single channel |
| Kernel.Os.Hardirq | os_kernel/ipc-os.c:95-114 | Every active instance is silenced and acknowledged, no other instance changes, and the tasklet is scheduled |
| Kernel.Os.Visit | os_kernel/ipc-os.c:77-90 | The instance is served as ShmRx promises and its interrupt enabled in any case; the tasklet is scheduled exactly when it was before or the budget was used up |
| Kernel.Os.Softirq | os_kernel/ipc-os.c:66-92 | The same for all active instances in one run of the tasklet, which is scheduled exactly when it was before or some instance used up its budget; inactive instances are untouched |
| Wakeup.SendKeeps | ipc-shm.c:1144-1152 | A message stored at any moment keeps the invariant: its sender has yet to notify |
| Wakeup.HardKeeps | os_kernel/ipc-os.c:95-114 | Each disable, clear and schedule of an interrupt handler, also for other instances' lines, keeps the invariant |
| Wakeup.SoftKeeps | os_kernel/ipc-os.c:66-92 | Each step of the tasklet outside the receive loop keeps the invariant |
| Wakeup.RxStepCovers | ipc-shm.c:402-417 | A channel with unseen messages is one the receive loop will rescan, or the budget is used up and the tasklet will be scheduled again; saving an older counter value leaves a channel that will be rescanned |
| Wakeup.RxKeeps | ipc-shm.c:309-352 | Each load and each store of the receive loop keeps the invariant, with sends landing between the load of an index or counter and the store that follows |
| Wakeup.UnseenIsCovered | os_kernel/ipc-os.c:66-114 | In every reachable state a channel of an active instance with something unseen is covered: sender about to notify, notification pending, handler running, tasklet scheduled, or running tasklet bound to rescan that channel or schedule itself |
| Wakeup.RestMeansSeen | os_kernel/ipc-os.c:66-114 | When nothing is left to run, nothing is unseen on any active instance, its interrupt is enabled and no notification is pending |
| WakeupRuns.EveryStep | ipc-shm.c:333-350 | What each event does to a channel: a send adds one message, a callback takes exactly one message or saves exactly the counter value loaded before, nothing else changes it |
| WakeupRuns.MessagesBalance | ipc-shm.c:333-350 | In every run, the messages sent on a managed channel are the runs of its callback plus what is still queued |
| WakeupRuns.UnreceivedIsUnseen | ipc-shm.c:309-328 | A channel has something unseen exactly when the events of the run say so: more sends than callbacks, or for an unmanaged channel a number of sends since the load of the last callback that is not a multiple of 2^32 |
| WakeupRuns.NoLostWakeup | os_kernel/ipc-os.c:66-114 | In every state of every interleaving, a channel of an active instance with a message that was sent and not yet received has somebody bound to look at it |
| WakeupRuns.RestMeansDelivered | os_kernel/ipc-os.c:66-114 | When nothing is left to run, every message sent to an active instance has been received: as many callbacks as sends on a managed channel |
| WakeupRuns.BitsChange | os_kernel/ipc-os.c:66-114 | Who changes each bit: only a notify sets pending and only a handler clears it; the tasklet enables an instance whether or not the budget was used up and only a handler disables; only a handler at its end or a used-up budget schedules the tasklet |
| WakeupRuns.InactiveIsLeftAlone | os_kernel/ipc-os.c:73-75 | Handlers and tasklet leave an inactive instance alone |
| WakeupRuns.NoSpuriousInterrupt | os_kernel/ipc-os.c:95-114 | In every run, interrupts raised for an instance never outnumber the notifications of its peer |
| SoloRx.ServeAlone | ipc-shm.c:296-353 | The single steps on one channel, uninterrupted, have the effect and the count of ipc_channel_rx |
| SoloRx.RxAlone | ipc-shm.c:391-420 | The single steps of the whole receive loop, uninterrupted, leave the channels and the count of ipc_shm_rx, for every mix of channels |

## Left out

- hw/*: the register maps and interrupt number tables are the pending and enable bits of `Wakeup` and `Kernel`.
- ipc_os_init, ipc_os_free, the UIO and Xen variants and the sample applications: foreign calls and constant tables.
- Weak memory, cacheability and volatile: sequential consistency is a premise.
- A free or restart landing inside a push, pop or receive of the peer: the driver checks and then uses, so restart
  properties are stated at the granularity of calls. Init against init is interleaved load by load.
- Corrupted or forged descriptors and sentinels: both peers are correct.
- NULL arguments, channel lookup, the "remote is ready" check and log messages: one early return each.
- ipc_shm_init, ipc_shm_free: loops over instances that add nothing to the calls they make.
- A negative budget of ipc_shm_rx: both callers pass the constant 128.
- Queue.Queue.Init: with the wrapped count of 65535 and an initialised peer the driver divides by zero; that call is excluded, and `Layout.GetTotalBufPerChan` and `Layout.BufPoolInit` show that no caller makes it.
- Queue.Queue.Push: an element is one descriptor rather than its bytes; `Spsc` models elements as words.
- Channel.EndToEndDelivery: one direction of a channel between two live sides; the other direction is the same with the roles exchanged, and restarts are the subject of `Restart` and `Resync`.
- Rollback.Instance.InitInstance: a channel type that is neither managed nor unmanaged is not representable; it is one early return.
- Wakeup.RxKeeps: the read index of a pop is stored together with taking the message; `Spsc` separates them.
