/**
 What a failed ipc_shm_init_instance leaves behind in the memory of its own side. Init may fail at any ring:
 bad configuration, no room, a busy peer, or a refused push; the free loops then undo the attempt.
 */
module Rollback {
  import opened Types
  import opened Fifo
  import opened Handshake
  import opened Layout

  /** A queue of this side: `bound` is push_ring != NULL, `head` the control words in shared memory. */
  datatype Slot = Slot(bound: bool, head: Header)

  datatype Chan = Managed(queue: Slot, numPools: nat, pools: seq<Slot>) | Unmanaged(area: Slot)

  /**
   What an attempt meets. `platform`: the hardware and operating system parts of init succeed. `peer`: the peer's
   control words when channel k visits its queue or area (ring 0) or its pool p (ring p + 1). `pushRead`: the peer's
   read index when the b-th push of that ring loads it.
   */
  datatype World = World(platform: bool, peer: (nat, nat) -> Header, pushRead: (nat, nat, nat) -> nat)

  predicate PeerReady(world: World, k: nat, ring: nat) {
    world.peer(k, ring).sentinel != InProgress
  }

  /** The pushes from the b-th on, starting at write index w, all find room. */
  predicate Room(world: World, k: nat, ring: nat, num: nat, w: nat, b: nat)
    decreases num - b
  {
    b < num ==>
      var read := world.pushRead(k, ring, b);
      && read <= num && w <= num && (w + 1) % (num + 1) != read
      && Room(world, k, ring, num, (w + 1) % (num + 1), b + 1)
  }

  /** What the handshake stores in a cleared ring. */
  function SyncedHead(world: World, k: nat, ring: nat, kind: QueueKind, n: nat): Header
    requires n > 0
  {
    SyncIndex(CLEARED, world.peer(k, ring), kind, n).0
  }

  /** The peer is in the middle of initialising this ring of channel k. */
  predicate Busy(c: ChannelCfg, world: World, k: nat, ring: nat) {
    ring <= (if c.ManagedCfg? then |c.pools| else 0) && !PeerReady(world, k, ring)
  }

  predicate PoolPeerMeets(cfg: PoolCfg, world: World, k: nat, ring: nat) {
    PeerReady(world, k, ring) && PushesFit(cfg, world, k, ring)
  }

  predicate PoolMeets(cfg: PoolCfg, local: nat, limit: nat, world: World, k: nat, ring: nat) {
    && 1 <= cfg.numBufs <= IPC_SHM_MAX_BUFS_PER_POOL && local + StoredPoolSize(cfg) <= limit
    && PoolPeerMeets(cfg, world, k, ring)
  }

  /** The first n pools of channel k, the first of them placed at `local`. */
  predicate PoolsMeet(pools: seq<PoolCfg>, local: nat, limit: nat, world: World, k: nat, n: nat)
    requires n <= |pools|
  {
    forall p :: 0 <= p < n ==> PoolMeets(pools[p], local + PoolOffset(pools, p), limit, world, k, p + 1)
  }

  /** What the peer's memory must be like for channel k to be initialised. */
  predicate PeerMeets(c: ChannelCfg, world: World, k: nat) {
    && PeerReady(world, k, 0)
    && (c.ManagedCfg? ==> forall p :: 0 <= p < |c.pools| ==> PoolPeerMeets(c.pools[p], world, k, p + 1))
  }

  /** Every check of the init of channel k, placed at `local`, succeeds. */
  predicate ChanMeets(c: ChannelCfg, local: nat, limit: nat, world: World, k: nat) {
    match c
    case UnmanagedCfg(hasCallback, size) => hasCallback && size <= IPC_SHM_MAX_UMNG_SIZE && PeerReady(world, k, 0)
    case ManagedCfg(hasCallback, pools) =>
      && hasCallback && |pools| <= IPC_SHM_MAX_POOLS && Sorted(pools)
      && 1 <= SumBufs(pools) <= IPC_SHM_MAX_BUFS_PER_CHANNEL && PeerReady(world, k, 0)
      && local + ManagedRingSize(pools) <= limit
      && PoolsMeet(pools, local + ManagedRingSize(pools), limit, world, k, |pools|)
  }

  /** The pools fit one by one exactly when they fit together. */
  lemma PoolsFitTogether(pools: seq<PoolCfg>, lo: nat, limit: nat)
    requires lo <= limit
    ensures (forall p :: 0 <= p < |pools| ==> FitsAt(pools, lo, limit, p)) <==> lo + PoolOffset(pools, |pools|) <= limit
  {
    hide StoredPoolSize;
    if lo + PoolOffset(pools, |pools|) <= limit {
      forall p | 0 <= p < |pools| ensures FitsAt(pools, lo, limit, p) {
        PoolOffsetMonotone(pools, p + 1, |pools|);
      }
    } else if |pools| > 0 {
      assert !FitsAt(pools, lo, limit, |pools| - 1);
    }
  }

  predicate FitsAt(pools: seq<PoolCfg>, lo: nat, limit: nat, p: nat)
    requires p < |pools|
  {
    lo + PoolOffset(pools, p) + StoredPoolSize(pools[p]) <= limit
  }

  lemma PoolsMeetIff(pools: seq<PoolCfg>, lo: nat, limit: nat, world: World, k: nat)
    requires lo <= limit
    ensures PoolsMeet(pools, lo, limit, world, k, |pools|) <==>
            && (forall p :: 0 <= p < |pools| ==> 1 <= pools[p].numBufs <= IPC_SHM_MAX_BUFS_PER_POOL)
            && lo + PoolOffset(pools, |pools|) <= limit
            && forall p :: 0 <= p < |pools| ==> PoolPeerMeets(pools[p], world, k, p + 1)
  {
    hide StoredPoolSize, PoolPeerMeets, PoolOffset;
    PoolsFitTogether(pools, lo, limit);
    forall p | 0 <= p < |pools|
      ensures PoolMeets(pools[p], lo + PoolOffset(pools, p), limit, world, k, p + 1) <==>
              && 1 <= pools[p].numBufs <= IPC_SHM_MAX_BUFS_PER_POOL && FitsAt(pools, lo, limit, p)
              && PoolPeerMeets(pools[p], world, k, p + 1)
    {
    }
  }

  /** The checks are those of the layout and those of the peer's memory, independently of each other. */
  lemma MeetsIffAccepted(c: ChannelCfg, local: nat, base: nat, shmSize: nat, world: World, k: nat)
    ensures ChanMeets(c, local, base + shmSize, world, k) <==>
            ChanAccepted(c, local, base, shmSize) && PeerMeets(c, world, k)
  {
    hide ManagedRingSize, PoolsMeet, PoolPeerMeets, PoolOffset, Sorted, SumBufs;
    if c.ManagedCfg? && local + ManagedRingSize(c.pools) <= base + shmSize {
      PoolsMeetIff(c.pools, local + ManagedRingSize(c.pools), base + shmSize, world, k);
    }
  }

  predicate Meets(cfgs: seq<ChannelCfg>, base: nat, limit: nat, world: World) {
    forall k :: 0 <= k < |cfgs| ==> MeetsAt(cfgs, base, limit, world, k)
  }

  predicate MeetsAt(cfgs: seq<ChannelCfg>, base: nat, limit: nat, world: World, k: nat)
    requires k < |cfgs|
  {
    ChanMeets(cfgs[k], base + ChanOffset(cfgs, k), limit, world, k)
  }

  predicate Untouched(s: Slot) { s.head == CLEARED }

  predicate Matches(ch: Chan, c: ChannelCfg) {
    match c
    case ManagedCfg(_, pools) => ch.Managed? && |ch.pools| == |pools|
    case UnmanagedCfg(_, _) => ch.Unmanaged?
  }

  predicate AllUntouched(ch: Chan) {
    match ch
    case Managed(queue, _, pools) => Untouched(queue) && forall p :: 0 <= p < |pools| ==> Untouched(pools[p])
    case Unmanaged(area) => Untouched(area)
  }

  /** A slot that was touched is bound and carries a mark, so that free will find it. */
  predicate Findable(s: Slot) { !Untouched(s) ==> s.bound && s.head.sentinel != Clear }

  /** Free reaches a touched pool only through a marked channel queue and the recorded number of pools. */
  predicate Undoable(ch: Chan) {
    match ch
    case Managed(queue, numPools, pools) =>
      && Findable(queue)
      && forall p :: 0 <= p < |pools| ==>
           Findable(pools[p]) && (!Untouched(pools[p]) ==> !Untouched(queue) && p < numPools <= |pools|)
    case Unmanaged(area) => !Untouched(area) ==> area.bound
  }

  /** Every ring that was touched in `ch` is no longer mapped in `ch'`. */
  predicate Unmapped(ch: Chan, ch': Chan) {
    match ch
    case Managed(queue, _, pools) =>
      && ch'.Managed? && |ch'.pools| == |pools| && (!Untouched(queue) ==> !ch'.queue.bound)
      && forall p :: 0 <= p < |pools| && !Untouched(pools[p]) ==> !ch'.pools[p].bound
    case Unmanaged(area) => ch'.Unmanaged? && (!Untouched(area) ==> !ch'.area.bound)
  }

  predicate AllDone(ch: Chan) {
    match ch
    case Managed(queue, numPools, pools) =>
      && queue.head.sentinel == Done && numPools == |pools|
      && forall p :: 0 <= p < |pools| ==> pools[p].head.sentinel == Done
    case Unmanaged(area) => area.head.sentinel == Done
  }

  // ---------- What a successful attempt stores ----------

  /** A marked ring of n slots with the indexes adopted from an initialised peer, or zero ones; nothing is queued. */
  predicate Adopted(head: Header, peer: Header, n: nat)
    requires n > 0
  {
    && head.sentinel == Done
    && if peer.sentinel == Done then head.write == peer.read && head.read == peer.write % n
       else head.write == 0 && head.read == 0
  }

  /** A marked pool ring that offers all num buffers behind the adopted read index, or from slot 0 on. */
  predicate Stocked(head: Header, peer: Header, num: nat)
    requires num > 0
  {
    && head.sentinel == Done
    && if peer.sentinel == Done then
         && peer.read <= num && head.write <= num && Dist(peer.read, head.write, num + 1) == num
         && head.read == (peer.write + 1) % (num + 1)
       else head.write == num && head.read == 0
  }

  /** What channel k finds in its own memory after a successful attempt. */
  predicate ChanSynced(ch: Chan, c: ChannelCfg, world: World, k: nat) {
    && Matches(ch, c)
    && match c
       case UnmanagedCfg(_, _) => ch.area.bound && Adopted(ch.area.head, world.peer(k, 0), UINT32_RANGE)
       case ManagedCfg(_, pools) =>
         && ch.numPools == |pools| && ch.queue.bound
         && Adopted(ch.queue.head, world.peer(k, 0), SumBufs(pools) + 1)
         && PoolsStocked(ch.pools, pools, world, k, |pools|)
  }

  predicate PoolsStocked(slots: seq<Slot>, pools: seq<PoolCfg>, world: World, k: nat, n: nat)
    requires n <= |slots| == |pools|
  {
    forall p :: 0 <= p < n ==> PoolStocked(slots[p], pools[p], world, k, p + 1)
  }

  predicate PoolStocked(slot: Slot, cfg: PoolCfg, world: World, k: nat, ring: nat) {
    slot.bound && cfg.numBufs > 0 && Stocked(slot.head, world.peer(k, ring), cfg.numBufs)
  }

  lemma SyncedIsDone(ch: Chan, c: ChannelCfg, world: World, k: nat)
    requires ChanSynced(ch, c, world, k)
    ensures AllDone(ch) && Undoable(ch)
  {
    if c.ManagedCfg? {
      forall p | 0 <= p < |ch.pools| ensures ch.pools[p].bound && ch.pools[p].head.sentinel == Done {
        assert PoolStocked(ch.pools[p], c.pools[p], world, k, p + 1);
      }
    }
  }

  /** Against an initialised peer with indexes in range both directions of a channel queue are empty, of a pool full. */
  lemma SyncedMeans(head: Header, peer: Header, num: nat)
    requires num > 0 && peer.sentinel == Done && peer.write <= num && peer.read <= num
    ensures Adopted(head, peer, num + 1) ==>
              && head.write <= num && head.read <= num
              && Dist(peer.read, head.write, num + 1) == 0 && Dist(head.read, peer.write, num + 1) == 0
    ensures Stocked(head, peer, num) ==>
              && head.write <= num && head.read <= num
              && Dist(peer.read, head.write, num + 1) == num && Dist(head.read, peer.write, num + 1) == num
  {
    NextWraps(peer.write, num + 1);
    assert peer.write % (num + 1) == peer.write by { assert peer.write / (num + 1) == 0; }
  }

  class Instance {
    const cfgs: seq<ChannelCfg>
    const base: nat
    const remote: nat
    const shmSize: nat
    var channels: seq<Chan>
    var globalBound: bool
    var globalReady: bool

    /** A never initialised instance in cleared memory. */
    constructor (cfgs: seq<ChannelCfg>, base: nat, remote: nat, shmSize: nat)
      ensures this.cfgs == cfgs && this.base == base && this.remote == remote && this.shmSize == shmSize
      ensures Shaped() && AllClear() && IsFree() && Valid()
    {
      this.cfgs, this.base, this.remote, this.shmSize := cfgs, base, remote, shmSize;
      globalBound, globalReady := false, false;
      channels := seq(|cfgs|, k requires 0 <= k < |cfgs| =>
        match cfgs[k]
        case ManagedCfg(_, pools) => Managed(Slot(false, CLEARED), 0, seq(|pools|, _ => Slot(false, CLEARED)))
        case UnmanagedCfg(_, _) => Unmanaged(Slot(false, CLEARED)));
    }

    predicate Shaped()
      reads this
    {
      |channels| == |cfgs| && forall k :: 0 <= k < |cfgs| ==> Matches(channels[k], cfgs[k])
    }

    predicate AllClear()
      reads this
    {
      forall k :: 0 <= k < |channels| ==> AllUntouched(channels[k])
    }

    /** ipc_instance_is_free. */
    predicate IsFree()
      reads this
    {
      !globalBound || !globalReady
    }

    /** ipc_queue_free on a slot. */
    static function FreeSlot(s: Slot): Slot {
      if !s.bound then s
      else Slot(false, if s.head.sentinel == Clear then s.head else CLEARED)
    }

    /** ipc_shm_free_channel: nothing the attempt touched survives, and every marked ring is unmapped. */
    method FreeChannel(k: nat)
      requires Shaped() && k < |channels| && Undoable(channels[k])
      modifies this`channels
      ensures Shaped() && channels == old(channels)[k := channels[k]] && AllUntouched(channels[k])
      ensures Unmapped(old(channels[k]), channels[k])
    {
      match channels[k]
      case Managed(queue, numPools, pools) =>
        if queue.bound && queue.head.sentinel != Clear {
          var freed := pools;
          var p := 0;
          while p < numPools && p < |pools|
            invariant p <= |pools| == |freed|
            invariant forall i :: 0 <= i < p ==> Untouched(freed[i]) && (!Untouched(pools[i]) ==> !freed[i].bound)
            invariant forall i :: p <= i < |pools| ==> freed[i] == pools[i]
          {
            if freed[p].bound && freed[p].head.sentinel != Clear {
              freed := freed[p := FreeSlot(freed[p])];
            }
            p := p + 1;
          }
          channels := channels[k := Managed(FreeSlot(queue), numPools, freed)];
        }
      case Unmanaged(area) =>
        if area.bound {
          channels := channels[k := Unmanaged(Slot(false, CLEARED))];
        }
    }

    /**
     The populate loop on a ring whose indexes are synchronised: either every push finds room and the write index has
     gone all the way round to the slot before its start, or one push is refused.
     */
    static method Populate(cfg: PoolCfg, head: Header, world: World, k: nat, ring: nat)
      returns (r: Result<()>, head': Header)
      ensures r.Ok? <==> Room(world, k, ring, cfg.numBufs, head.write, 0)
      ensures head' == head.(write := head'.write)
      ensures r.Ok? && cfg.numBufs > 0 ==>
                head.write <= cfg.numBufs && head'.write <= cfg.numBufs
                && Dist(head.write, head'.write, cfg.numBufs + 1) == cfg.numBufs
      ensures r.Err? ==> r.errno == EINVAL || r.errno == ENOMEM
    {
      ghost var n := cfg.numBufs + 1;
      var w: nat, b: nat := head.write, 0;
      while b < cfg.numBufs
        invariant b <= cfg.numBufs
        invariant Room(world, k, ring, cfg.numBufs, head.write, 0) <==> Room(world, k, ring, cfg.numBufs, w, b)
        invariant if b == 0 then w == head.write else head.write < n && w < n && Dist(head.write, w, n) == b
      {
        var read := world.pushRead(k, ring, b);
        if read > cfg.numBufs || w > cfg.numBufs {
          return Err(EINVAL), head.(write := w);
        }
        if (w + 1) % (cfg.numBufs + 1) == read {
          return Err(ENOMEM), head.(write := w);
        }
        NextWraps(w, n);
        w, b := (w + 1) % (cfg.numBufs + 1), b + 1;
      }
      r, head' := Ok(()), head.(write := w);
    }

    /** ipc_buf_pool_init of the pool at `local`, ring `ring` of channel k, on its slot. */
    static method PoolInit(cfg: PoolCfg, local: nat, limit: nat, slot: Slot, world: World, k: nat, ring: nat)
      returns (r: Result<()>, slot': Slot)
      requires Untouched(slot)
      ensures Findable(slot') && (r.Ok? <==> PoolMeets(cfg, local, limit, world, k, ring))
      ensures r.Ok? ==> PoolStocked(slot', cfg, world, k, ring)
      ensures r == Err(EAGAIN) <==> 1 <= cfg.numBufs <= IPC_SHM_MAX_BUFS_PER_POOL && !PeerReady(world, k, ring)
    {
      slot' := slot;
      if cfg.numBufs > IPC_SHM_MAX_BUFS_PER_POOL || cfg.numBufs == 0 {
        return Err(EINVAL), slot';
      }
      var (head, e) := SyncIndex(slot.head, world.peer(k, ring), PoolQueue, cfg.numBufs + 1);
      slot' := Slot(true, head);
      if e.Err? {
        return e, slot';
      }
      if local + StoredPoolSize(cfg) > limit {
        return Err(ENOMEM), slot';
      }
      r, head := Populate(cfg, head, world, k, ring);
      slot' := slot'.(head := if r.Ok? then head.(sentinel := Done) else head);
    }

    /** unmanaged_channel_init on channel k. */
    method InitUnmanaged(k: nat, world: World) returns (r: Result<()>)
      requires Shaped() && k < |channels| && cfgs[k].UnmanagedCfg? && AllUntouched(channels[k])
      modifies this`channels
      ensures Shaped() && channels == old(channels)[k := channels[k]] && Undoable(channels[k])
      ensures r.Ok? <==> MeetsAt(cfgs, base, base + shmSize, world, k)
      ensures r.Ok? ==> ChanSynced(channels[k], cfgs[k], world, k)
      ensures r == Err(EAGAIN) ==> exists ring: nat :: Busy(cfgs[k], world, k, ring)
    {
      var c := cfgs[k];
      if !c.hasCallback || c.size > IPC_SHM_MAX_UMNG_SIZE {
        return Err(EINVAL);
      }
      assert !PeerReady(world, k, 0) ==> Busy(c, world, k, 0);
      var (head, e) := SyncIndex(channels[k].area.head, world.peer(k, 0), ChannelQueue, UINT32_RANGE);
      channels := channels[k := Unmanaged(Slot(true, if e.Ok? then head.(sentinel := Done) else head))];
      r := e;
    }

    /** The pool loop of managed_channel_init: the slots of the pools afterwards. */
    static method InitPools(cfgs: seq<PoolCfg>, local: nat, limit: nat, slots: seq<Slot>, world: World, k: nat)
      returns (r: Result<()>, slots': seq<Slot>)
      requires |slots| == |cfgs| && forall p :: 0 <= p < |slots| ==> Untouched(slots[p])
      ensures |slots'| == |slots| && forall p :: 0 <= p < |slots| ==> Findable(slots'[p])
      ensures r.Ok? <==> PoolsMeet(cfgs, local, limit, world, k, |cfgs|)
      ensures r.Ok? ==> PoolsStocked(slots', cfgs, world, k, |slots|)
      ensures r == Err(EAGAIN) ==> exists ring: nat :: ring <= |cfgs| && !PeerReady(world, k, ring)
    {
      hide PoolMeets, PoolOffset;
      slots' := slots;
      NoPool(cfgs);
      var p, at := 0, local;
      while p < |cfgs|
        invariant p <= |cfgs| == |slots'| && at == local + PoolOffset(cfgs, p)
        invariant PoolsMeet(cfgs, local, limit, world, k, p)
        invariant PoolsStocked(slots', cfgs, world, k, p) && forall i :: 0 <= i < p ==> Findable(slots'[i])
        invariant forall i :: p <= i < |slots'| ==> Untouched(slots'[i])
      {
        var slot;
        r, slot := PoolInit(cfgs[p], at, limit, slots'[p], world, k, p + 1);
        slots' := slots'[p := slot];
        if r.Err? {
          return;
        }
        NextPool(cfgs, p);
        at := at + StoredPoolSize(cfgs[p]);
        p := p + 1;
      }
      r := Ok(());
    }

    static lemma NoPool(pools: seq<PoolCfg>)
      ensures PoolOffset(pools, 0) == 0
    {
    }

    static lemma NextPool(pools: seq<PoolCfg>, p: nat)
      requires p < |pools|
      ensures PoolOffset(pools, p + 1) == PoolOffset(pools, p) + StoredPoolSize(pools[p])
    {
    }

    /** managed_channel_init on channel k. */
    method InitManaged(k: nat, local: nat, world: World) returns (r: Result<()>)
      requires Shaped() && k < |channels| && cfgs[k].ManagedCfg? && AllUntouched(channels[k])
      requires local == base + ChanOffset(cfgs, k)
      modifies this`channels
      ensures Shaped() && channels == old(channels)[k := channels[k]] && Undoable(channels[k])
      ensures r.Ok? <==> MeetsAt(cfgs, base, base + shmSize, world, k)
      ensures r.Ok? ==> ChanSynced(channels[k], cfgs[k], world, k)
      ensures r == Err(EAGAIN) ==> exists ring: nat :: Busy(cfgs[k], world, k, ring)
    {
      hide PoolMeets, PoolOffset, ManagedRingSize, Sorted, SumBufs, ChanOffset;
      var pools := cfgs[k].pools;
      if !cfgs[k].hasCallback || |pools| > IPC_SHM_MAX_POOLS {
        return Err(EINVAL);
      }
      channels := channels[k := channels[k].(numPools := |pools|)];
      var totalBufs := GetTotalBufPerChan(pools);
      if totalBufs == 0 {
        return Err(EINVAL);
      }
      var (head, e) := SyncIndex(channels[k].queue.head, world.peer(k, 0), ChannelQueue, totalBufs + 1);
      if e.Err? {
        assert Busy(cfgs[k], world, k, 0);
        channels := channels[k := channels[k].(queue := Slot(true, head))];
        return e;
      }
      channels := channels[k := channels[k].(queue := Slot(true, head.(sentinel := Done)))];
      if local + ManagedRingSize(pools) > base + shmSize {
        return Err(ENOMEM);
      }
      var slots;
      r, slots := InitPools(pools, local + ManagedRingSize(pools), base + shmSize, channels[k].pools, world, k);
      channels := channels[k := channels[k].(pools := slots)];
      if r == Err(EAGAIN) {
        ghost var ring: nat :| ring <= |pools| && !PeerReady(world, k, ring);
        assert Busy(cfgs[k], world, k, ring);
      }
    }

    method InitChannel(k: nat, local: nat, world: World) returns (r: Result<()>)
      requires Shaped() && k < |channels| && AllUntouched(channels[k]) && local == base + ChanOffset(cfgs, k)
      modifies this`channels
      ensures Shaped() && channels == old(channels)[k := channels[k]] && Undoable(channels[k])
      ensures r.Ok? <==> MeetsAt(cfgs, base, base + shmSize, world, k)
      ensures r.Ok? ==> ChanSynced(channels[k], cfgs[k], world, k)
      ensures r == Err(EAGAIN) ==> exists ring: nat :: Busy(cfgs[k], world, k, ring)
    {
      hide MeetsAt;
      if cfgs[k].ManagedCfg? {
        r := InitManaged(k, local, world);
      } else {
        r := InitUnmanaged(k, world);
      }
    }

    /** A free instance has left no trace; a used one is initialised throughout and can be freed. */
    predicate Valid()
      reads this
    {
      && Shaped()
      && if IsFree() then AllClear() && !globalBound
         else forall k :: 0 <= k < |channels| ==> AllDone(channels[k]) && Undoable(channels[k])
    }

    /** The loop over all channels that both the failed init and ipc_shm_free_instance run. */
    method FreeAllChannels()
      requires Shaped() && forall k :: 0 <= k < |channels| ==> Undoable(channels[k])
      modifies this`channels
      ensures Shaped() && AllClear()
    {
      var k := 0;
      while k < |channels|
        invariant k <= |channels| == |cfgs| && Shaped()
        invariant forall i :: 0 <= i < k ==> AllUntouched(channels[i])
        invariant forall i :: k <= i < |channels| ==> Undoable(channels[i])
      {
        FreeChannel(k);
        k := k + 1;
      }
    }

    /** Nothing in the configuration or in the world stands in the way of the attempt. */
    predicate Succeeds(world: World) {
      && base != 0 && remote != 0 && 1 <= |cfgs| <= IPC_SHM_MAX_CHANNELS && world.platform
      && Meets(cfgs, base, base + shmSize, world)
    }

    /** The channel loop of ipc_shm_init_instance, undone at the first failure. */
    method InitChannels(world: World) returns (r: Result<()>)
      requires Shaped() && AllClear()
      modifies this`channels
      ensures Shaped() && (r.Ok? <==> Meets(cfgs, base, base + shmSize, world))
      ensures if r.Ok? then forall k :: 0 <= k < |channels| ==> ChanSynced(channels[k], cfgs[k], world, k)
              else AllClear()
      ensures r == Err(EAGAIN) ==> exists k, ring: nat :: 0 <= k < |cfgs| && Busy(cfgs[k], world, k, ring)
    {
      hide MeetsAt, ChanSynced, Undoable, Matches, AllUntouched, Busy;
      var k, local := 0, base + SIZEOF_GLOBAL;
      ghost var limit := base + shmSize;
      while k < |cfgs|
        invariant k <= |cfgs| && Shaped() && local == base + ChanOffset(cfgs, k)
        invariant forall i :: 0 <= i < k ==>
                    && ChanSynced(channels[i], cfgs[i], world, i) && Undoable(channels[i])
                    && MeetsAt(cfgs, base, limit, world, i)
        invariant forall i :: k <= i < |channels| ==> AllUntouched(channels[i])
      {
        r := InitChannel(k, local, world);
        if r.Err? {
          assert !MeetsAt(cfgs, base, limit, world, k);
          forall i | 0 <= i < |channels| ensures Undoable(channels[i]) {
            if i > k {
              UntouchedIsUndoable(channels[i]);
            }
          }
          FreeAllChannels();
          return;
        }
        local := local + ChanSize(cfgs[k]);
        k := k + 1;
      }
      assert Meets(cfgs, base, limit, world);
      r := Ok(());
    }

    /** ipc_shm_init_instance: all channels initialised and the instance in use, or no trace of the attempt. */
    method InitInstance(world: World) returns (r: Result<()>)
      requires Valid()
      modifies this
      ensures Valid()
      ensures !old(IsFree()) ==> r == Err(EINVAL) && channels == old(channels) && !IsFree()
      ensures old(IsFree()) ==> (r.Ok? <==> !IsFree()) && (r.Ok? <==> Succeeds(world))
      ensures r.Ok? ==> forall k :: 0 <= k < |channels| ==> ChanSynced(channels[k], cfgs[k], world, k)
      ensures r == Err(EAGAIN) ==> exists k, ring: nat :: 0 <= k < |cfgs| && Busy(cfgs[k], world, k, ring)
    {
      if !IsFree() || base == 0 || remote == 0 || |cfgs| < 1 || |cfgs| > IPC_SHM_MAX_CHANNELS {
        return Err(EINVAL);
      }
      if !world.platform {
        return Err(ENOMEM);
      }
      globalBound, globalReady := true, false;
      r := InitChannels(world);
      if r.Err? {
        globalBound := false;
        return;
      }
      forall k | 0 <= k < |channels| ensures AllDone(channels[k]) && Undoable(channels[k]) {
        SyncedIsDone(channels[k], cfgs[k], world, k);
      }
      globalReady := true;
    }

    /** ipc_shm_free_instance. */
    method FreeInstance()
      requires Valid()
      modifies this
      ensures Valid() && IsFree()
    {
      if IsFree() {
        return;
      }
      globalReady := false;
      globalBound := false;
      FreeAllChannels();
    }

    /** A caller that tries again after every failure: each failed attempt has left the memory clear. */
    method Retry(worlds: seq<World>) returns (ok: bool)
      requires Valid() && IsFree()
      modifies this
      ensures Valid() && (ok <==> !IsFree())
      ensures !ok ==> AllClear()
      ensures ok <==> exists t :: 0 <= t < |worlds| && Succeeds(worlds[t])
    {
      ok := false;
      var t := 0;
      while t < |worlds| && !ok
        invariant t <= |worlds| && Valid() && (ok <==> !IsFree())
        invariant !ok ==> forall u :: 0 <= u < t ==> !Succeeds(worlds[u])
        invariant ok ==> t > 0 && Succeeds(worlds[t - 1])
      {
        var r := InitInstance(worlds[t]);
        ok := r.Ok?;
        t := t + 1;
      }
    }

    /** With an accepted configuration, a working platform and room for every push, only a busy peer is in the way. */
    lemma OnlyBusyPeersRefuse(world: World)
      requires base != 0 && remote != 0 && 1 <= |cfgs| <= IPC_SHM_MAX_CHANNELS && world.platform
      requires AllAccepted(cfgs, base, shmSize, |cfgs|)
      requires forall k :: 0 <= k < |cfgs| && cfgs[k].ManagedCfg? ==> AlwaysRoom(cfgs[k].pools, world, k)
      ensures Succeeds(world) <==> forall k, ring: nat :: 0 <= k < |cfgs| ==> !Busy(cfgs[k], world, k, ring)
    {
      SucceedsIff(world);
      hide AllAccepted, Meets;
      forall k | 0 <= k < |cfgs|
        ensures PeerMeets(cfgs[k], world, k) <==> forall ring: nat :: !Busy(cfgs[k], world, k, ring)
      {
        PeerMeetsIffIdle(cfgs[k], world, k);
      }
    }

    /** The exact condition, with the demands on the configuration apart from those on the peer's memory. */
    lemma SucceedsIff(world: World)
      ensures Succeeds(world) <==>
              && base != 0 && remote != 0 && 1 <= |cfgs| <= IPC_SHM_MAX_CHANNELS && world.platform
              && AllAccepted(cfgs, base, shmSize, |cfgs|)
              && forall k :: 0 <= k < |cfgs| ==> PeerMeets(cfgs[k], world, k)
    {
      hide ChanMeets, ChanAccepted, PeerMeets;
      forall k | 0 <= k < |cfgs|
        ensures MeetsAt(cfgs, base, base + shmSize, world, k) <==>
                AcceptedAt(cfgs, base, shmSize, k) && PeerMeets(cfgs[k], world, k)
      {
        MeetsIffAccepted(cfgs[k], base + ChanOffset(cfgs, k), base, shmSize, world, k);
      }
    }
  }

  predicate AlwaysRoom(pools: seq<PoolCfg>, world: World, k: nat) {
    forall p :: 0 <= p < |pools| ==> PushesFit(pools[p], world, k, p + 1)
  }

  predicate PushesFit(cfg: PoolCfg, world: World, k: nat, ring: nat) {
    Room(world, k, ring, cfg.numBufs, SyncedHead(world, k, ring, PoolQueue, cfg.numBufs + 1).write, 0)
  }

  lemma PeerMeetsIffIdle(c: ChannelCfg, world: World, k: nat)
    requires c.ManagedCfg? ==> AlwaysRoom(c.pools, world, k)
    ensures PeerMeets(c, world, k) <==> forall ring: nat :: !Busy(c, world, k, ring)
  {
    hide PushesFit;
    if forall ring: nat :: !Busy(c, world, k, ring) {
      assert !Busy(c, world, k, 0);
      if c.ManagedCfg? {
        forall p | 0 <= p < |c.pools| ensures PoolPeerMeets(c.pools[p], world, k, p + 1) {
          assert !Busy(c, world, k, p + 1) && PushesFit(c.pools[p], world, k, p + 1);
        }
      }
    } else {
      var ring: nat :| Busy(c, world, k, ring);
      if ring > 0 {
        assert !PoolPeerMeets(c.pools[ring - 1], world, k, (ring - 1) + 1);
      }
    }
  }

  lemma UntouchedIsUndoable(ch: Chan)
    requires AllUntouched(ch)
    ensures Undoable(ch)
  {
  }
}
