/**
 Where ipc_shm_init_instance puts the rings, buffers and unmanaged areas of an instance, with the 32-bit
 arithmetic of the source. Addresses are natural numbers; the base addresses themselves do not overflow.
 */
module Layout {
  import opened Types

  const SIZEOF_RING: nat := 16
  const SIZEOF_BD: nat := 8
  const SIZEOF_UMEM: nat := 16
  const SIZEOF_GLOBAL: nat := 8

  datatype PoolCfg = PoolCfg(numBufs: nat, bufSize: nat)

  datatype ChannelCfg =
    | ManagedCfg(hasCallback: bool, pools: seq<PoolCfg>)
    | UnmanagedCfg(hasCallback: bool, size: nat)

  /** struct ipc_shm_pool after init: the ring starts at `ring`, the buffers at `addr`, in both views. */
  datatype PoolPlace = PoolPlace(
    numBufs: nat, bufSize: nat, shmSize: nat, localRing: nat, remoteRing: nat, localAddr: nat, remoteAddr: nat)

  datatype ChanPlace =
    | ManagedPlace(local: nat, remote: nat, elemNum: nat, pools: seq<PoolPlace>)
    | UnmanagedPlace(local: nat, remote: nat, size: nat)

  /** The values the C types of the configuration can hold. */
  predicate PoolTyped(p: PoolCfg) { p.numBufs < UINT16_RANGE && p.bufSize < UINT32_RANGE }

  predicate ChannelTyped(c: ChannelCfg) {
    match c
    case ManagedCfg(_, pools) => |pools| < 256 && forall i :: 0 <= i < |pools| ==> PoolTyped(pools[i])
    case UnmanagedCfg(_, size) => size < UINT32_RANGE
  }

  predicate Typed(cfgs: seq<ChannelCfg>) { forall k :: 0 <= k < |cfgs| ==> ChannelTyped(cfgs[k]) }

  /** ipc_queue_mem_size. */
  function QueueMemSize(elemNum: nat): nat { U32(SIZEOF_RING + elemNum * SIZEOF_BD) }

  // ---------- ipc_get_total_buf_per_chan ----------

  predicate Sorted(pools: seq<PoolCfg>) {
    forall i, j :: 0 <= i < j < |pools| ==> pools[i].bufSize <= pools[j].bufSize
  }

  function SumBufs(pools: seq<PoolCfg>): nat {
    if pools == [] then 0 else SumBufs(pools[..|pools| - 1]) + pools[|pools| - 1].numBufs
  }

  lemma {:induction false} SumBufsMonotone(pools: seq<PoolCfg>, k: nat)
    requires k <= |pools|
    ensures SumBufs(pools[..k]) <= SumBufs(pools)
    decreases |pools| - k
  {
    if k < |pools| {
      assert pools[..k + 1][..k] == pools[..k];
      SumBufsMonotone(pools, k + 1);
    } else {
      assert pools[..k] == pools;
    }
  }

  /** The number of buffers of a channel, or 0 when the pools are not sorted by size or are too many in all. */
  method GetTotalBufPerChan(pools: seq<PoolCfg>) returns (total: nat)
    ensures total == if Sorted(pools) && SumBufs(pools) <= IPC_SHM_MAX_BUFS_PER_CHANNEL then SumBufs(pools) else 0
  {
    var prev := 0;
    total := 0;
    var i := 0;
    while i < |pools|
      invariant i <= |pools| && Sorted(pools[..i]) && total == SumBufs(pools[..i]) <= IPC_SHM_MAX_BUFS_PER_CHANNEL
      invariant prev == if i == 0 then 0 else pools[i - 1].bufSize
    {
      if pools[i].bufSize < prev {
        assert pools[i - 1].bufSize > pools[i].bufSize;
        return 0;
      }
      assert pools[..i + 1][..i] == pools[..i];
      prev := pools[i].bufSize;
      total := total + pools[i].numBufs;
      if total > IPC_SHM_MAX_BUFS_PER_CHANNEL {
        SumBufsMonotone(pools, i + 1);
        return 0;
      }
      i := i + 1;
    }
    assert pools[..i] == pools;
  }

  // ---------- Pools ----------

  /** Bytes of a pool as the driver stores them: both the product and the sum are 32-bit. */
  function StoredPoolSize(cfg: PoolCfg): nat {
    U32(QueueMemSize(cfg.numBufs + 1) + U32(cfg.bufSize * cfg.numBufs))
  }

  /** Control words, slots and buffers of the pool. */
  function PoolBytes(cfg: PoolCfg): nat {
    SIZEOF_RING + (cfg.numBufs + 1) * SIZEOF_BD + cfg.bufSize * cfg.numBufs
  }

  /** No 32-bit overflow in the size of the pool. */
  predicate PoolFits32(cfg: PoolCfg) {
    PoolBytes(cfg) < UINT32_RANGE
  }

  function PlacePool(cfg: PoolCfg, local: nat, remote: nat): PoolPlace {
    var q := QueueMemSize(cfg.numBufs + 1);
    PoolPlace(cfg.numBufs, cfg.bufSize, StoredPoolSize(cfg), local, remote, local + q, remote + q)
  }

  /** The address part of ipc_buf_pool_init; a count of 0 is refused by ipc_queue_init. */
  method BufPoolInit(cfg: PoolCfg, local: nat, remote: nat, base: nat, shmSize: nat) returns (r: Result<PoolPlace>)
    requires PoolTyped(cfg)
    ensures r == if cfg.numBufs == 0 || cfg.numBufs > IPC_SHM_MAX_BUFS_PER_POOL then Err(EINVAL)
                 else if local + StoredPoolSize(cfg) > base + shmSize then Err(ENOMEM)
                 else Ok(PlacePool(cfg, local, remote))
  {
    hide U16, U32, QueueMemSize;
    if cfg.numBufs > IPC_SHM_MAX_BUFS_PER_POOL || cfg.numBufs == 0 {
      return Err(EINVAL);
    }
    SmallFits(cfg.numBufs);
    SmallFits(cfg.numBufs + 1);
    var elemNum := U16(U16(cfg.numBufs) + 1);
    var queueMem := QueueMemSize(elemNum);
    var size := U32(queueMem + U32(cfg.bufSize * cfg.numBufs));
    if local + size > base + shmSize {
      return Err(ENOMEM);
    }
    r := Ok(PoolPlace(cfg.numBufs, cfg.bufSize, size, local, remote, local + queueMem, remote + queueMem));
  }

  /** Offset of pool i from the first pool. */
  function PoolOffset(pools: seq<PoolCfg>, i: nat): nat
    requires i <= |pools|
  {
    if i == 0 then 0 else PoolOffset(pools, i - 1) + StoredPoolSize(pools[i - 1])
  }

  predicate PoolsPlaced(places: seq<PoolPlace>, pools: seq<PoolCfg>, local: nat, remote: nat) {
    && |places| <= |pools|
    && forall i {:trigger places[i]} :: 0 <= i < |places| ==>
         places[i] == PlacePool(pools[i], local + PoolOffset(pools, i), remote + PoolOffset(pools, i))
  }

  // ---------- Channels ----------

  function ManagedRingSize(pools: seq<PoolCfg>): nat { QueueMemSize(SumBufs(pools) + 1) }

  /** Bytes of a channel, as get_chan_memmap_size computes them without overflow. */
  function ChanSize(c: ChannelCfg): nat {
    match c
    case ManagedCfg(_, pools) => ManagedRingSize(pools) + PoolOffset(pools, |pools|)
    case UnmanagedCfg(_, size) => SIZEOF_UMEM + size
  }

  /** What the driver demands of the arguments of one channel. */
  predicate ArgsOk(c: ChannelCfg) {
    match c
    case ManagedCfg(hasCallback, pools) =>
      && hasCallback && |pools| <= IPC_SHM_MAX_POOLS && Sorted(pools)
      && 1 <= SumBufs(pools) <= IPC_SHM_MAX_BUFS_PER_CHANNEL
      && (forall i :: 0 <= i < |pools| ==> 1 <= pools[i].numBufs <= IPC_SHM_MAX_BUFS_PER_POOL)
    case UnmanagedCfg(hasCallback, size) => hasCallback && size <= IPC_SHM_MAX_UMNG_SIZE
  }

  /** What it demands in all: a managed channel must also fit. */
  predicate ChanAccepted(c: ChannelCfg, local: nat, base: nat, shmSize: nat) {
    ArgsOk(c) && (c.ManagedCfg? ==> local + ChanSize(c) <= base + shmSize)
  }

  predicate ChanPlaced(p: ChanPlace, c: ChannelCfg, local: nat, remote: nat) {
    match c
    case ManagedCfg(_, pools) =>
      && p.ManagedPlace? && p.local == local && p.remote == remote
      && p.elemNum == SumBufs(pools) + 1 <= IPC_UINT16_MAX && |p.pools| == |pools|
      && PoolsPlaced(p.pools, pools, local + ManagedRingSize(pools), remote + ManagedRingSize(pools))
    case UnmanagedCfg(_, size) => p == UnmanagedPlace(local, remote, size)
  }

  lemma {:induction false} PoolOffsetMonotone(pools: seq<PoolCfg>, i: nat, j: nat)
    requires i <= j <= |pools|
    ensures PoolOffset(pools, i) <= PoolOffset(pools, j)
    decreases j
  {
    if i < j {
      PoolOffsetMonotone(pools, i, j - 1);
    }
  }

  /** The pool loop of managed_channel_init. */
  method InitPools(pools: seq<PoolCfg>, local: nat, remote: nat, base: nat, shmSize: nat)
    returns (r: Result<seq<PoolPlace>>)
    requires forall i :: 0 <= i < |pools| ==> PoolTyped(pools[i])
    requires local <= base + shmSize
    ensures r.Ok? <==>
              && (forall i :: 0 <= i < |pools| ==> 1 <= pools[i].numBufs <= IPC_SHM_MAX_BUFS_PER_POOL)
              && local + PoolOffset(pools, |pools|) <= base + shmSize
    ensures r.Ok? ==> |r.value| == |pools| && PoolsPlaced(r.value, pools, local, remote)
    ensures r == Err(ENOMEM) ==> local + PoolOffset(pools, |pools|) > base + shmSize
    ensures r.Err? && r.errno != ENOMEM ==>
              && r.errno == EINVAL
              && exists i :: 0 <= i < |pools| && !(1 <= pools[i].numBufs <= IPC_SHM_MAX_BUFS_PER_POOL)
  {
    hide QueueMemSize, StoredPoolSize;
    var poolLocal, poolRemote := local, remote;
    var places: seq<PoolPlace> := [];
    var i := 0;
    while i < |pools|
      invariant i == |places| <= |pools|
      invariant PoolsPlaced(places, pools, local, remote)
      invariant poolLocal == local + PoolOffset(pools, i) <= base + shmSize
      invariant poolRemote == remote + PoolOffset(pools, i)
      invariant forall j :: 0 <= j < i ==> 1 <= pools[j].numBufs <= IPC_SHM_MAX_BUFS_PER_POOL
    {
      PoolOffsetMonotone(pools, i + 1, |pools|);
      var place := BufPoolInit(pools[i], poolLocal, poolRemote, base, shmSize);
      if place.Err? {
        return Err(place.errno);
      }
      places := places + [place.value];
      poolLocal := poolLocal + place.value.shmSize;
      poolRemote := poolRemote + place.value.shmSize;
      i := i + 1;
    }
    r := Ok(places);
  }

  /** The address part of managed_channel_init. */
  method ManagedChannelInit(c: ChannelCfg, local: nat, remote: nat, base: nat, shmSize: nat)
    returns (r: Result<ChanPlace>)
    requires c.ManagedCfg? && ChannelTyped(c)
    ensures r.Ok? <==> ChanAccepted(c, local, base, shmSize)
    ensures r.Ok? ==> ChanPlaced(r.value, c, local, remote)
    ensures r == Err(ENOMEM) ==> local + ChanSize(c) > base + shmSize
    ensures r.Err? && r.errno != ENOMEM ==> r.errno == EINVAL && !ArgsOk(c)
  {
    hide U16, QueueMemSize, PoolOffset, PoolsPlaced;
    var pools := c.pools;
    if !c.hasCallback || |pools| > IPC_SHM_MAX_POOLS {
      return Err(EINVAL);
    }
    var total := GetTotalBufPerChan(pools);
    if total == 0 {
      return Err(EINVAL);
    }
    SmallFits(total);
    SmallFits(total + 1);
    var elemNum := U16(U16(total) + 1);
    var queueMem := QueueMemSize(elemNum);
    if local + queueMem > base + shmSize {
      return Err(ENOMEM);
    }
    var places := InitPools(pools, local + queueMem, remote + queueMem, base, shmSize);
    if places.Err? {
      return Err(places.errno);
    }
    r := Ok(ManagedPlace(local, remote, elemNum, places.value));
  }

  /** Unlike a managed channel, an unmanaged one is not checked against the end of the shared memory. */
  method UnmanagedChannelInit(c: ChannelCfg, local: nat, remote: nat, ghost base: nat, ghost shmSize: nat)
    returns (r: Result<ChanPlace>)
    requires c.UnmanagedCfg?
    ensures r.Ok? <==> ChanAccepted(c, local, base, shmSize)
    ensures r.Ok? ==> ChanPlaced(r.value, c, local, remote)
    ensures r.Err? ==> r.errno == EINVAL
  {
    if !c.hasCallback || c.size > IPC_SHM_MAX_UMNG_SIZE {
      return Err(EINVAL);
    }
    r := Ok(UnmanagedPlace(local, remote, c.size));
  }

  /** get_chan_memmap_size: although summed in 32 bits, an accepted channel's size is exact. */
  method GetChanMemmapSize(
    p: ChanPlace, ghost c: ChannelCfg, ghost local: nat, ghost remote: nat, ghost base: nat, ghost shmSize: nat)
    returns (size: nat)
    requires shmSize < UINT32_RANGE && base <= local
    requires ChanPlaced(p, c, local, remote) && ChanAccepted(c, local, base, shmSize)
    ensures size == ChanSize(c)
  {
    hide U32, QueueMemSize, StoredPoolSize;
    if p.UnmanagedPlace? {
      SmallFits(SIZEOF_UMEM + p.size);
      return U32(SIZEOF_UMEM + p.size);
    }
    size := QueueMemSize(p.elemNum);
    var i := 0;
    while i < |p.pools|
      invariant i <= |p.pools| && size == ManagedRingSize(c.pools) + PoolOffset(c.pools, i)
    {
      PoolOffsetMonotone(c.pools, i + 1, |c.pools|);
      SmallFits(size + p.pools[i].shmSize);
      size := U32(size + p.pools[i].shmSize);
      i := i + 1;
    }
  }

  // ---------- The whole instance ----------

  /** Offset of channel k from the base of the shared memory. */
  function ChanOffset(cfgs: seq<ChannelCfg>, k: nat): nat
    requires k <= |cfgs|
  {
    if k == 0 then SIZEOF_GLOBAL else ChanOffset(cfgs, k - 1) + ChanSize(cfgs[k - 1])
  }

  predicate AllAccepted(cfgs: seq<ChannelCfg>, base: nat, shmSize: nat, n: nat)
    requires n <= |cfgs|
  {
    forall k :: 0 <= k < n ==> AcceptedAt(cfgs, base, shmSize, k)
  }

  predicate AcceptedAt(cfgs: seq<ChannelCfg>, base: nat, shmSize: nat, k: nat)
    requires k < |cfgs|
  {
    ChanAccepted(cfgs[k], base + ChanOffset(cfgs, k), base, shmSize)
  }

  predicate AllPlaced(places: seq<ChanPlace>, cfgs: seq<ChannelCfg>, local: nat, remote: nat) {
    && |places| <= |cfgs|
    && forall k {:trigger places[k]} :: 0 <= k < |places| ==>
         ChanPlaced(places[k], cfgs[k], local + ChanOffset(cfgs, k), remote + ChanOffset(cfgs, k))
  }

  /** The channel loop of ipc_shm_init_instance: each channel starts where the previous one's last pool ends. */
  method InitInstance(cfgs: seq<ChannelCfg>, local: nat, remote: nat, shmSize: nat) returns (r: Result<seq<ChanPlace>>)
    requires Typed(cfgs) && shmSize < UINT32_RANGE
    ensures r.Ok? <==>
              1 <= |cfgs| <= IPC_SHM_MAX_CHANNELS && local != 0 && remote != 0
              && AllAccepted(cfgs, local, shmSize, |cfgs|)
    ensures r.Ok? ==> |r.value| == |cfgs| && AllPlaced(r.value, cfgs, local, remote)
  {
    hide ChanPlaced, ChanAccepted, ChanSize, ChannelTyped;
    if local == 0 || remote == 0 || |cfgs| < 1 || |cfgs| > IPC_SHM_MAX_CHANNELS {
      return Err(EINVAL);
    }
    var localChan, remoteChan := local + SIZEOF_GLOBAL, remote + SIZEOF_GLOBAL;
    var places: seq<ChanPlace> := [];
    var k := 0;
    while k < |cfgs|
      invariant k == |places| <= |cfgs|
      invariant AllPlaced(places, cfgs, local, remote) && AllAccepted(cfgs, local, shmSize, k)
      invariant localChan == local + ChanOffset(cfgs, k) && remoteChan == remote + ChanOffset(cfgs, k)
    {
      var place: Result<ChanPlace>;
      if cfgs[k].ManagedCfg? {
        place := ManagedChannelInit(cfgs[k], localChan, remoteChan, local, shmSize);
      } else {
        place := UnmanagedChannelInit(cfgs[k], localChan, remoteChan, local, shmSize);
      }
      if place.Err? {
        assert !AcceptedAt(cfgs, local, shmSize, k);
        return Err(place.errno);
      }
      var size := GetChanMemmapSize(place.value, cfgs[k], localChan, remoteChan, local, shmSize);
      places := places + [place.value];
      localChan := localChan + size;
      remoteChan := remoteChan + size;
      k := k + 1;
    }
    r := Ok(places);
  }

  // ---------- Areas: disjoint, consecutive, the same in both views ----------

  datatype Area = Area(start: nat, size: nat)

  /** The areas fill the interval from `lo` to `hi` one after the other. */
  predicate Chained(areas: seq<Area>, lo: nat, hi: nat) {
    if areas == [] then lo == hi
    else areas[0].start == lo && Chained(areas[1..], lo + areas[0].size, hi)
  }

  lemma {:induction false} ChainedAppend(a: seq<Area>, b: seq<Area>, lo: nat, mid: nat, hi: nat)
    requires Chained(a, lo, mid) && Chained(b, mid, hi)
    ensures Chained(a + b, lo, hi)
  {
    if a == [] {
      assert a + b == b;
    } else {
      assert (a + b)[1..] == a[1..] + b;
      ChainedAppend(a[1..], b, lo + a[0].size, mid, hi);
    }
  }

  lemma {:induction false} ChainedWithin(areas: seq<Area>, lo: nat, hi: nat, i: nat)
    requires Chained(areas, lo, hi) && i < |areas|
    ensures lo <= areas[i].start && areas[i].start + areas[i].size <= hi
  {
    if i == 0 {
      ChainedGrows(areas[1..], lo + areas[0].size, hi);
    } else {
      ChainedWithin(areas[1..], lo + areas[0].size, hi, i - 1);
    }
  }

  lemma {:induction false} ChainedGrows(areas: seq<Area>, lo: nat, hi: nat)
    requires Chained(areas, lo, hi)
    ensures lo <= hi
  {
    if areas != [] {
      ChainedGrows(areas[1..], lo + areas[0].size, hi);
    }
  }

  /** Two areas of a chain never overlap. */
  lemma {:induction false} ChainedDisjoint(areas: seq<Area>, lo: nat, hi: nat, i: nat, j: nat)
    requires Chained(areas, lo, hi) && i < j < |areas|
    ensures areas[i].start + areas[i].size <= areas[j].start
  {
    if i == 0 {
      ChainedWithin(areas[1..], lo + areas[0].size, hi, j - 1);
    } else {
      ChainedDisjoint(areas[1..], lo + areas[0].size, hi, i - 1, j - 1);
    }
  }

  /** The control words and the slots of a ring. */
  function RingAreas(start: nat, elemNum: nat): seq<Area> {
    [Area(start, SIZEOF_RING), Area(start + SIZEOF_RING, elemNum * SIZEOF_BD)]
  }

  /** The ring and the buffers of a pool in the local or the remote view, with their true sizes. */
  function PoolAreas(p: PoolPlace, remote: bool): seq<Area> {
    RingAreas(if remote then p.remoteRing else p.localRing, p.numBufs + 1)
    + [Area(if remote then p.remoteAddr else p.localAddr, p.bufSize * p.numBufs)]
  }

  /** The areas of the first n pools. */
  function PoolsAreas(ps: seq<PoolPlace>, n: nat, remote: bool): seq<Area>
    requires n <= |ps|
  {
    if n == 0 then [] else PoolsAreas(ps, n - 1, remote) + PoolAreas(ps[n - 1], remote)
  }

  function ChanAreas(p: ChanPlace, remote: bool): seq<Area> {
    var start := if remote then p.remote else p.local;
    match p
    case ManagedPlace(_, _, elemNum, pools) => RingAreas(start, elemNum) + PoolsAreas(pools, |pools|, remote)
    case UnmanagedPlace(_, _, size) => [Area(start, SIZEOF_UMEM + size)]
  }

  /** The areas of the first n channels. */
  function AllAreas(ps: seq<ChanPlace>, n: nat, remote: bool): seq<Area>
    requires n <= |ps|
  {
    if n == 0 then [] else AllAreas(ps, n - 1, remote) + ChanAreas(ps[n - 1], remote)
  }

  predicate PoolsFit32(pools: seq<PoolCfg>) { forall i :: 0 <= i < |pools| ==> PoolFits32(pools[i]) }

  /** No pool of the configuration overflows 32 bits; a caller can compute this before calling init. */
  predicate Fits32(cfgs: seq<ChannelCfg>) {
    forall k :: 0 <= k < |cfgs| && cfgs[k].ManagedCfg? ==> PoolsFit32(cfgs[k].pools)
  }

  /** The footprint of a ring is its control words and all its slots: slot i ends inside it. */
  lemma RingHoldsItsSlots(elemNum: nat, i: nat)
    requires i < elemNum < UINT16_RANGE
    ensures QueueMemSize(elemNum) == SIZEOF_RING + elemNum * SIZEOF_BD
    ensures SIZEOF_RING + i * SIZEOF_BD + SIZEOF_BD <= QueueMemSize(elemNum)
  {
  }

  lemma StoredSizeExact(cfg: PoolCfg)
    requires PoolFits32(cfg)
    ensures StoredPoolSize(cfg) == PoolBytes(cfg)
    ensures QueueMemSize(cfg.numBufs + 1) == SIZEOF_RING + (cfg.numBufs + 1) * SIZEOF_BD
  {
    hide U32;
    SmallFits(cfg.bufSize * cfg.numBufs);
    SmallFits(SIZEOF_RING + (cfg.numBufs + 1) * SIZEOF_BD);
    SmallFits(PoolBytes(cfg));
  }

  lemma RingChained(start: nat, elemNum: nat)
    ensures Chained(RingAreas(start, elemNum), start, start + SIZEOF_RING + elemNum * SIZEOF_BD)
  {
    var areas := RingAreas(start, elemNum);
    assert areas[1..] == [areas[1]] && [areas[1]][1..] == [];
    assert Chained([areas[1]], start + SIZEOF_RING, start + SIZEOF_RING + elemNum * SIZEOF_BD);
  }

  lemma PoolChained(cfg: PoolCfg, local: nat, remote: nat, view: bool)
    requires PoolFits32(cfg)
    ensures var lo := if view then remote else local;
            Chained(PoolAreas(PlacePool(cfg, local, remote), view), lo, lo + StoredPoolSize(cfg))
  {
    StoredSizeExact(cfg);
    hide QueueMemSize, StoredPoolSize, RingAreas;
    var lo := if view then remote else local;
    var mid := lo + SIZEOF_RING + (cfg.numBufs + 1) * SIZEOF_BD;
    var buffers := [Area(mid, cfg.bufSize * cfg.numBufs)];
    RingChained(lo, cfg.numBufs + 1);
    assert buffers[1..] == [];
    assert Chained(buffers, mid, lo + PoolBytes(cfg));
    ChainedAppend(RingAreas(lo, cfg.numBufs + 1), buffers, lo, mid, lo + PoolBytes(cfg));
  }

  lemma {:induction false} PoolsChained(
    ps: seq<PoolPlace>, pools: seq<PoolCfg>, n: nat, local: nat, remote: nat, view: bool)
    requires n <= |ps| && PoolsPlaced(ps, pools, local, remote) && |ps| <= |pools| && PoolsFit32(pools)
    ensures var lo := if view then remote else local;
            Chained(PoolsAreas(ps, n, view), lo, lo + PoolOffset(pools, n))
  {
    hide PoolAreas, PlacePool, StoredPoolSize, PoolFits32, PoolsPlaced;
    if n > 0 {
      PoolsChained(ps, pools, n - 1, local, remote, view);
      OneMorePool(ps, pools, n - 1, local, remote, view);
    }
  }

  lemma OneMorePool(ps: seq<PoolPlace>, pools: seq<PoolCfg>, i: nat, local: nat, remote: nat, view: bool)
    requires i < |ps| && PoolsPlaced(ps, pools, local, remote) && PoolFits32(pools[i])
    requires var lo := if view then remote else local;
             Chained(PoolsAreas(ps, i, view), lo, lo + PoolOffset(pools, i))
    ensures var lo := if view then remote else local;
            Chained(PoolsAreas(ps, i + 1, view), lo, lo + PoolOffset(pools, i + 1))
  {
    hide PoolAreas, PlacePool, StoredPoolSize, PoolFits32, Chained;
    var lo := if view then remote else local;
    PoolChained(pools[i], local + PoolOffset(pools, i), remote + PoolOffset(pools, i), view);
    ChainedAppend(PoolsAreas(ps, i, view), PoolAreas(ps[i], view),
                  lo, lo + PoolOffset(pools, i), lo + PoolOffset(pools, i + 1));
  }

  lemma ChanChained(p: ChanPlace, c: ChannelCfg, local: nat, remote: nat, view: bool)
    requires ChanPlaced(p, c, local, remote) && (c.ManagedCfg? ==> PoolsFit32(c.pools))
    ensures var lo := if view then remote else local;
            Chained(ChanAreas(p, view), lo, lo + ChanSize(c))
  {
    hide QueueMemSize, PoolOffset, RingAreas;
    var lo := if view then remote else local;
    if c.ManagedCfg? {
      var q := ManagedRingSize(c.pools);
      RingHoldsItsSlots(p.elemNum, 0);
      RingChained(lo, p.elemNum);
      PoolsChained(p.pools, c.pools, |p.pools|, local + q, remote + q, view);
      ChainedAppend(RingAreas(lo, p.elemNum), PoolsAreas(p.pools, |p.pools|, view), lo, lo + q, lo + ChanSize(c));
    } else {
      assert ChanAreas(p, view)[1..] == [];
    }
  }

  /**
   For a configuration without 32-bit overflow, the areas of both views fill the shared memory without gap
   or overlap, each view from its own base at the same offsets.
   */
  lemma {:induction false} LayoutChained(
    ps: seq<ChanPlace>, cfgs: seq<ChannelCfg>, n: nat, local: nat, remote: nat, view: bool)
    requires n <= |ps| && AllPlaced(ps, cfgs, local, remote) && Fits32(cfgs)
    ensures var base := if view then remote else local;
            Chained(AllAreas(ps, n, view), base + SIZEOF_GLOBAL, base + ChanOffset(cfgs, n))
  {
    hide ChanPlaced, ChanAreas, ChanSize, PoolsFit32;
    if n > 0 {
      var base, k := if view then remote else local, n - 1;
      LayoutChained(ps, cfgs, k, local, remote, view);
      ChanChained(ps[k], cfgs[k], local + ChanOffset(cfgs, k), remote + ChanOffset(cfgs, k), view);
      ChainedAppend(AllAreas(ps, k, view), ChanAreas(ps[k], view),
                    base + SIZEOF_GLOBAL, base + ChanOffset(cfgs, k), base + ChanOffset(cfgs, n));
    }
  }

  /** Any two distinct areas of an accepted, overflow-free instance are disjoint, in either view. */
  lemma LayoutDisjoint(
    ps: seq<ChanPlace>, cfgs: seq<ChannelCfg>, local: nat, remote: nat, view: bool, i: nat, j: nat)
    requires AllPlaced(ps, cfgs, local, remote) && Fits32(cfgs)
    requires i < j < |AllAreas(ps, |ps|, view)|
    ensures var areas := AllAreas(ps, |ps|, view); areas[i].start + areas[i].size <= areas[j].start
  {
    hide AllAreas, ChanPlaced, ChanOffset;
    var base := if view then remote else local;
    LayoutChained(ps, cfgs, |ps|, local, remote, view);
    ChainedDisjoint(AllAreas(ps, |ps|, view), base + SIZEOF_GLOBAL, base + ChanOffset(cfgs, |ps|), i, j);
  }

  /**
   All areas of a managed channel at offset `off` end within the shared memory, in either view, although only the
   local view is checked; unmanaged channels are not checked.
   */
  lemma ManagedAreasInside(
    p: ChanPlace, c: ChannelCfg, localBase: nat, remoteBase: nat, off: nat, shmSize: nat, view: bool, i: nat)
    requires ChanPlaced(p, c, localBase + off, remoteBase + off) && ChanAccepted(c, localBase + off, localBase, shmSize)
    requires c.ManagedCfg? && PoolsFit32(c.pools) && i < |ChanAreas(p, view)|
    ensures var base, a := if view then remoteBase else localBase, ChanAreas(p, view)[i];
            base + off <= a.start && a.start + a.size <= base + shmSize
  {
    var lo := off + if view then remoteBase else localBase;
    ChanChained(p, c, localBase + off, remoteBase + off, view);
    hide ChanAreas, PoolOffset, ChanPlaced, PoolsFit32, QueueMemSize;
    ChainedWithin(ChanAreas(p, view), lo, lo + ChanSize(c), i);
  }

  /** Two lists of areas at the same offsets from their bases. */
  predicate SameOffsets(a: seq<Area>, b: seq<Area>, baseA: nat, baseB: nat) {
    |a| == |b| && forall i :: 0 <= i < |a| ==> a[i].size == b[i].size && a[i].start + baseB == b[i].start + baseA
  }

  lemma {:induction false} ChainedSameOffsets(a: seq<Area>, b: seq<Area>, la: nat, ha: nat, lb: nat, hb: nat)
    requires Chained(a, la, ha) && Chained(b, lb, hb)
    requires SameSizes(a, b)
    ensures SameOffsets(a, b, la, lb)
  {
    if a != [] {
      ChainedSameOffsets(a[1..], b[1..], la + a[0].size, ha, lb + b[0].size, hb);
      forall i | 0 < i < |a| ensures a[i].start + lb == b[i].start + la {
        assert a[i] == a[1..][i - 1] && b[i] == b[1..][i - 1];
      }
    }
  }

  predicate SameSizes(a: seq<Area>, b: seq<Area>) {
    |a| == |b| && forall i :: 0 <= i < |a| ==> a[i].size == b[i].size
  }

  lemma SameSizesAppend(a: seq<Area>, b: seq<Area>, c: seq<Area>, d: seq<Area>)
    requires SameSizes(a, b) && SameSizes(c, d)
    ensures SameSizes(a + c, b + d)
  {
  }

  lemma {:induction false} PoolSizesAgree(ps: seq<PoolPlace>, n: nat)
    requires n <= |ps|
    ensures SameSizes(PoolsAreas(ps, n, false), PoolsAreas(ps, n, true))
  {
    if n > 0 {
      PoolSizesAgree(ps, n - 1);
      SameSizesAppend(PoolsAreas(ps, n - 1, false), PoolsAreas(ps, n - 1, true),
                      PoolAreas(ps[n - 1], false), PoolAreas(ps[n - 1], true));
    }
  }

  lemma ChanSizesAgree(p: ChanPlace)
    ensures SameSizes(ChanAreas(p, false), ChanAreas(p, true))
  {
    if p.ManagedPlace? {
      PoolSizesAgree(p.pools, |p.pools|);
    }
  }

  lemma {:induction false} SizesAgree(ps: seq<ChanPlace>, n: nat)
    requires n <= |ps|
    ensures SameSizes(AllAreas(ps, n, false), AllAreas(ps, n, true))
  {
    hide ChanAreas;
    if n > 0 {
      SizesAgree(ps, n - 1);
      ChanSizesAgree(ps[n - 1]);
      SameSizesAppend(AllAreas(ps, n - 1, false), AllAreas(ps, n - 1, true),
                      ChanAreas(ps[n - 1], false), ChanAreas(ps[n - 1], true));
    }
  }

  /** Every ring, buffer array and unmanaged area has the same offset in the local and in the remote view. */
  lemma ViewsAgree(ps: seq<ChanPlace>, cfgs: seq<ChannelCfg>, local: nat, remote: nat)
    requires AllPlaced(ps, cfgs, local, remote) && Fits32(cfgs)
    ensures SameOffsets(AllAreas(ps, |ps|, false), AllAreas(ps, |ps|, true), local, remote)
  {
    hide AllAreas, ChanOffset, ChanPlaced, Chained, SameSizes;
    var n := |ps|;
    LayoutChained(ps, cfgs, n, local, remote, false);
    LayoutChained(ps, cfgs, n, local, remote, true);
    SizesAgree(ps, n);
    var end := ChanOffset(cfgs, n);
    ChainedSameOffsets(AllAreas(ps, n, false), AllAreas(ps, n, true),
                       local + SIZEOF_GLOBAL, local + end, remote + SIZEOF_GLOBAL, remote + end);
  }

  /** Every buffer of every pool of channel k lies inside the shared memory. */
  predicate BuffersInside(p: ChanPlace, base: nat, shmSize: nat) {
    p.ManagedPlace? ==>
      forall i :: 0 <= i < |p.pools| ==>
        p.pools[i].localAddr + p.pools[i].bufSize * p.pools[i].numBufs <= base + shmSize
  }

  lemma PoolInsideIffFits32(cfg: PoolCfg, local: nat, base: nat, shmSize: nat)
    requires cfg.numBufs <= IPC_SHM_MAX_BUFS_PER_POOL && shmSize < UINT32_RANGE
    requires base <= local && local + StoredPoolSize(cfg) <= base + shmSize
    ensures local + QueueMemSize(cfg.numBufs + 1) + cfg.bufSize * cfg.numBufs <= base + shmSize <==> PoolFits32(cfg)
  {
    RingHoldsItsSlots(cfg.numBufs + 1, 0);
    hide QueueMemSize, StoredPoolSize;
    if PoolFits32(cfg) {
      StoredSizeExact(cfg);
    }
  }

  lemma PoolsInsideIffFit32(p: ChanPlace, c: ChannelCfg, local: nat, remote: nat, base: nat, shmSize: nat)
    requires ChanPlaced(p, c, local, remote) && ChanAccepted(c, local, base, shmSize)
    requires c.ManagedCfg? && base <= local && shmSize < UINT32_RANGE
    ensures BuffersInside(p, base, shmSize) <==> PoolsFit32(c.pools)
  {
    hide QueueMemSize, StoredPoolSize, PoolFits32;
    var q := ManagedRingSize(c.pools);
    forall i | 0 <= i < |c.pools|
      ensures p.pools[i].localAddr + p.pools[i].bufSize * p.pools[i].numBufs <= base + shmSize
         <==> PoolFits32(c.pools[i])
    {
      var off := q + PoolOffset(c.pools, i);
      assert p.pools[i] == PlacePool(c.pools[i], local + off, remote + off);
      PoolOffsetMonotone(c.pools, i + 1, |c.pools|);
      PoolInsideIffFits32(c.pools[i], local + off, base, shmSize);
    }
  }

  /**
   The fit check of the driver is made on the 32-bit size. Among the configurations it accepts, the buffers
   of all managed channels lie inside the shared memory if and only if no pool size overflows 32 bits.
   */
  lemma BuffersInsideIffFits32(ps: seq<ChanPlace>, cfgs: seq<ChannelCfg>, local: nat, remote: nat, shmSize: nat)
    requires shmSize < UINT32_RANGE && |ps| == |cfgs|
    requires AllPlaced(ps, cfgs, local, remote) && AllAccepted(cfgs, local, shmSize, |cfgs|)
    ensures (forall k :: 0 <= k < |ps| ==> BuffersInside(ps[k], local, shmSize)) <==> Fits32(cfgs)
  {
    hide ChanPlaced, ChanAccepted, BuffersInside, PoolsFit32;
    forall k | 0 <= k < |ps| && cfgs[k].ManagedCfg?
      ensures BuffersInside(ps[k], local, shmSize) <==> PoolsFit32(cfgs[k].pools)
    {
      assert ps[k] in ps && AcceptedAt(cfgs, local, shmSize, k);
      PoolsInsideIffFit32(ps[k], cfgs[k], local + ChanOffset(cfgs, k), remote + ChanOffset(cfgs, k), local, shmSize);
    }
    forall k | 0 <= k < |ps| && cfgs[k].UnmanagedCfg? ensures BuffersInside(ps[k], local, shmSize) {
      UnmanagedInside(ps[k], cfgs[k], local + ChanOffset(cfgs, k), remote + ChanOffset(cfgs, k), local, shmSize);
    }
  }

  lemma UnmanagedInside(p: ChanPlace, c: ChannelCfg, local: nat, remote: nat, base: nat, shmSize: nat)
    requires ChanPlaced(p, c, local, remote) && c.UnmanagedCfg?
    ensures BuffersInside(p, base, shmSize)
  {
  }

  lemma {:induction false} ChainedLast(areas: seq<Area>, lo: nat, hi: nat)
    requires Chained(areas, lo, hi) && areas != []
    ensures areas[|areas| - 1].start + areas[|areas| - 1].size == hi
  {
    if |areas| == 1 {
      assert areas[1..] == [];
    } else {
      ChainedLast(areas[1..], lo + areas[0].size, hi);
    }
  }

  /** All areas end within the shared memory. */
  predicate AreasInside(areas: seq<Area>, limit: nat) {
    forall i :: 0 <= i < |areas| ==> areas[i].start + areas[i].size <= limit
  }

  /**
   Unmanaged channels have no fit check, so an accepted configuration may reach beyond the shared memory. It
   stays inside if and only if the channel sizes, which a caller can add up before calling init, fit.
   */
  lemma AllInsideIffSizesFit(ps: seq<ChanPlace>, cfgs: seq<ChannelCfg>, local: nat, remote: nat, shmSize: nat)
    requires AllPlaced(ps, cfgs, local, remote) && Fits32(cfgs) && |ps| == |cfgs| && AllAreas(ps, |ps|, false) != []
    ensures AreasInside(AllAreas(ps, |ps|, false), local + shmSize) <==> ChanOffset(cfgs, |cfgs|) <= shmSize
  {
    hide AllAreas, ChanOffset, ChanPlaced, Chained;
    var areas := AllAreas(ps, |ps|, false);
    var lo, hi := local + SIZEOF_GLOBAL, local + ChanOffset(cfgs, |cfgs|);
    LayoutChained(ps, cfgs, |ps|, local, remote, false);
    ChainedLast(areas, lo, hi);
    forall i | 0 <= i < |areas| ensures areas[i].start + areas[i].size <= hi {
      ChainedWithin(areas, lo, hi, i);
    }
  }

  /** A lone unmanaged channel larger than the shared memory is accepted. */
  lemma UnmanagedOverrunAccepted()
    ensures var cfgs := [UnmanagedCfg(true, 0x1000)];
            Typed(cfgs) && AllAccepted(cfgs, 0x1000, 0x100, 1) && ChanOffset(cfgs, 1) > 0x100
  {
    var cfgs := [UnmanagedCfg(true, 0x1000)];
    assert ChanOffset(cfgs, 0) == SIZEOF_GLOBAL;
    assert AcceptedAt(cfgs, 0x1000, 0x100, 0);
  }

  /** A pool of 2^32 bytes is stored as its ring alone, passes the check and reaches beyond the shared memory. */
  lemma OverflowAccepted()
    ensures var cfgs := [ManagedCfg(true, [PoolCfg(4096, 0x10_0000)])];
            Typed(cfgs) && AllAccepted(cfgs, 0x1000, 0x2_0000, 1) && !Fits32(cfgs)
  {
    var pool := PoolCfg(4096, 0x10_0000);
    var cfgs := [ManagedCfg(true, [pool])];
    assert [pool][..0] == [];
    assert SumBufs([pool]) == 4096;
    assert PoolOffset([pool], 1) == StoredPoolSize(pool);
    assert !PoolFits32(pool) && !PoolsFit32(cfgs[0].pools);
    assert ChanOffset(cfgs, 0) == SIZEOF_GLOBAL;
    assert AcceptedAt(cfgs, 0x1000, 0x2_0000, 0);
  }
}
