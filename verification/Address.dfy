/** Buffer addresses and descriptors of one managed channel: find_pool_for_buf and the arithmetic around it. */
module Address {
  import opened Types
  import opened Layout

  /** A pool's buffer array: `off` is its offset from the shared memory base, the same in every view. */
  datatype PoolGeo = PoolGeo(numBufs: nat, bufSize: nat, off: nat)

  datatype Geo = Geo(pools: seq<PoolGeo>, shmSize: nat)

  datatype Id = Id(pool: nat, buf: nat)

  predicate PoolGood(p: PoolGeo, shmSize: nat) {
    && 1 <= p.numBufs <= IPC_SHM_MAX_BUFS_PER_POOL && p.bufSize * p.numBufs < UINT32_RANGE
    && p.off + p.bufSize * p.numBufs <= shmSize
  }

  /** What init guarantees of an accepted channel that does not overflow: see GeoOfLayout. */
  predicate Good(g: Geo) {
    && |g.pools| <= IPC_SHM_MAX_POOLS
    && (forall i :: 0 <= i < |g.pools| ==> PoolGood(g.pools[i], g.shmSize))
    && (forall i, j :: 0 <= i < j < |g.pools| ==>
          && g.pools[i].bufSize <= g.pools[j].bufSize
          && g.pools[i].off + g.pools[i].bufSize * g.pools[i].numBufs <= g.pools[j].off)
  }

  predicate ValidId(g: Geo, id: Id) {
    id.pool < |g.pools| && id.buf < g.pools[id.pool].numBufs
  }

  /** The address of a buffer in the view whose shared memory starts at `base`. */
  function BufAddr(g: Geo, base: nat, id: Id): nat
    requires ValidId(g, id)
  {
    var p := g.pools[id.pool];
    base + p.off + U32(id.buf * p.bufSize)
  }

  /** An address anywhere inside the buffer. */
  predicate Within(g: Geo, base: nat, id: Id, addr: nat)
    requires ValidId(g, id)
  {
    BufAddr(g, base, id) <= addr < BufAddr(g, base, id) + g.pools[id.pool].bufSize
  }

  predicate InPool(p: PoolGeo, base: nat, addr: nat) {
    base + p.off <= addr < base + p.off + U32(p.numBufs * p.bufSize)
  }

  /** The first pool from `i` on whose array contains the address. */
  function FindPool(g: Geo, base: nat, addr: nat, i: nat): (r: Option<nat>)
    ensures r.Some? ==> i <= r.value < |g.pools| && InPool(g.pools[r.value], base, addr)
    ensures r.Some? ==> g.pools[r.value].bufSize > 0
    decreases |g.pools| - i
  {
    if i >= |g.pools| then None
    else if InPool(g.pools[i], base, addr) then Some(i)
    else FindPool(g, base, addr, i + 1)
  }

  method FindPoolForBuf(g: Geo, base: nat, addr: nat) returns (r: Option<nat>)
    ensures r == FindPool(g, base, addr, 0)
  {
    var i := 0;
    while i < |g.pools|
      invariant i <= |g.pools| && FindPool(g, base, addr, 0) == FindPool(g, base, addr, i)
    {
      var start := base + g.pools[i].off;
      var size := U32(g.pools[i].numBufs * g.pools[i].bufSize);
      if addr >= start && addr < start + size {
        return Some(i);
      }
      i := i + 1;
    }
    r := None;
  }

  /** The descriptor that ipc_shm_tx and ipc_shm_release_buf compute for an address; never divides by zero. */
  function IdOfAddr(g: Geo, base: nat, addr: nat): (r: Option<Id>)
    ensures r.Some? ==> r.value.pool < |g.pools|
  {
    match FindPool(g, base, addr, 0)
    case None => None
    case Some(p) => Some(Id(p, U16((addr - (base + g.pools[p].off)) / g.pools[p].bufSize)))
  }

  method IdForBuf(g: Geo, base: nat, addr: nat) returns (r: Option<Id>)
    ensures r == IdOfAddr(g, base, addr)
  {
    var p := FindPoolForBuf(g, base, addr);
    if p.None? {
      return None;
    }
    r := Some(Id(p.value, U16((addr - (base + g.pools[p.value].off)) / g.pools[p.value].bufSize)));
  }

  lemma MulMonotone(a: nat, b: nat, c: nat)
    requires a <= b
    ensures a * c <= b * c
  {
  }

  lemma DivUnique(x: nat, d: nat, q: nat)
    requires d > 0 && q * d <= x < q * d + d
    ensures x / d == q
  {
    var k := x / d;
    assert x == k * d + x % d;
    if k < q {
      MulMonotone(k + 1, q, d);
    } else if k > q {
      MulMonotone(q + 1, k, d);
    }
  }

  /** A buffer lies inside its pool's array, and the 32-bit products are exact. */
  lemma BufferBounds(p: PoolGeo, shmSize: nat, buf: nat)
    requires PoolGood(p, shmSize) && buf < p.numBufs
    ensures U32(buf * p.bufSize) == buf * p.bufSize
    ensures U32(p.numBufs * p.bufSize) == p.numBufs * p.bufSize == p.bufSize * p.numBufs
    ensures buf * p.bufSize + p.bufSize <= p.numBufs * p.bufSize
  {
    MulMonotone(buf + 1, p.numBufs, p.bufSize);
    assert (buf + 1) * p.bufSize == buf * p.bufSize + p.bufSize;
    SmallFits(buf * p.bufSize);
    SmallFits(p.numBufs * p.bufSize);
  }

  lemma {:induction false} FindPoolSkips(g: Geo, base: nat, addr: nat, i: nat, p: nat)
    requires i <= p < |g.pools| && InPool(g.pools[p], base, addr)
    requires forall j :: i <= j < p ==> !InPool(g.pools[j], base, addr)
    ensures FindPool(g, base, addr, i) == Some(p)
    decreases p - i
  {
    if i < p {
      FindPoolSkips(g, base, addr, i + 1, p);
    }
  }

  /** An address inside a buffer is in the array of that buffer's pool and of no other pool. */
  lemma OnlyPool(g: Geo, base: nat, id: Id, addr: nat, j: nat)
    requires Good(g) && ValidId(g, id) && Within(g, base, id, addr) && j < |g.pools|
    ensures InPool(g.pools[j], base, addr) <==> j == id.pool
  {
    hide U32;
    BufferBounds(g.pools[id.pool], g.shmSize, id.buf);
    BufferBounds(g.pools[j], g.shmSize, 0);
  }

  /**
   Any address inside any buffer of the channel, in any view, maps back to exactly that buffer's descriptor,
   and the buffer lies inside the shared memory of that view.
   */
  lemma AddressRoundTrip(g: Geo, base: nat, id: Id, addr: nat)
    requires Good(g) && ValidId(g, id) && Within(g, base, id, addr)
    ensures IdOfAddr(g, base, addr) == Some(id)
    ensures base <= BufAddr(g, base, id) && BufAddr(g, base, id) + g.pools[id.pool].bufSize <= base + g.shmSize
  {
    var p := g.pools[id.pool];
    forall j | 0 <= j < |g.pools| ensures InPool(g.pools[j], base, addr) <==> j == id.pool {
      OnlyPool(g, base, id, addr, j);
    }
    FindPoolSkips(g, base, addr, 0, id.pool);
    BufferBounds(p, g.shmSize, id.buf);
    hide U32, FindPool, InPool;
    DivUnique(addr - (base + p.off), p.bufSize, id.buf);
    SmallFits(id.buf);
  }

  /** An address is inside at most one buffer: distinct buffers are disjoint. */
  lemma BuffersDisjoint(g: Geo, base: nat, id: Id, id': Id, addr: nat)
    requires Good(g) && ValidId(g, id) && ValidId(g, id')
    requires Within(g, base, id, addr) && Within(g, base, id', addr)
    ensures id == id'
  {
    AddressRoundTrip(g, base, id, addr);
    AddressRoundTrip(g, base, id', addr);
  }

  /** The buffer arrays of the pools of a managed channel whose first pool is at offset `off`. */
  function GeoOf(pools: seq<PoolCfg>, off: nat, shmSize: nat): Geo {
    Geo(seq(|pools|, i requires 0 <= i < |pools| =>
          PoolGeo(pools[i].numBufs, pools[i].bufSize,
                  off + PoolOffset(pools, i) + QueueMemSize(pools[i].numBufs + 1))), shmSize)
  }

  lemma PoolGeoGood(pools: seq<PoolCfg>, off: nat, shmSize: nat, i: nat)
    requires i < |pools| && PoolFits32(pools[i]) && 1 <= pools[i].numBufs <= IPC_SHM_MAX_BUFS_PER_POOL
    requires off + PoolOffset(pools, |pools|) <= shmSize
    ensures PoolGood(GeoOf(pools, off, shmSize).pools[i], shmSize)
    ensures var p := GeoOf(pools, off, shmSize).pools[i];
            p.off + p.bufSize * p.numBufs == off + PoolOffset(pools, i + 1)
  {
    StoredSizeExact(pools[i]);
    PoolOffsetMonotone(pools, i + 1, |pools|);
    hide QueueMemSize, StoredPoolSize;
  }

  lemma GeoGood(c: ChannelCfg, localBase: nat, off: nat, shmSize: nat)
    requires c.ManagedCfg? && PoolsFit32(c.pools) && ChanAccepted(c, localBase + off, localBase, shmSize)
    ensures Good(GeoOf(c.pools, off + ManagedRingSize(c.pools), shmSize))
  {
    hide ManagedRingSize, QueueMemSize, StoredPoolSize, PoolGood, PoolFits32, PoolOffset;
    var lo := off + ManagedRingSize(c.pools);
    var g := GeoOf(c.pools, lo, shmSize);
    forall i | 0 <= i < |g.pools| ensures PoolGood(g.pools[i], shmSize) {
      PoolGeoGood(c.pools, lo, shmSize, i);
    }
    forall i, j | 0 <= i < j < |g.pools|
      ensures g.pools[i].bufSize <= g.pools[j].bufSize
      ensures g.pools[i].off + g.pools[i].bufSize * g.pools[i].numBufs <= g.pools[j].off
    {
      PoolGeoGood(c.pools, lo, shmSize, i);
      PoolOffsetMonotone(c.pools, i + 1, j);
    }
  }

  /**
   The two sides run the same layout over the same configuration, each with its own mapping addresses. For an
   accepted channel without 32-bit overflow, the pool addresses of both sides, local and remote, are the view
   bases plus one and the same good geometry.
   */
  lemma GeoOfLayout(p: ChanPlace, c: ChannelCfg, localBase: nat, remoteBase: nat, off: nat, shmSize: nat)
    requires c.ManagedCfg? && ChanPlaced(p, c, localBase + off, remoteBase + off)
    requires ChanAccepted(c, localBase + off, localBase, shmSize) && PoolsFit32(c.pools)
    ensures var g := GeoOf(c.pools, off + ManagedRingSize(c.pools), shmSize);
            Good(g) && |p.pools| == |g.pools| && forall i :: 0 <= i < |p.pools| ==>
              && p.pools[i].localAddr == localBase + g.pools[i].off
              && p.pools[i].remoteAddr == remoteBase + g.pools[i].off
              && p.pools[i].numBufs == g.pools[i].numBufs && p.pools[i].bufSize == g.pools[i].bufSize
  {
    GeoGood(c, localBase, off, shmSize);
    hide QueueMemSize, StoredPoolSize, PoolFits32, PoolOffset, Good, ChanAccepted;
  }
}
