/** From cleared memory and an accepted configuration to the state in which messages start to flow. */
module Boot {
  import opened Types
  import opened Fifo
  import opened Handshake
  import opened Layout
  import opened Address
  import Channel
  import Restart
  import Init = ConcurrentInit

  /** A queue after the first init of both sides. */
  function BothInit(s: Restart.System): (s': Restart.System)
    requires Restart.Cold(s)
    ensures s'.n == s.n && Restart.Inv(s')
  {
    Restart.FirstInitIsFresh(s);
    Restart.InitQueue(Restart.InitQueue(s, Restart.A).0, Restart.B).0
  }

  /** The queue of a channel in cleared memory and those of its pools, sized as the configuration says. */
  predicate ColdQueues(pools: seq<PoolCfg>, chan: Restart.System, queues: seq<Restart.System>) {
    && Restart.Cold(chan) && chan.kind == ChannelQueue && chan.n == SumBufs(pools) + 1
    && |queues| == |pools|
    && forall p :: 0 <= p < |pools| ==>
         && Restart.Cold(queues[p]) && queues[p].kind == PoolQueue
         && queues[p].poolId == p && queues[p].n == pools[p].numBufs + 1
  }

  /** The direction from side A to side B: B offers A's free buffers, A pushes the messages. */
  function Direction(
    pools: seq<PoolCfg>, chan: Restart.System, queues: seq<Restart.System>, mem: map<Id, Channel.Bytes>)
    : Channel.Dir
    requires ColdQueues(pools, chan, queues)
  {
    var free := seq(|queues|, p requires 0 <= p < |queues| => Restart.Out(BothInit(queues[p]), Restart.B));
    Channel.Dir(free, Restart.Out(BothInit(chan), Restart.A), {}, map[], mem, [], [])
  }

  lemma {:induction false} TotalIsSum(pools: seq<PoolCfg>, geo: seq<PoolGeo>)
    requires |geo| == |pools| && forall i :: 0 <= i < |geo| ==> geo[i].numBufs == pools[i].numBufs
    ensures Channel.Total(geo) == SumBufs(pools)
  {
    if pools != [] {
      TotalIsSum(pools[..|pools| - 1], geo[..|geo| - 1]);
    }
  }

  /**
   The state in which every managed channel starts: for any accepted configuration without 32-bit overflow, the
   first init of both sides leaves rings and geometry from which all disciplined runs conserve buffers and deliver.
   */
  lemma BootIsFresh(
    c: ChannelCfg, sBase: nat, rBase: nat, off: nat, shmSize: nat,
    chan: Restart.System, queues: seq<Restart.System>, mem: map<Id, Channel.Bytes>)
    requires c.ManagedCfg? && PoolsFit32(c.pools) && ChanAccepted(c, sBase + off, sBase, shmSize)
    requires ColdQueues(c.pools, chan, queues)
    requires forall id :: ValidId(GeoOf(c.pools, off + ManagedRingSize(c.pools), shmSize), id) ==> id in mem
    ensures Channel.Fresh(Channel.Views(GeoOf(c.pools, off + ManagedRingSize(c.pools), shmSize), sBase, rBase),
                          Direction(c.pools, chan, queues, mem))
  {
    hide ManagedRingSize, QueueMemSize, PoolOffset, ChanAccepted, Good, Contents, Restart.InitQueue, PoolFits32,
         Channel.Total, SumBufs;
    var g := GeoOf(c.pools, off + ManagedRingSize(c.pools), shmSize);
    GeoGood(c, sBase, off, shmSize);
    TotalIsSum(c.pools, g.pools);
    Restart.FirstInitIsFresh(chan);
    forall p | 0 <= p < |queues|
      ensures Valid(Restart.Out(BothInit(queues[p]), Restart.B))
      ensures Contents(Restart.Out(BothInit(queues[p]), Restart.B)) == FreeBds(p, g.pools[p].numBufs)
    {
      Restart.FirstInitIsFresh(queues[p]);
    }
  }
  // ---------- The same after concurrent init ----------

  /** The rings of the channel in the order of the instance: its queue at position j, its pools behind it. */
  predicate RingsOf(pools: seq<PoolCfg>, kinds: seq<Init.Kind>, j: nat) {
    && j + |pools| < |kinds| && kinds[j] == Init.Channel(SumBufs(pools) + 1)
    && forall p :: 0 <= p < |pools| ==> kinds[j + 1 + p] == Init.Pool(pools[p].numBufs)
  }

  function Bds(poolId: nat, ids: seq<nat>): (bds: seq<Bd>)
    ensures |bds| == |ids|
  {
    seq(|ids|, i requires 0 <= i < |ids| => Bd(poolId, ids[i], 0))
  }

  /** Free ring p of side A: pushed by B, popped by A. */
  function FreeRing(e: Init.System, i: nat, p: nat): Ring<Bd>
    requires i < |e.a.rings| && i < |e.b.rings|
  {
    Ring(|e.b.rings[i].slots|, Bds(p, e.b.rings[i].slots), e.b.rings[i].write, e.a.rings[i].read)
  }

  /** The direction from side A to side B; `data` is what the slots of the channel ring happen to hold. */
  function DirectionOf(
    pools: seq<PoolCfg>, e: Init.System, j: nat, data: seq<Bd>, mem: map<Id, Channel.Bytes>)
    : Channel.Dir
    requires j + |pools| < |e.a.rings| == |e.b.rings|
  {
    var free := seq(|pools|, p requires 0 <= p < |pools| => FreeRing(e, j + 1 + p, p));
    Channel.Dir(free, Ring(|data|, data, e.a.rings[j].write, e.b.rings[j].read), {}, map[], mem, [], [])
  }

  lemma InitialisedPoolOffersAll(e: Init.System, i: nat, p: nat, num: nat)
    requires i < |e.a.rings| && i < |e.b.rings| && |e.b.rings[i].slots| == num + 1
    requires Init.Initialised(Init.Pool(num), e.a.rings[i]) && Init.Initialised(Init.Pool(num), e.b.rings[i])
    ensures Valid(FreeRing(e, i, p)) && FreeRing(e, i, p).n == num + 1
    ensures Contents(FreeRing(e, i, p)) == FreeBds(p, num)
  {
  }

  /**
   However the two inits of an instance were interleaved, refused and retried from cleared memory: once both have
   finished, every managed channel without 32-bit overflow starts in the state from which buffers are conserved and
   messages delivered.
   */
  lemma ConcurrentBootIsFresh(
    c: ChannelCfg, sBase: nat, rBase: nat, off: nat, shmSize: nat,
    s: Init.System, schedule: seq<Init.Who>, j: nat, data: seq<Bd>, mem: map<Id, Channel.Bytes>)
    requires c.ManagedCfg? && PoolsFit32(c.pools) && ChanAccepted(c, sBase + off, sBase, shmSize)
    requires Init.Cold(s) && Init.AllFinished(Init.Exec(s, schedule)) && RingsOf(c.pools, s.kinds, j)
    requires |data| == SumBufs(c.pools) + 1
    requires forall id :: ValidId(GeoOf(c.pools, off + ManagedRingSize(c.pools), shmSize), id) ==> id in mem
    ensures Channel.Fresh(Channel.Views(GeoOf(c.pools, off + ManagedRingSize(c.pools), shmSize), sBase, rBase),
                          DirectionOf(c.pools, Init.Exec(s, schedule), j, data, mem))
  {
    hide ManagedRingSize, QueueMemSize, PoolOffset, ChanAccepted, Good, Contents, PoolFits32, Channel.Total, SumBufs,
         Init.Exec, Init.Initialised;
    var e := Init.Exec(s, schedule);
    var g := GeoOf(c.pools, off + ManagedRingSize(c.pools), shmSize);
    var d := DirectionOf(c.pools, e, j, data, mem);
    GeoGood(c, sBase, off, shmSize);
    TotalIsSum(c.pools, g.pools);
    Init.ConcurrentInitConverges(s, schedule);
    EmptyChannel(e.a.rings[j], e.b.rings[j], data);
    forall p | 0 <= p < |c.pools|
      ensures Valid(d.free[p]) && d.free[p].n == c.pools[p].numBufs + 1
      ensures Contents(d.free[p]) == FreeBds(p, c.pools[p].numBufs)
    {
      assert Init.KindOk(e.kinds[j + 1 + p]) && Init.SlotsOk(e.kinds[j + 1 + p], e.b.rings[j + 1 + p]);
      InitialisedPoolOffersAll(e, j + 1 + p, p, c.pools[p].numBufs);
    }
  }

  lemma EmptyChannel(a: Init.Mem, b: Init.Mem, data: seq<Bd>)
    requires |data| > 0
    requires Init.Initialised(Init.Channel(|data|), a) && Init.Initialised(Init.Channel(|data|), b)
    ensures Valid(Ring(|data|, data, a.write, b.read)) && Contents(Ring(|data|, data, a.write, b.read)) == []
  {
  }
}
