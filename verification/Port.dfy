/**
 The buffer calls of ipc-shm.c on the queues of one managed channel, updating the shared rings in place. One side of
 the channel sends on one direction and receives on the other; both directions share the channel queue and the pools.
 */
module Port {
  import opened Types
  import opened Fifo
  import opened Address
  import opened Channel
  import Q = Queue

  /** Ghost record of what the two applications of a direction hold and have exchanged. */
  datatype Apps = Apps(held: set<Id>, rheld: map<Id, nat>, mem: map<Id, Bytes>, sent: seq<Sent>, got: seq<Got>)

  function AppsOf(d: Dir): Apps { Apps(d.held, d.rheld, d.mem, d.sent, d.got) }

  function WithApps(d: Dir, a: Apps): Dir {
    Dir(d.free, d.chan, a.held, a.rheld, a.mem, a.sent, a.got)
  }

  /** A mapped queue whose push ring is in the memory this side writes and whose pop ring is in the peer's. */
  ghost predicate Owned(q: Q.Queue, local: set<object>, remote: set<object>)
    reads q
  {
    && q.Mapped()
    && q.pushRing in local && q.pushRing.data in local && q.popRing in remote && q.popRing.data in remote
  }

  /** The two queues push to different rings. */
  ghost predicate Apart(q: Q.Queue, q': Q.Queue)
    requires q.Mapped() && q'.Mapped()
    reads q, q'
  {
    q.pushRing != q'.pushRing && q.pushRing.data != q'.pushRing.data
  }

  ghost predicate IsReady(q: Q.Queue)
    requires q.Mapped()
    reads q, q.pushRing, q.popRing
  {
    q.pushRing.sentinel == q.popRing.sentinel == Done
  }

  twostate lemma Kept(q: Q.Queue)
    requires old(q.Mapped()) && unchanged(q)
    requires unchanged(q.pushRing) && unchanged(q.popRing) && unchanged(q.pushRing.data) && unchanged(q.popRing.data)
    ensures q.Mapped() && q.Incoming() == old(q.Incoming()) && q.Outgoing() == old(q.Outgoing())
    ensures IsReady(q) <==> old(IsReady(q))
  {
  }

  /** struct ipc_managed_channel of one side. */
  class ManagedChannel {
    /** The direction this side sends on, and the one it receives on. */
    const tx: Views
    const rx: Views
    const bdQueue: Q.Queue
    const pools: seq<Q.Queue>
    /** The rings in the memory this side writes, and those in its peer's memory. */
    ghost const local: set<object>
    ghost const remote: set<object>
    ghost var txApps: Apps
    ghost var rxApps: Apps

    constructor (tx: Views, rx: Views, bdQueue: Q.Queue, pools: seq<Q.Queue>,
                 ghost local: set<object>, ghost remote: set<object>, ghost txApps: Apps, ghost rxApps: Apps)
      ensures this.tx == tx && this.rx == rx && this.bdQueue == bdQueue && this.pools == pools
      ensures this.local == local && this.remote == remote
      ensures this.txApps == txApps && this.rxApps == rxApps
    {
      this.tx, this.rx, this.bdQueue, this.pools := tx, rx, bdQueue, pools;
      this.local, this.remote := local, remote;
      this.txApps, this.rxApps := txApps, rxApps;
    }

    ghost predicate Valid()
      reads bdQueue, pools
    {
      && |pools| == |tx.g.pools| == |rx.g.pools| && local !! remote
      && this !in local + remote && bdQueue !in local + remote && (forall q :: q in pools ==> q !in local + remote)
      && Owned(bdQueue, local, remote)
      && (forall p :: 0 <= p < |pools| ==> Owned(pools[p], local, remote) && Apart(bdQueue, pools[p]))
      && (forall p, p' :: 0 <= p < p' < |pools| ==> Apart(pools[p], pools[p']))
    }

    /** What the first n pools offer to this side, and what this side offers to its peer through them. */
    ghost function Acquirable(n: nat): (free: seq<Ring<Bd>>)
      requires Valid() && n <= |pools|
      reads bdQueue, pools, local, remote
      ensures |free| == n && forall p :: 0 <= p < n ==> free[p] == pools[p].Incoming()
    {
      if n == 0 then [] else Acquirable(n - 1) + [pools[n - 1].Incoming()]
    }

    ghost function Released(n: nat): (free: seq<Ring<Bd>>)
      requires Valid() && n <= |pools|
      reads bdQueue, pools, local, remote
      ensures |free| == n && forall p :: 0 <= p < n ==> free[p] == pools[p].Outgoing()
    {
      if n == 0 then [] else Released(n - 1) + [pools[n - 1].Outgoing()]
    }

    /** The direction this side sends on: it pops the pools and pushes the channel queue. */
    ghost function TxDir(): (d: Dir)
      requires Valid()
      reads this, bdQueue, pools, local, remote
      ensures Shaped(tx, d) && AppsOf(d) == txApps
    {
      Dir(Acquirable(|pools|), bdQueue.Outgoing(),
          txApps.held, txApps.rheld, txApps.mem, txApps.sent, txApps.got)
    }

    /** The direction this side receives on: it pops the channel queue and pushes the pools. */
    ghost function RxDir(): (d: Dir)
      requires Valid()
      reads this, bdQueue, pools, local, remote
      ensures Shaped(rx, d) && AppsOf(d) == rxApps
    {
      Dir(Released(|pools|), bdQueue.Incoming(),
          rxApps.held, rxApps.rheld, rxApps.mem, rxApps.sent, rxApps.got)
    }

    ghost predicate Ready()
      requires Valid()
      reads bdQueue, pools, local, remote
    {
      IsReady(bdQueue) && forall p :: 0 <= p < |pools| ==> IsReady(pools[p])
    }

    /** ipc_check_mchan_integrity. */
    method CheckIntegrity() returns (ok: bool)
      requires Valid()
      ensures ok <==> Ready()
    {
      ok := bdQueue.CheckIntegrity();
      if !ok {
        return;
      }
      var p := 0;
      while p < |pools|
        invariant p <= |pools| && ok && IsReady(bdQueue)
        invariant forall i :: 0 <= i < p ==> IsReady(pools[i])
      {
        ok := pools[p].CheckIntegrity();
        if !ok {
          return;
        }
        p := p + 1;
      }
    }

    // ---------- One queue operation inside the channel ----------

    method PushChannel(bd: Bd) returns (r: Result<()>)
      requires Valid()
      modifies bdQueue.pushRing, bdQueue.pushRing.data
      ensures Valid() && (Ready() <==> old(Ready())) && RxDir() == old(RxDir())
      ensures (TxDir().chan, r) == Fifo.Push(old(TxDir()).chan, bd)
      ensures TxDir() == if r.Ok? then old(TxDir()).(chan := TxDir().chan) else old(TxDir())
    {
      r := bdQueue.Push(bd);
      PoolsKept();
    }

    method PopChannel() returns (r: Result<Bd>)
      requires Valid()
      modifies bdQueue.pushRing
      ensures Valid() && (Ready() <==> old(Ready())) && (IsReady(bdQueue) <==> old(IsReady(bdQueue)))
      ensures TxDir() == old(TxDir())
      ensures if IsReady(bdQueue) then (RxDir().chan, r) == Fifo.Pop(old(RxDir()).chan) else r == Err(EINVAL)
      ensures RxDir() == if r.Ok? then old(RxDir()).(chan := RxDir().chan) else old(RxDir())
    {
      r := bdQueue.Pop();
      PoolsKept();
    }

    /** Writing the own ring of the channel queue leaves the pools alone. */
    twostate lemma PoolsKept()
      requires old(Valid()) && unchanged(bdQueue) && unchanged(pools) && unchanged(remote)
      requires unchanged(local - {bdQueue.pushRing, bdQueue.pushRing.data})
      ensures Valid() && Acquirable(|pools|) == old(Acquirable(|pools|)) && Released(|pools|) == old(Released(|pools|))
      ensures forall p :: 0 <= p < |pools| ==> (IsReady(pools[p]) <==> old(IsReady(pools[p])))
    {
      forall p | 0 <= p < |pools|
        ensures Acquirable(|pools|)[p] == old(Acquirable(|pools|)[p])
        ensures Released(|pools|)[p] == old(Released(|pools|)[p])
        ensures IsReady(pools[p]) <==> old(IsReady(pools[p]))
      {
        assert Owned(pools[p], local, remote) && Apart(bdQueue, pools[p]);
        Kept(pools[p]);
      }
    }

    /** Writing the own ring of pool p leaves the channel queue and the other pools alone. */
    twostate lemma OthersKept(p: nat)
      requires old(Valid()) && p < |pools|
      requires unchanged(bdQueue) && unchanged(pools) && unchanged(remote)
      requires unchanged(local - {pools[p].pushRing, pools[p].pushRing.data})
      ensures Valid() && bdQueue.Incoming() == old(bdQueue.Incoming()) && bdQueue.Outgoing() == old(bdQueue.Outgoing())
      ensures IsReady(bdQueue) <==> old(IsReady(bdQueue))
      ensures forall i :: 0 <= i < |pools| && i != p ==>
                && Acquirable(|pools|)[i] == old(Acquirable(|pools|)[i])
                && Released(|pools|)[i] == old(Released(|pools|)[i])
                && (IsReady(pools[i]) <==> old(IsReady(pools[i])))
    {
      assert Owned(pools[p], local, remote) && Apart(bdQueue, pools[p]);
      Kept(bdQueue);
      forall i | 0 <= i < |pools| && i != p
        ensures Acquirable(|pools|)[i] == old(Acquirable(|pools|)[i])
        ensures Released(|pools|)[i] == old(Released(|pools|)[i])
        ensures IsReady(pools[i]) <==> old(IsReady(pools[i]))
      {
        assert Owned(pools[i], local, remote) && if i < p then Apart(pools[i], pools[p]) else Apart(pools[p], pools[i]);
        Kept(pools[i]);
      }
    }

    method PushPool(p: nat, bd: Bd) returns (r: Result<()>)
      requires Valid() && p < |pools|
      modifies local
      ensures Valid() && (Ready() <==> old(Ready())) && TxDir() == old(TxDir())
      ensures (RxDir().free[p], r) == Fifo.Push(old(RxDir()).free[p], bd)
      ensures RxDir() == if r.Ok? then old(RxDir()).(free := old(RxDir()).free[p := RxDir().free[p]]) else old(RxDir())
    {
      r := pools[p].Push(bd);
      OthersKept(p);
    }

    method PopPool(p: nat) returns (r: Result<Bd>)
      requires Valid() && p < |pools| && Ready()
      modifies local
      ensures Valid() && Ready() && RxDir() == old(RxDir())
      ensures (TxDir().free[p], r) == Fifo.Pop(old(TxDir()).free[p])
      ensures TxDir() == if r.Ok? then old(TxDir()).(free := old(TxDir()).free[p := TxDir().free[p]]) else old(TxDir())
    {
      r := pools[p].Pop();
      OthersKept(p);
    }

    /** Notes what the applications now hold and have exchanged; shared memory is not concerned. */
    ghost method Record(tx': Apps, rx': Apps)
      requires Valid()
      modifies this`txApps, this`rxApps
      ensures Valid() && (Ready() <==> old(Ready())) && (IsReady(bdQueue) <==> old(IsReady(bdQueue)))
      ensures TxDir() == WithApps(old(TxDir()), tx') && RxDir() == WithApps(old(RxDir()), rx')
    {
      assert this !in local + remote;
      hide Acquirable, Released, Ready, Valid;
      txApps, rxApps := tx', rx';
    }

    // ---------- The buffer calls ----------

    /** ipc_shm_tx; the receiving direction is not disturbed. */
    method Send(addr: nat, size: nat) returns (r: Result<()>)
      requires Valid()
      modifies this`txApps, this`rxApps, bdQueue.pushRing, bdQueue.pushRing.data
      ensures Valid() && RxDir() == old(RxDir()) && (Ready() <==> old(Ready()))
      ensures (TxDir(), r) == if Ready() then Tx(tx, old(TxDir()), addr, size) else (old(TxDir()), Err(EINVAL))
    {
      hide Valid, Ready, TxDir, RxDir, Fifo.Push, IdOfAddr;
      var ok := CheckIntegrity();
      if !ok || size == 0 {
        return Err(EINVAL);
      }
      var found := IdForBuf(tx.g, tx.sBase, addr);
      if found.None? {
        return Err(EINVAL);
      }
      var id := found.value;
      r := PushChannel(Bd(id.pool, id.buf, size));
      if r.Ok? {
        ghost var apps, rxApps := AppsOf(TxDir()), AppsOf(RxDir());
        ghost var bytes := if id in apps.mem then apps.mem[id] else [];
        Record(apps.(held := apps.held - {id}, sent := apps.sent + [Sent(id, size, bytes)]), rxApps);
      }
    }

    /** ipc_shm_release_buf; the sending direction is not disturbed. */
    method ReleaseBuf(addr: nat) returns (r: Result<()>)
      requires Valid()
      modifies this`txApps, this`rxApps, local
      ensures Valid() && TxDir() == old(TxDir()) && (Ready() <==> old(Ready()))
      ensures (RxDir(), r) == if Ready() then Release(rx, old(RxDir()), addr) else (old(RxDir()), Err(EINVAL))
    {
      hide Valid, Ready, TxDir, RxDir, Fifo.Push, IdOfAddr;
      var ok := CheckIntegrity();
      if !ok {
        return Err(EINVAL);
      }
      Dimensions(TxDir(), RxDir());
      var found := IdForBuf(rx.g, rx.rBase, addr);
      if found.None? {
        return Err(EINVAL);
      }
      var id := found.value;
      r := PushPool(id.pool, Bd(id.pool, id.buf, 0));
      if r.Ok? {
        ghost var txApps, apps := AppsOf(TxDir()), AppsOf(RxDir());
        Record(txApps, apps.(rheld := apps.rheld - {id}));
      }
    }

    /** The channel is ready and its two directions are as given. */
    ghost predicate At(d: Dir, e: Dir)
      reads this, bdQueue, pools, local, remote
    {
      Valid() && Ready() && TxDir() == d && RxDir() == e
    }

    lemma Dimensions(d: Dir, e: Dir)
      requires At(d, e)
      ensures |pools| == |tx.g.pools| == |rx.g.pools| && Shaped(tx, d) && Shaped(rx, e)
    {
    }

    /** Pops pool p; if it was not empty, its head is handed out unless its address is outside the shared memory. */
    method TakePool(p: nat, ghost d: Dir, ghost e: Dir) returns (ok: bool, r: Option<nat>)
      requires At(d, e) && p < |pools|
      modifies this`txApps, this`rxApps, local
      ensures Shaped(tx, d) && (ok <==> Fifo.Pop(d.free[p]).1.Ok?)
      ensures At(if ok then TakeFrom(tx, d, p).0 else d, e) && (ok ==> r == TakeFrom(tx, d, p).1)
    {
      hide Valid, Ready, TxDir, RxDir, Fifo.Pop;
      Dimensions(d, e);
      var bd := PopPool(p);
      if bd.Err? {
        return false, None;
      }
      ok := true;
      var pool := tx.g.pools[p];
      var addr := tx.sBase + pool.off + U32(bd.value.bufId * pool.bufSize);
      if addr < tx.sBase || addr + pool.bufSize > tx.sBase + tx.g.shmSize {
        return true, None;
      }
      r := Some(addr);
      ghost var apps, rxApps := AppsOf(TxDir()), AppsOf(RxDir());
      Record(apps.(held := apps.held + {Id(p, bd.value.bufId)}), rxApps);
    }

    /** The pool loop of ipc_shm_acquire_buf: the first non-empty pool whose buffers are large enough. */
    method ScanPools(size: nat, ghost d: Dir, ghost e: Dir) returns (r: Option<nat>)
      requires At(d, e)
      modifies this`txApps, this`rxApps, local
      ensures Shaped(tx, d) && At(AcquireFrom(tx, d, size, 0).0, e) && r == AcquireFrom(tx, d, size, 0).1
    {
      hide *;
      Dimensions(d, e);
      AcquireStarts(tx, d, size);
      var p := 0;
      while p < |pools|
        invariant p <= |pools| && At(d, e)
        invariant AcquireFrom(tx, d, size, 0) == AcquireFrom(tx, d, size, p)
      {
        AcquireGoesOn(tx, d, size, p);
        if size <= tx.g.pools[p].bufSize {
          var ok;
          ok, r := TakePool(p, d, e);
          if ok {
            return;
          }
        }
        p := p + 1;
      }
      r := None;
    }

    /** ipc_shm_acquire_buf; the receiving direction is not disturbed. */
    method AcquireBuf(size: nat) returns (r: Option<nat>)
      requires Valid()
      modifies this`txApps, this`rxApps, local
      ensures Valid() && RxDir() == old(RxDir()) && (Ready() <==> old(Ready()))
      ensures (TxDir(), r) == if Ready() then Acquire(tx, old(TxDir()), size) else (old(TxDir()), None)
    {
      ghost var d, e := TxDir(), RxDir();
      AcquireStarts(tx, d, size);
      hide Valid, Ready, TxDir, RxDir, Acquire, AcquireFrom;
      var ok := CheckIntegrity();
      if !ok || size == 0 {
        return None;
      }
      r := ScanPools(size, d, e);
    }

    /** One turn of the loop of ipc_channel_rx; the sending direction is not disturbed. */
    method ReceiveOne() returns (ok: bool)
      requires Valid() && bdQueue.Mapped() && IsReady(bdQueue)
      requires Fifo.Pop(RxDir().chan).1.Ok? ==> Fifo.Pop(RxDir().chan).1.value.poolId < |rx.g.pools|
      modifies this`txApps, this`rxApps, bdQueue.pushRing
      ensures Valid() && TxDir() == old(TxDir()) && bdQueue.Mapped() && IsReady(bdQueue)
      ensures (RxDir(), ok) == Rx(rx, old(RxDir()))
    {
      hide Valid, TxDir, RxDir, Fifo.Pop;
      var r := PopChannel();
      if r.Err? {
        return false;
      }
      ok := true;
      var bd := r.value;
      var pool := rx.g.pools[bd.poolId];
      var addr := rx.rBase + pool.off + U32(bd.bufId * pool.bufSize);
      if rx.rBase <= addr && addr + pool.bufSize <= rx.rBase + rx.g.shmSize {
        ghost var txApps, apps := AppsOf(TxDir()), AppsOf(RxDir());
        Record(txApps, apps.(rheld := apps.rheld[IdOf(bd) := |apps.got|], got := apps.got + [Got(addr, bd.dataSize)]));
      }
    }

    /** The managed part of ipc_channel_rx: hands over the oldest undelivered messages, as many as the budget allows. */
    method Receive(budget: nat) returns (work: nat)
      requires Valid() && bdQueue.Mapped() && IsReady(bdQueue) && Inv(rx, RxDir())
      modifies this`txApps, this`rxApps, bdQueue.pushRing
      ensures Valid() && TxDir() == old(TxDir()) && Inv(rx, RxDir())
      ensures RxDir().sent == old(RxDir()).sent
      ensures work == Min(budget, |RxDir().sent| - |old(RxDir()).got|)
      ensures |RxDir().got| == |old(RxDir()).got| + work && old(RxDir()).got <= RxDir().got
    {
      hide Valid, Inv, Rx, Fifo.Pop, TxDir, RxDir;
      work := 0;
      while work < budget
        invariant work <= budget && Valid() && TxDir() == old(TxDir()) && bdQueue.Mapped() && IsReady(bdQueue)
        invariant Inv(rx, RxDir()) && RxDir().sent == old(RxDir()).sent
        invariant |RxDir().got| == |old(RxDir()).got| + work && old(RxDir()).got <= RxDir().got
      {
        QueuedIsSent(rx, RxDir());
        RxKeeps(rx, RxDir());
        var ok := ReceiveOne();
        if !ok {
          return;
        }
        work := work + 1;
      }
      QueuedIsSent(rx, RxDir());
    }
  }

  lemma AcquireStarts(v: Views, d: Dir, size: nat)
    requires Shaped(v, d)
    ensures Acquire(v, d, size) == if size == 0 then (d, None) else AcquireFrom(v, d, size, 0)
    ensures AcquireFrom(v, d, size, |v.g.pools|) == (d, None)
  {
  }

  /** A pool that is too small or empty is passed over; the first other one decides. */
  lemma AcquireGoesOn(v: Views, d: Dir, size: nat, p: nat)
    requires Shaped(v, d) && p < |v.g.pools|
    ensures AcquireFrom(v, d, size, p) ==
            if size <= v.g.pools[p].bufSize && Fifo.Pop(d.free[p]).1.Ok? then TakeFrom(v, d, p)
            else AcquireFrom(v, d, size, p + 1)
  {
  }

  /** Whatever is queued in the channel ring names a buffer of the channel. */
  lemma QueuedIsSent(v: Views, d: Dir)
    requires Inv(v, d)
    ensures Shaped(v, d) && |d.got| <= |d.sent|
    ensures Fifo.Pop(d.chan).1.Ok? ==> Fifo.Pop(d.chan).1.value.poolId < |v.g.pools|
  {
    hide Contents, Fifo.Pop, Partition, Intact, Good;
    PopTakesHead(d.chan);
    if Fifo.Pop(d.chan).1.Ok? {
      assert Contents(d.chan)[0] == BdOf(d.sent[|d.got|]);
    }
  }
}
