/**
 One direction of a managed channel between two live sides: buffer descriptors circulate from the free rings
 to the sending application, through the channel ring to the receiving application, and back. Each call of
 ipc-shm.c is one step; the rings underneath are justified by the Spsc module.
 */
module Channel {
  import opened Types
  import opened Fifo
  import opened Handshake
  import opened Address

  type Bytes = seq<nat>

  /** A message accepted by ipc_shm_tx, with the buffer contents at that moment. */
  datatype Sent = Sent(id: Id, size: nat, bytes: Bytes)

  /** One call of the receiver's rx_cb. */
  datatype Got = Got(addr: nat, size: nat)

  /** The channel geometry and the addresses at which sender and receiver map the sender's memory. */
  datatype Views = Views(g: Geo, sBase: nat, rBase: nat)

  /**
   `free[p]` is pushed by the receiver and popped by the sender, `chan` the other way round. `held` and
   `rheld` are the buffers in the hands of the two applications; rheld maps each to its place in `got`.
   */
  datatype Dir = Dir(
    free: seq<Ring<Bd>>, chan: Ring<Bd>, held: set<Id>, rheld: map<Id, nat>, mem: map<Id, Bytes>,
    sent: seq<Sent>, got: seq<Got>)

  predicate Shaped(v: Views, d: Dir) {
    && |d.free| == |v.g.pools| && |d.chan.slots| == d.chan.n
    && forall p :: 0 <= p < |d.free| ==> |d.free[p].slots| == d.free[p].n
  }

  function IdOf(bd: Bd): Id { Id(bd.poolId, bd.bufId) }

  // ---------- The four calls and the application's stores ----------

  /** Pops pool p and hands its buffer out, unless the address falls outside the shared memory. */
  function TakeFrom(v: Views, d: Dir, p: nat): (res: (Dir, Option<nat>))
    requires Shaped(v, d) && p < |d.free| && Fifo.Pop(d.free[p]).1.Ok?
  {
    var (ring, bd) := Fifo.Pop(d.free[p]);
    var pool := v.g.pools[p];
    var addr := v.sBase + pool.off + U32(bd.value.bufId * pool.bufSize);
    var d' := d.(free := d.free[p := ring]);
    if addr < v.sBase || addr + pool.bufSize > v.sBase + v.g.shmSize then (d', None)
    else (d'.(held := d.held + {Id(p, bd.value.bufId)}), Some(addr))
  }

  /** The pool loop of ipc_shm_acquire_buf from pool p on. */
  function AcquireFrom(v: Views, d: Dir, size: nat, p: nat): (res: (Dir, Option<nat>))
    requires Shaped(v, d)
    ensures Shaped(v, res.0)
    decreases |d.free| - p
  {
    if p >= |d.free| then (d, None)
    else if size > v.g.pools[p].bufSize then AcquireFrom(v, d, size, p + 1)
    else if Fifo.Pop(d.free[p]).1.Err? then AcquireFrom(v, d, size, p + 1)
    else TakeFrom(v, d, p)
  }

  /** ipc_shm_acquire_buf. */
  function Acquire(v: Views, d: Dir, size: nat): (res: (Dir, Option<nat>))
    requires Shaped(v, d)
  {
    if size == 0 then (d, None) else AcquireFrom(v, d, size, 0)
  }

  /** ipc_shm_tx. */
  function Tx(v: Views, d: Dir, addr: nat, size: nat): (res: (Dir, Result<()>))
    requires Shaped(v, d)
  {
    if size == 0 then (d, Err(EINVAL))
    else match IdOfAddr(v.g, v.sBase, addr)
      case None => (d, Err(EINVAL))
      case Some(id) =>
        var (ring, e) := Fifo.Push(d.chan, Bd(id.pool, id.buf, size));
        if e.Err? then (d, e)
        else
          var bytes := if id in d.mem then d.mem[id] else [];
          (d.(chan := ring, held := d.held - {id}, sent := d.sent + [Sent(id, size, bytes)]), e)
  }

  /** One turn of the loop of ipc_channel_rx; the callback runs only for an address inside the shared memory. */
  function Rx(v: Views, d: Dir): (res: (Dir, bool))
    requires Shaped(v, d)
  {
    var (ring, e) := Fifo.Pop(d.chan);
    if e.Err? || e.value.poolId >= |v.g.pools| then (d, false)
    else
      var bd, pool := e.value, v.g.pools[e.value.poolId];
      var addr := v.rBase + pool.off + U32(bd.bufId * pool.bufSize);
      var d' := d.(chan := ring);
      if addr < v.rBase || addr + pool.bufSize > v.rBase + v.g.shmSize then (d', true)
      else (d'.(rheld := d.rheld[IdOf(bd) := |d.got|], got := d.got + [Got(addr, bd.dataSize)]), true)
  }

  /** ipc_shm_release_buf. */
  function Release(v: Views, d: Dir, addr: nat): (res: (Dir, Result<()>))
    requires Shaped(v, d)
  {
    match IdOfAddr(v.g, v.rBase, addr)
    case None => (d, Err(EINVAL))
    case Some(id) =>
      var (ring, e) := Fifo.Push(d.free[id.pool], Bd(id.pool, id.buf, 0));
      if e.Err? then (d, e)
      else (d.(free := d.free[id.pool := ring], rheld := d.rheld - {id}), e)
  }

  /** The sending application fills a buffer it holds. */
  function Fill(d: Dir, id: Id, bytes: Bytes): Dir {
    if id in d.held then d.(mem := d.mem[id := bytes]) else d
  }

  // ---------- Runs ----------

  datatype Action =
    | DoAcquire(size: nat)
    | DoFill(id: Id, bytes: Bytes)
    | DoTx(addr: nat, size: nat)
    | DoRx
    | DoRelease(addr: nat)

  function Apply(v: Views, d: Dir, a: Action): (d': Dir)
    requires Shaped(v, d)
    ensures Shaped(v, d')
  {
    match a
    case DoAcquire(size) => Acquire(v, d, size).0
    case DoFill(id, bytes) => Fill(d, id, bytes)
    case DoTx(addr, size) => Tx(v, d, addr, size).0
    case DoRx => Rx(v, d).0
    case DoRelease(addr) => Release(v, d, addr).0
  }

  /** Applications send only buffers they hold and release only buffers they were given. */
  ghost predicate Disciplined(v: Views, d: Dir, a: Action) {
    && (a.DoTx? ==> exists id :: id in d.held && ValidId(v.g, id) && Within(v.g, v.sBase, id, a.addr))
    && (a.DoRelease? ==> exists id :: id in d.rheld && ValidId(v.g, id) && Within(v.g, v.rBase, id, a.addr))
  }

  function Total(pools: seq<PoolGeo>): nat {
    if pools == [] then 0 else Total(pools[..|pools| - 1]) + pools[|pools| - 1].numBufs
  }

  // ---------- The invariant ----------

  function Ids(bds: seq<Bd>): (ids: seq<Id>)
    ensures |ids| == |bds|
  {
    seq(|bds|, i requires 0 <= i < |bds| => IdOf(bds[i]))
  }

  /** How many times the descriptor occurs in a list. */
  function Count(bds: seq<Bd>, id: Id): nat { multiset(Ids(bds))[id] }

  function One(b: bool): nat { if b then 1 else 0 }

  /** The places where buffer id is: its free ring, the sender's hands, the channel ring, the receiver's hands. */
  ghost function Places(v: Views, d: Dir, id: Id): nat
    requires RingsOk(v, d) && ValidId(v.g, id)
  {
    Count(Contents(d.free[id.pool]), id) + One(id in d.held) + Count(Contents(d.chan), id) + One(id in d.rheld)
  }

  ghost predicate RingsOk(v: Views, d: Dir) {
    && Shaped(v, d) && Valid(d.chan) && d.chan.n == Total(v.g.pools) + 1
    && forall p :: 0 <= p < |d.free| ==> Valid(d.free[p]) && d.free[p].n == v.g.pools[p].numBufs + 1
  }

  /** A free ring holds descriptors of its own pool. */
  ghost predicate OwnPool(v: Views, d: Dir, p: nat)
    requires RingsOk(v, d) && p < |d.free|
  {
    forall bd :: bd in Contents(d.free[p]) ==> bd.poolId == p && ValidId(v.g, IdOf(bd)) && bd.dataSize == 0
  }

  ghost predicate Partition(v: Views, d: Dir)
    requires RingsOk(v, d)
  {
    && (forall id :: ValidId(v.g, id) ==> Places(v, d, id) == 1)
    && (forall id :: id in d.held || id in d.rheld ==> ValidId(v.g, id))
    && (forall p :: 0 <= p < |d.free| ==> OwnPool(v, d, p))
  }

  /** The channel ring holds the messages sent and not yet received; what was received is what was sent. */
  ghost predicate Delivery(v: Views, d: Dir)
    requires RingsOk(v, d)
  {
    && |d.got| <= |d.sent|
    && |Contents(d.chan)| == |d.sent| - |d.got|
    && (forall i :: 0 <= i < |d.sent| ==> ValidId(v.g, d.sent[i].id))
    && (forall i :: |d.got| <= i < |d.sent| ==> Contents(d.chan)[i - |d.got|] == BdOf(d.sent[i]))
    && (forall i :: 0 <= i < |d.got| ==> d.got[i] == Got(BufAddr(v.g, v.rBase, d.sent[i].id), d.sent[i].size))
  }

  function BdOf(m: Sent): Bd { Bd(m.id.pool, m.id.buf, m.size) }

  /** Buffers on their way and in the receiver's hands still hold the bytes they were sent with. */
  ghost predicate Intact(d: Dir) {
    && (forall i :: |d.got| <= i < |d.sent| ==> d.sent[i].id in d.mem && d.mem[d.sent[i].id] == d.sent[i].bytes)
    && (forall id :: id in d.rheld ==>
          && d.rheld[id] < |d.got| <= |d.sent| && d.sent[d.rheld[id]].id == id
          && id in d.mem && d.mem[id] == d.sent[d.rheld[id]].bytes)
  }

  ghost predicate Inv(v: Views, d: Dir) {
    && Good(v.g) && RingsOk(v, d) && Partition(v, d) && Delivery(v, d) && Intact(d)
    && (forall id :: ValidId(v.g, id) ==> id in d.mem)
  }

  // ---------- Counting ----------

  lemma CountAppend(a: seq<Bd>, b: seq<Bd>, id: Id)
    ensures Count(a + b, id) == Count(a, id) + Count(b, id)
  {
    assert Ids(a + b) == Ids(a) + Ids(b);
  }

  lemma CountSingle(bd: Bd, id: Id)
    ensures Count([bd], id) == One(IdOf(bd) == id)
  {
    assert Ids([bd]) == [IdOf(bd)];
  }

  lemma CountMember(bds: seq<Bd>, i: nat)
    requires i < |bds|
    ensures Count(bds, IdOf(bds[i])) >= 1
  {
    assert Ids(bds)[i] in multiset(Ids(bds));
  }

  /** A list without repetitions over a finite set is no longer than the set. */
  lemma {:induction false} LengthBound(s: seq<Id>, all: set<Id>)
    requires forall i :: 0 <= i < |s| ==> s[i] in all
    requires forall id :: id in all ==> multiset(s)[id] <= 1
    ensures |s| <= |all|
  {
    if s != [] {
      assert s == [s[0]] + s[1..];
      assert multiset(s) == multiset{s[0]} + multiset(s[1..]);
      forall i | 0 <= i < |s| - 1 ensures s[1..][i] in all - {s[0]} {
        assert s[1..][i] in multiset(s[1..]);
      }
      LengthBound(s[1..], all - {s[0]});
    }
  }

  function PoolIds(p: nat, n: nat): (ids: set<Id>)
    ensures forall id :: id in ids <==> id.pool == p && id.buf < n
    ensures |ids| == n
  {
    if n == 0 then {} else PoolIds(p, n - 1) + {Id(p, n - 1)}
  }

  /** All buffers of the first n pools. */
  function AllIds(pools: seq<PoolGeo>): (ids: set<Id>)
    ensures forall id :: id in ids <==> id.pool < |pools| && id.buf < pools[id.pool].numBufs
    ensures |ids| == Total(pools)
  {
    if pools == [] then {}
    else
      var k := |pools| - 1;
      assert AllIds(pools[..k]) !! PoolIds(k, pools[k].numBufs);
      AllIds(pools[..k]) + PoolIds(k, pools[k].numBufs)
  }

  // ---------- Capacity: the rings are never full when a disciplined application needs them ----------

  lemma ChanHasRoom(v: Views, d: Dir, id: Id)
    requires Inv(v, d) && id in d.held
    ensures |Contents(d.chan)| < d.chan.n - 1
  {
    hide Contents, Intact, Good, OwnPool, AllIds, Total;
    var s, all := Ids(Contents(d.chan)), AllIds(v.g.pools) - {id};
    forall i | 0 <= i < |s| ensures s[i] in all {
      assert Contents(d.chan)[i] == BdOf(d.sent[|d.got| + i]);
      CountMember(Contents(d.chan), i);
      assert Places(v, d, id) == 1;
    }
    forall id' | id' in all ensures multiset(s)[id'] <= 1 {
      assert ValidId(v.g, id') && Places(v, d, id') == 1;
    }
    LengthBound(s, all);
  }

  lemma FreeHasRoom(v: Views, d: Dir, id: Id)
    requires Inv(v, d) && id in d.rheld
    ensures |Contents(d.free[id.pool])| < d.free[id.pool].n - 1
  {
    var p := id.pool;
    assert OwnPool(v, d, p);
    var bds := Contents(d.free[p]);
    var s, all := Ids(bds), PoolIds(p, v.g.pools[p].numBufs) - {id};
    forall i | 0 <= i < |s| ensures s[i] in all {
      assert bds[i] in bds;
      CountMember(bds, i);
      assert Places(v, d, id) == 1;
    }
    forall id' | id' in all ensures multiset(s)[id'] <= 1 {
      assert ValidId(v.g, id') && Places(v, d, id') == 1;
    }
    LengthBound(s, all);
  }

  // ---------- Every call keeps the invariant ----------

  /** An id seen in a list is in no other place. */
  lemma OnlyThere(v: Views, d: Dir, id: Id)
    requires Inv(v, d) && ValidId(v.g, id)
    ensures Count(Contents(d.free[id.pool]), id) >= 1 ==>
              id !in d.held && id !in d.rheld && Count(Contents(d.chan), id) == 0
    ensures Count(Contents(d.chan), id) >= 1 ==> id !in d.held && id !in d.rheld
  {
    assert Places(v, d, id) == 1;
  }

  lemma TakeKeepsPartition(v: Views, d: Dir, p: nat)
    requires Inv(v, d) && p < |d.free| && Contents(d.free[p]) != []
    ensures var (ring, e) := Fifo.Pop(d.free[p]);
            && e.Ok? && e.value.poolId == p && ValidId(v.g, IdOf(e.value)) && IdOf(e.value) !in d.held
            && var d' := d.(free := d.free[p := ring], held := d.held + {IdOf(e.value)});
               RingsOk(v, d') && Partition(v, d')
  {
    hide Contents, Fifo.Pop, Delivery, Intact, Good, Count;
    PopTakesHead(d.free[p]);
    var (ring, e) := Fifo.Pop(d.free[p]);
    var bd, rest := e.value, Contents(ring);
    assert OwnPool(v, d, p) && bd in Contents(d.free[p]);
    CountMember(Contents(d.free[p]), 0);
    OnlyThere(v, d, IdOf(bd));
    var d' := d.(free := d.free[p := ring], held := d.held + {IdOf(bd)});
    forall id | ValidId(v.g, id) ensures Places(v, d', id) == 1 {
      assert Places(v, d, id) == 1;
      CountAppend([bd], rest, id);
      CountSingle(bd, id);
    }
    forall q | 0 <= q < |d'.free| ensures OwnPool(v, d', q) {
      assert OwnPool(v, d, q);
    }
  }

  /** Pool p can serve a request of the given size. */
  ghost predicate Candidate(v: Views, d: Dir, size: nat, p: nat)
    requires RingsOk(v, d) && p < |d.free|
  {
    size <= v.g.pools[p].bufSize && Contents(d.free[p]) != []
  }

  lemma {:induction false} AcquireScan(v: Views, d: Dir, size: nat, p: nat) returns (q: nat)
    requires RingsOk(v, d) && p <= |d.free|
    ensures p <= q <= |d.free| && forall i :: p <= i < q ==> !Candidate(v, d, size, i)
    ensures q < |d.free| ==>
              Candidate(v, d, size, q) && Fifo.Pop(d.free[q]).1.Ok? && AcquireFrom(v, d, size, p) == TakeFrom(v, d, q)
    ensures q == |d.free| ==> AcquireFrom(v, d, size, p) == (d, None)
    decreases |d.free| - p
  {
    hide Contents, Fifo.Pop, TakeFrom;
    if p == |d.free| {
      q := p;
    } else {
      PopTakesHead(d.free[p]);
      if Candidate(v, d, size, p) {
        q := p;
      } else {
        q := AcquireScan(v, d, size, p + 1);
      }
    }
  }

  lemma TakeKeeps(v: Views, d: Dir, p: nat)
    requires Inv(v, d) && p < |d.free| && Contents(d.free[p]) != []
    ensures Fifo.Pop(d.free[p]).1.Ok? && Inv(v, TakeFrom(v, d, p).0)
    ensures var id := IdOf(Fifo.Pop(d.free[p]).1.value);
            && id.pool == p && ValidId(v.g, id) && id !in d.held
            && TakeFrom(v, d, p).1 == Some(BufAddr(v.g, v.sBase, id))
            && TakeFrom(v, d, p).0 == d.(free := d.free[p := Fifo.Pop(d.free[p]).0], held := d.held + {id})
  {
    hide Contents, Fifo.Pop, Partition, U32, Good;
    TakeKeepsPartition(v, d, p);
    var id := IdOf(Fifo.Pop(d.free[p]).1.value);
    BufferInside(v.g, v.sBase, id);
  }

  /** The address checks of acquire and rx never fail. */
  lemma BufferInside(g: Geo, base: nat, id: Id)
    requires Good(g) && ValidId(g, id)
    ensures base <= BufAddr(g, base, id) && BufAddr(g, base, id) + g.pools[id.pool].bufSize <= base + g.shmSize
  {
    assert PoolGood(g.pools[id.pool], g.shmSize);
    BufferBounds(g.pools[id.pool], g.shmSize, id.buf);
  }

  /**
   Acquire is best fit: it hands out a buffer of the smallest size that is large enough and free, and fails
   only if there is none. The pools are scanned in order, so this rests on the sorting enforced at init.
   */
  lemma AcquireBestFit(v: Views, d: Dir, size: nat)
    requires Inv(v, d)
    ensures Inv(v, Acquire(v, d, size).0)
    ensures Acquire(v, d, size).1.None? ==> Acquire(v, d, size).0 == d
    ensures Acquire(v, d, size).1.None? <==>
              size == 0 || forall p :: 0 <= p < |d.free| ==> !Candidate(v, d, size, p)
    ensures Acquire(v, d, size).1.Some? ==>
              exists id :: GaveBestFit(v, d, Acquire(v, d, size).0, Acquire(v, d, size).1.value, size, id)
  {
    hide Contents, Fifo.Pop, TakeFrom, Partition, Delivery, Intact;
    if size > 0 {
      var q := AcquireScan(v, d, size, 0);
      if q < |d.free| {
        TakeKeeps(v, d, q);
        var id := IdOf(Fifo.Pop(d.free[q]).1.value);
        assert GaveBestFit(v, d, Acquire(v, d, size).0, Acquire(v, d, size).1.value, size, id);
      }
    }
  }

  ghost predicate GaveBestFit(v: Views, d: Dir, d': Dir, addr: nat, size: nat, id: Id)
    requires RingsOk(v, d)
  {
    && ValidId(v.g, id) && id !in d.held && d'.held == d.held + {id} && d'.chan == d.chan && d'.rheld == d.rheld
    && addr == BufAddr(v.g, v.sBase, id) && Candidate(v, d, size, id.pool)
    && forall p :: 0 <= p < |d.free| && Candidate(v, d, size, p) ==>
         v.g.pools[id.pool].bufSize <= v.g.pools[p].bufSize
  }

  lemma PartitionDependsOn(v: Views, d: Dir, d': Dir)
    requires RingsOk(v, d) && Partition(v, d)
    requires d'.free == d.free && d'.chan == d.chan && d'.held == d.held && d'.rheld == d.rheld
    ensures RingsOk(v, d') && Partition(v, d')
  {
    hide Contents, Count;
    forall id | ValidId(v.g, id) ensures Places(v, d', id) == 1 {
      assert Places(v, d, id) == 1;
    }
    forall p | 0 <= p < |d'.free| ensures OwnPool(v, d', p) {
      assert OwnPool(v, d, p);
    }
  }

  /** A buffer in the sender's hands is neither on its way nor in the receiver's hands. */
  lemma HeldIsPrivate(v: Views, d: Dir, id: Id)
    requires Inv(v, d) && id in d.held
    ensures id !in d.rheld && forall i :: |d.got| <= i < |d.sent| ==> d.sent[i].id != id
  {
    hide Contents, Intact, Good;
    assert Places(v, d, id) == 1;
    forall i | |d.got| <= i < |d.sent| ensures d.sent[i].id != id {
      CountMember(Contents(d.chan), i - |d.got|);
    }
  }

  /** An application's stores reach the buffer it holds and no other. */
  lemma FillKeeps(v: Views, d: Dir, id: Id, bytes: Bytes)
    requires Inv(v, d)
    ensures Inv(v, Fill(d, id, bytes))
    ensures id in d.held ==> id in Fill(d, id, bytes).mem && Fill(d, id, bytes).mem[id] == bytes
    ensures forall id' :: id' in d.mem && (id' != id || id !in d.held) ==>
              id' in Fill(d, id, bytes).mem && Fill(d, id, bytes).mem[id'] == d.mem[id']
    ensures Fill(d, id, bytes) == d.(mem := Fill(d, id, bytes).mem)
  {
    hide Contents, Partition, Good;
    if id in d.held {
      HeldIsPrivate(v, d, id);
      PartitionDependsOn(v, d, Fill(d, id, bytes));
    }
  }

  /** Moving buffer id from the sender's hands to the tail of the channel ring. */
  lemma SendKeepsPartition(v: Views, d: Dir, d': Dir, bd: Bd)
    requires RingsOk(v, d) && Partition(v, d) && IdOf(bd) in d.held
    requires RingsOk(v, d') && d'.free == d.free && d'.rheld == d.rheld && d'.held == d.held - {IdOf(bd)}
    requires Contents(d'.chan) == Contents(d.chan) + [bd]
    ensures Partition(v, d')
  {
    hide Contents, Count;
    forall id | ValidId(v.g, id) ensures Places(v, d', id) == 1 {
      assert Places(v, d, id) == 1;
      CountAppend(Contents(d.chan), [bd], id);
      CountSingle(bd, id);
    }
    forall p | 0 <= p < |d'.free| ensures OwnPool(v, d', p) {
      assert OwnPool(v, d, p);
    }
  }

  /** Sending a held buffer, by any address inside it, always succeeds. */
  lemma TxKeeps(v: Views, d: Dir, addr: nat, size: nat, id: Id)
    requires Inv(v, d) && id in d.held && ValidId(v.g, id) && Within(v.g, v.sBase, id, addr) && size > 0
    ensures Tx(v, d, addr, size).1.Ok?
    ensures Inv(v, Tx(v, d, addr, size).0)
    ensures Tx(v, d, addr, size).0.sent == d.sent + [Sent(id, size, d.mem[id])]
    ensures Tx(v, d, addr, size).0.held == d.held - {id} && Tx(v, d, addr, size).0.got == d.got
  {
    hide Contents, Partition, Good, Fifo.Push, Within, IdOfAddr;
    AddressRoundTrip(v.g, v.sBase, id, addr);
    ChanHasRoom(v, d, id);
    var bd := Bd(id.pool, id.buf, size);
    PushAppends(d.chan, bd);
    var d' := Tx(v, d, addr, size).0;
    SendKeepsPartition(v, d, d', bd);
  }

  /** An address outside the buffer arrays of the channel is refused by tx and release, and nothing changes. */
  lemma ForeignAddressIsRefused(v: Views, d: Dir, addr: nat, size: nat)
    requires Shaped(v, d)
    ensures (forall p :: 0 <= p < |v.g.pools| ==> !InPool(v.g.pools[p], v.sBase, addr)) ==>
              Tx(v, d, addr, size) == (d, Err(EINVAL))
    ensures (forall p :: 0 <= p < |v.g.pools| ==> !InPool(v.g.pools[p], v.rBase, addr)) ==>
              Release(v, d, addr) == (d, Err(EINVAL))
  {
  }

  /** Moving the head of the channel ring into the receiver's hands. */
  lemma ReceiveKeepsPartition(v: Views, d: Dir, d': Dir, bd: Bd)
    requires RingsOk(v, d) && Partition(v, d) && ValidId(v.g, IdOf(bd))
    requires RingsOk(v, d') && d'.free == d.free && d'.held == d.held && d'.rheld.Keys == d.rheld.Keys + {IdOf(bd)}
    requires Contents(d.chan) == [bd] + Contents(d'.chan)
    ensures Partition(v, d') && IdOf(bd) !in d.rheld
  {
    hide Contents, Count;
    forall id | ValidId(v.g, id) ensures Places(v, d', id) == 1 && (id == IdOf(bd) ==> id !in d.rheld) {
      assert Places(v, d, id) == 1;
      CountAppend([bd], Contents(d'.chan), id);
      CountSingle(bd, id);
    }
    forall p | 0 <= p < |d'.free| ensures OwnPool(v, d', p) {
      assert OwnPool(v, d, p);
    }
  }

  /** A queued message is always handed to the callback, at the receiver's address of the buffer that was sent. */
  lemma RxKeeps(v: Views, d: Dir)
    requires Inv(v, d)
    ensures Inv(v, Rx(v, d).0) && (Rx(v, d).1 <==> |d.got| < |d.sent|)
    ensures !Rx(v, d).1 ==> Rx(v, d).0 == d
    ensures Rx(v, d).1 ==>
              var m := d.sent[|d.got|];
              && Rx(v, d).0.got == d.got + [Got(BufAddr(v.g, v.rBase, m.id), m.size)]
              && Rx(v, d).0.rheld == d.rheld[m.id := |d.got|] && Rx(v, d).0.sent == d.sent
  {
    hide Contents, Partition, Good, Fifo.Pop, U32;
    PopTakesHead(d.chan);
    if |d.got| < |d.sent| {
      var m, d' := d.sent[|d.got|], Rx(v, d).0;
      var (ring, e) := Fifo.Pop(d.chan);
      assert Contents(d.chan)[0] == BdOf(m);
      BufferInside(v.g, v.rBase, m.id);
      ReceiveKeepsPartition(v, d, d', e.value);
    }
  }

  /** Moving buffer id from the receiver's hands to the tail of its free ring. */
  lemma ReturnKeepsPartition(v: Views, d: Dir, d': Dir, ring: Ring<Bd>, bd: Bd)
    requires RingsOk(v, d) && Partition(v, d) && IdOf(bd) in d.rheld && bd.dataSize == 0
    requires d'.free == d.free[bd.poolId := ring] && RingsOk(v, d') && d'.chan == d.chan && d'.held == d.held
    requires d'.rheld.Keys == d.rheld.Keys - {IdOf(bd)}
    requires Contents(ring) == Contents(d.free[bd.poolId]) + [bd]
    ensures Partition(v, d')
  {
    hide Contents, Count;
    forall id | ValidId(v.g, id) ensures Places(v, d', id) == 1 {
      assert Places(v, d, id) == 1;
      CountAppend(Contents(d.free[bd.poolId]), [bd], id);
      CountSingle(bd, id);
    }
    forall p | 0 <= p < |d'.free| ensures OwnPool(v, d', p) {
      assert OwnPool(v, d, p);
    }
  }

  /** Releasing a received buffer, by any address inside it, always succeeds. */
  lemma ReleaseKeeps(v: Views, d: Dir, addr: nat, id: Id)
    requires Inv(v, d) && id in d.rheld && ValidId(v.g, id) && Within(v.g, v.rBase, id, addr)
    ensures Release(v, d, addr).1.Ok?
    ensures Inv(v, Release(v, d, addr).0)
    ensures Release(v, d, addr).0.rheld == d.rheld - {id} && Release(v, d, addr).0.held == d.held
  {
    hide Contents, Partition, Good, Fifo.Push, Within, IdOfAddr;
    AddressRoundTrip(v.g, v.rBase, id, addr);
    FreeHasRoom(v, d, id);
    var bd := Bd(id.pool, id.buf, 0);
    PushAppends(d.free[id.pool], bd);
    ReturnKeepsPartition(v, d, Release(v, d, addr).0, Fifo.Push(d.free[id.pool], bd).0, bd);
  }

  // ---------- Every disciplined run ----------

  function Exec(v: Views, d: Dir, acts: seq<Action>): (d': Dir)
    requires Shaped(v, d)
    ensures Shaped(v, d')
  {
    if acts == [] then d else Apply(v, Exec(v, d, acts[..|acts| - 1]), acts[|acts| - 1])
  }

  ghost predicate DisciplinedRun(v: Views, d: Dir, acts: seq<Action>)
    requires Shaped(v, d)
  {
    acts != [] ==>
      && DisciplinedRun(v, d, acts[..|acts| - 1])
      && Disciplined(v, Exec(v, d, acts[..|acts| - 1]), acts[|acts| - 1])
  }

  /** Both sides just initialised: every free ring populated, the channel ring empty, nothing handed out. */
  ghost predicate Fresh(v: Views, d: Dir) {
    && Good(v.g) && RingsOk(v, d) && Contents(d.chan) == []
    && (forall p :: 0 <= p < |d.free| ==> Contents(d.free[p]) == FreeBds(p, v.g.pools[p].numBufs))
    && d.held == {} && d.rheld == map[] && d.sent == [] && d.got == []
    && (forall id :: ValidId(v.g, id) ==> id in d.mem)
  }

  lemma {:induction false} CountFreeBds(p: nat, n: nat, id: Id)
    ensures Count(FreeBds(p, n), id) == One(id.pool == p && id.buf < n)
  {
    if n == 0 {
      assert Ids(FreeBds(p, 0)) == [];
    } else {
      CountFreeBds(p, n - 1, id);
      assert FreeBds(p, n) == FreeBds(p, n - 1) + [Bd(p, n - 1, 0)];
      CountAppend(FreeBds(p, n - 1), [Bd(p, n - 1, 0)], id);
      CountSingle(Bd(p, n - 1, 0), id);
    }
  }

  lemma FreshIsInv(v: Views, d: Dir)
    requires Fresh(v, d)
    ensures Inv(v, d)
  {
    hide Contents, Good, Count;
    forall id | ValidId(v.g, id) ensures Places(v, d, id) == 1 {
      CountFreeBds(id.pool, v.g.pools[id.pool].numBufs, id);
      CountNone(id);
    }
    forall p | 0 <= p < |d.free| ensures OwnPool(v, d, p) {
    }
  }

  lemma CountNone(id: Id)
    ensures Count([], id) == 0
  {
    assert Ids([]) == [];
  }

  lemma ApplyKeepsInv(v: Views, d: Dir, a: Action)
    requires Inv(v, d) && Disciplined(v, d, a)
    ensures Inv(v, Apply(v, d, a))
  {
    hide Inv, Within, ValidId, Acquire, Tx, Rx, Release, Fill;
    match a
    case DoAcquire(size) => AcquireBestFit(v, d, size);
    case DoFill(id, bytes) => FillKeeps(v, d, id, bytes);
    case DoTx(addr, size) =>
      var id :| id in d.held && ValidId(v.g, id) && Within(v.g, v.sBase, id, addr);
      if size > 0 {
        TxKeeps(v, d, addr, size, id);
      } else {
        TxNothing(v, d, addr);
      }
    case DoRx => RxKeeps(v, d);
    case DoRelease(addr) =>
      var id :| id in d.rheld && ValidId(v.g, id) && Within(v.g, v.rBase, id, addr);
      ReleaseKeeps(v, d, addr, id);
  }

  lemma TxNothing(v: Views, d: Dir, addr: nat)
    requires Inv(v, d)
    ensures Tx(v, d, addr, 0) == (d, Err(EINVAL))
  {
  }

  lemma {:induction false} ExecKeepsInv(v: Views, d: Dir, acts: seq<Action>)
    requires Fresh(v, d) && DisciplinedRun(v, d, acts)
    ensures Inv(v, Exec(v, d, acts))
  {
    if acts == [] {
      FreshIsInv(v, d);
    } else {
      ExecKeepsInv(v, d, acts[..|acts| - 1]);
      ApplyKeepsInv(v, Exec(v, d, acts[..|acts| - 1]), acts[|acts| - 1]);
    }
  }

  /**
   Conservation: in every state of every disciplined run each buffer of each pool is in exactly one place, so
   no buffer has two owners and none leaks.
   */
  lemma BufferConservation(v: Views, d: Dir, acts: seq<Action>, id: Id)
    requires Fresh(v, d) && DisciplinedRun(v, d, acts) && ValidId(v.g, id)
    ensures RingsOk(v, Exec(v, d, acts)) && Places(v, Exec(v, d, acts), id) == 1
  {
    ExecKeepsInv(v, d, acts);
    hide Exec;
  }

  /**
   Delivery: what the receiver's callback has been given is, in order, the addresses and sizes of a prefix of
   what ipc_shm_tx accepted, and each buffer the receiver still holds contains the bytes it was sent with.
   */
  lemma EndToEndDelivery(v: Views, d: Dir, acts: seq<Action>)
    requires Fresh(v, d) && DisciplinedRun(v, d, acts)
    ensures var e := Exec(v, d, acts);
            && |e.got| <= |e.sent| && Intact(e)
            && forall i :: 0 <= i < |e.got| ==>
                 ValidId(v.g, e.sent[i].id) && e.got[i] == Got(BufAddr(v.g, v.rBase, e.sent[i].id), e.sent[i].size)
  {
    ExecKeepsInv(v, d, acts);
    hide Exec, Contents, Partition, Good;
  }

  /** After any disciplined run, a disciplined tx or release never meets a full ring. */
  lemma NeverFull(v: Views, d: Dir, acts: seq<Action>, a: Action)
    requires Fresh(v, d) && DisciplinedRun(v, d, acts) && Disciplined(v, Exec(v, d, acts), a)
    ensures a.DoTx? && a.size > 0 ==> Tx(v, Exec(v, d, acts), a.addr, a.size).1.Ok?
    ensures a.DoRelease? ==> Release(v, Exec(v, d, acts), a.addr).1.Ok?
  {
    ExecKeepsInv(v, d, acts);
    hide Inv, Exec, Tx, Release;
    var e := Exec(v, d, acts);
    if a.DoTx? && a.size > 0 {
      var id :| id in e.held && ValidId(v.g, id) && Within(v.g, v.sBase, id, a.addr);
      TxKeeps(v, e, a.addr, a.size, id);
    } else if a.DoRelease? {
      var id :| id in e.rheld && ValidId(v.g, id) && Within(v.g, v.rBase, id, a.addr);
      ReleaseKeeps(v, e, a.addr, id);
    }
  }
}
