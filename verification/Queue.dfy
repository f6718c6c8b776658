/** ipc-queue.c and the pool populate loop of ipc-shm.c, updating the rings in place. */
module Queue {
  import opened Types
  import opened Fifo
  import opened Handshake

  /** struct ipc_ring: control words and slots, written only by the side that owns it. */
  class RingMem {
    var sentinel: Sentinel
    var write: nat
    var read: nat
    const data: array<Bd>

    /** A ring in cleared shared memory. */
    constructor (n: nat)
      ensures fresh(data) && data.Length == n && Head() == CLEARED
    {
      sentinel, write, read := Clear, 0, 0;
      data := new Bd[n](_ => Bd(0, 0, 0));
    }

    ghost function Head(): Header
      reads this
    {
      Header(sentinel, write, read)
    }
  }

  /** struct ipc_queue: `pushRing` is local memory, `popRing` the peer's. */
  class Queue {
    var elemSize: nat
    var elemNum: nat
    var pushRing: RingMem?
    var popRing: RingMem?

    constructor ()
      ensures pushRing == null && popRing == null
    {
      elemSize, elemNum, pushRing, popRing := 0, 0, null, null;
    }

    ghost predicate Mapped()
      reads this
    {
      && pushRing != null && popRing != null && pushRing != popRing
      && pushRing.data != popRing.data && elemNum > 0
      && pushRing.data.Length == popRing.data.Length == elemNum
    }

    /** The direction this side pushes. */
    ghost function Outgoing(): Ring<Bd>
      requires Mapped()
      reads this, pushRing, popRing, pushRing.data
    {
      Ring(elemNum, pushRing.data[..], pushRing.write, popRing.read)
    }

    /** The direction this side pops. */
    ghost function Incoming(): Ring<Bd>
      requires Mapped()
      reads this, pushRing, popRing, popRing.data
    {
      Ring(elemNum, popRing.data[..], popRing.write, pushRing.read)
    }

    method CheckIntegrity() returns (ok: bool)
      requires pushRing != null && popRing != null
      ensures ok <==> pushRing.sentinel == Done && popRing.sentinel == Done
    {
      ok := popRing.sentinel == Done && pushRing.sentinel == Done;
    }

    /** Takes the head of the incoming direction, moving only the read index in this side's own ring. */
    method Pop() returns (r: Result<Bd>)
      requires pushRing != null && popRing != null && elemNum > 0 ==> Mapped()
      modifies if pushRing == null then {} else {pushRing}
      ensures pushRing == null || popRing == null ==> r == Err(EINVAL)
      ensures pushRing != null &&
              (popRing == null || elemNum == 0 || !(pushRing.sentinel == popRing.sentinel == Done)) ==>
                r == Err(EINVAL) && pushRing.Head() == old(pushRing.Head())
      ensures Mapped() && pushRing.sentinel == popRing.sentinel == Done ==>
                (Incoming(), r) == Fifo.Pop(old(Incoming()))
      ensures Mapped() ==> Outgoing() == old(Outgoing()) && pushRing.sentinel == old(pushRing.sentinel)
    {
      if pushRing == null || popRing == null {
        return Err(EINVAL);
      }
      var write := popRing.write;
      var read := pushRing.read;
      var ok := CheckIntegrity();
      if !ok || read >= elemNum || write >= elemNum {
        return Err(EINVAL);
      }
      if read == write {
        return Err(ENOBUFS);
      }
      r := Ok(popRing.data[read]);
      pushRing.read := (read + 1) % elemNum;
    }

    /** Appends to the outgoing direction, writing only this side's own ring. */
    method Push(bd: Bd) returns (r: Result<()>)
      requires pushRing != null && popRing != null && elemNum > 0 ==> Mapped()
      modifies if pushRing == null then {} else {pushRing, pushRing.data}
      ensures pushRing == null || popRing == null ==> r == Err(EINVAL)
      ensures pushRing != null && (popRing == null || elemNum == 0) ==>
                && r == Err(EINVAL)
                && pushRing.Head() == old(pushRing.Head()) && pushRing.data[..] == old(pushRing.data[..])
      ensures Mapped() ==> (Outgoing(), r) == Fifo.Push(old(Outgoing()), bd)
      ensures Mapped() ==> Incoming() == old(Incoming()) && pushRing.sentinel == old(pushRing.sentinel)
    {
      if pushRing == null || popRing == null {
        return Err(EINVAL);
      }
      var write := pushRing.write;
      var read := popRing.read;
      if read >= elemNum || write >= elemNum {
        return Err(EINVAL);
      }
      if (write + 1) % elemNum == read {
        return Err(ENOMEM);
      }
      pushRing.data[write] := bd;
      pushRing.write := (write + 1) % elemNum;
      assert pushRing.data[..] == old(pushRing.data[..])[write := bd];
      r := Ok(());
    }

    /** The modulo is reached only with an initialised peer. */
    method SyncIndex(kind: QueueKind) returns (r: Result<()>)
      requires pushRing != null && popRing != null && pushRing != popRing
      requires elemNum > 0 || popRing.sentinel != Done
      modifies pushRing
      ensures (pushRing.Head(), r) == Handshake.SyncIndex(old(pushRing.Head()), popRing.Head(), kind, elemNum)
    {
      if popRing.sentinel == InProgress {
        return Err(EAGAIN);
      }
      pushRing.sentinel := InProgress;
      if popRing.sentinel == Done {
        pushRing.write := popRing.read;
        if kind == ChannelQueue {
          pushRing.read := popRing.write % elemNum;
        } else {
          pushRing.read := (popRing.write + 1) % elemNum;
        }
        return Ok(());
      }
      pushRing.write := 0;
      pushRing.read := 0;
      r := Ok(());
    }

    /**
     One slot is added to the count and the sum stored in 16 bits: a count of 65535 is accepted and leaves a queue
     of 0 slots, on which every push and pop is refused. No caller in the driver passes it.
     */
    method Init(kind: QueueKind, num: nat, size: nat, push: RingMem?, pop: RingMem?) returns (r: Result<()>)
      requires num < UINT16_RANGE
      requires push != null && pop != null ==>
                 push != pop && push.data != pop.data && push.data.Length == pop.data.Length == num + 1
      requires num == IPC_UINT16_MAX && pop != null ==> pop.sentinel != Done
      modifies this, push
      ensures push == null || pop == null || num == 0 || size == 0 || size % 8 != 0 ==>
                r == Err(EINVAL) && unchanged(this) && (push != null ==> unchanged(push))
      ensures push != null && pop != null && num != 0 && size != 0 && size % 8 == 0 ==>
                && pushRing == push && popRing == pop && elemSize == size
                && elemNum == (if num == IPC_UINT16_MAX then 0 else num + 1)
                && (Mapped() <==> num < IPC_UINT16_MAX)
                && (push.Head(), r) == Handshake.SyncIndex(old(push.Head()), pop.Head(), kind, elemNum)
    {
      if push == null || pop == null || num == 0 || size == 0 || size % 8 != 0 {
        return Err(EINVAL);
      }
      elemNum := U16(num + 1);
      elemSize := size;
      pushRing := push;
      popRing := pop;
      r := SyncIndex(kind);
    }

    /** Clears the ring this side owns and forgets it; a ring that was never marked is left alone. */
    method Free()
      modifies this, pushRing
      ensures pushRing == null && popRing == old(popRing)
      ensures old(pushRing) != null ==>
                old(pushRing).Head() == if old(pushRing.sentinel) == Clear then old(pushRing.Head()) else CLEARED
      ensures old(pushRing) != null && old(pushRing.sentinel) != Clear ==> elemNum == elemSize == 0
    {
      if pushRing == null {
        return;
      }
      if pushRing.sentinel == Done || pushRing.sentinel == InProgress {
        elemNum := 0;
        elemSize := 0;
        pushRing.sentinel := Clear;
        pushRing.write := 0;
        pushRing.read := 0;
      }
      pushRing := null;
    }

    /** The populate loop of ipc_buf_pool_init: offer every free buffer of the peer, then mark the ring Done. */
    method Populate(poolId: nat, numBufs: nat) returns (r: Result<()>)
      requires Mapped()
      modifies pushRing, pushRing.data
      ensures (Outgoing(), r) == PushAll(old(Outgoing()), FreeBds(poolId, numBufs))
      ensures Incoming() == old(Incoming())
      ensures pushRing.sentinel == if r.Ok? then Done else old(pushRing.sentinel)
    {
      ghost var bds := FreeBds(poolId, numBufs);
      var bufId := 0;
      while bufId < numBufs
        invariant bufId <= numBufs
        invariant (Outgoing(), Ok(())) == PushAll(old(Outgoing()), bds[..bufId])
        invariant Incoming() == old(Incoming()) && pushRing.sentinel == old(pushRing.sentinel)
      {
        assert bds[..bufId + 1] == bds[..bufId] + [Bd(poolId, bufId, 0)];
        PushAllSnoc(old(Outgoing()), bds[..bufId], Bd(poolId, bufId, 0));
        r := Push(Bd(poolId, bufId, 0));
        if r.Err? {
          assert bds == bds[..bufId + 1] + bds[bufId + 1..];
          PushAllFails(old(Outgoing()), bds[..bufId + 1], bds[bufId + 1..]);
          return;
        }
        bufId := bufId + 1;
      }
      assert bds[..numBufs] == bds;
      pushRing.sentinel := Done;
      r := Ok(());
    }
  }
}
