/**
 The loads and stores of one ring's initialisation, taken without interruption, have exactly the effect of the
 single steps the other modules use: synchronise the indexes, populate a pool, mark the ring.
 */
module SoloInit {
  import opened Types
  import opened Fifo
  import opened Handshake
  import opened ConcurrentInit

  /** k steps of `me` while the peer's memory stays as it is. */
  function Run(kinds: seq<Kind>, me: Side, peer: seq<Mem>, k: nat): (me': Side)
    requires Shaped(kinds, me) && |peer| == |kinds|
    ensures Shaped(kinds, me')
    decreases k
  {
    if k == 0 then me else Run(kinds, Step(kinds, me, peer), peer, k - 1)
  }

  function Ids(from: nat, to: nat): (ids: seq<nat>)
    requires from <= to
    ensures |ids| == to - from
  {
    seq(to - from, i => from + i)
  }

  /** The number of slots of a ring; the counters of an unmanaged area wrap at 2^32. */
  function Slots(k: Kind): (n: nat)
    ensures KindOk(k) ==> n > 0
  {
    match k
    case Channel(n) => n
    case Unmanaged => UINT32_RANGE
    case Pool(num) => num + 1
  }

  function HeadOf(m: Mem): Header { Header(m.sentinel, m.write, m.read) }

  /** What the handshake leaves in the own ring, before a pool is populated. */
  function SyncedMem(k: Kind, own: Mem, other: Mem): Mem
    requires KindOk(k)
  {
    var (head, _) := SyncIndex(HeadOf(own), HeadOf(other), if k.Pool? then PoolQueue else ChannelQueue, Slots(k));
    own.(sentinel := head.sentinel, write := head.write, read := head.read)
  }

  ghost predicate Entering(kinds: seq<Kind>, me: Side, peer: seq<Mem>) {
    && Shaped(kinds, me) && |peer| == |kinds| && me.status.Running? && me.phase.CheckBusy?
    && peer[me.pos].sentinel != InProgress && peer[me.pos].write < Slots(kinds[me.pos])
  }

  /** `me` with its ring replaced, about to do `next`. */
  function At(me: Side, m: Mem, next: Phase): Side
    requires me.pos < |me.rings|
  {
    me.(rings := me.rings[me.pos := m], phase := next)
  }

  ghost predicate Visiting(kinds: seq<Kind>, me: Side, peer: seq<Mem>) {
    Shaped(kinds, me) && |peer| == |kinds| && me.status.Running?
  }

  lemma SmallMod(x: nat)
    ensures x < UINT32_RANGE ==> x % UINT32_RANGE == x
  {
  }

  /** The peer is initialised: four loads and stores adopt its indexes. */
  lemma AdoptAlone(kinds: seq<Kind>, s: Side, peer: seq<Mem>)
    requires Visiting(kinds, s, peer) && s.phase.LoadPeerRead? && peer[s.pos].write < Slots(kinds[s.pos])
    ensures var own, other, kind := s.rings[s.pos], peer[s.pos], kinds[s.pos];
            var read := if kind.Pool? then (other.write + 1) % Slots(kind) else other.write % Slots(kind);
            Run(kinds, s, peer, 4) == At(s, own.(write := other.read, read := read), Synced(kind))
  {
    var own, other, kind := s.rings[s.pos], peer[s.pos], kinds[s.pos];
    var read := if kind.Pool? then (other.write + 1) % Slots(kind) else other.write % Slots(kind);
    SmallMod(other.write);
    var s1 := Step(kinds, s, peer);
    assert s1 == s.(phase := AdoptWrite(other.read));
    var s2 := Step(kinds, s1, peer);
    assert s2 == At(s, own.(write := other.read), LoadPeerWrite);
    var s3 := Step(kinds, s2, peer);
    assert s3 == At(s, own.(write := other.read), AdoptRead(read));
    var s4 := Step(kinds, s3, peer);
    assert s4 == At(s, own.(write := other.read, read := read), Synced(kind));
    RunFour(kinds, s, s1, s2, s3, s4, peer);
  }

  lemma RunFour(kinds: seq<Kind>, s: Side, s1: Side, s2: Side, s3: Side, s4: Side, peer: seq<Mem>)
    requires Shaped(kinds, s) && |peer| == |kinds| && s1 == Step(kinds, s, peer)
    requires s2 == Step(kinds, s1, peer) && s3 == Step(kinds, s2, peer) && s4 == Step(kinds, s3, peer)
    ensures Run(kinds, s, peer, 2) == s2 && Run(kinds, s, peer, 4) == s4
  {
    hide Step;
    assert Run(kinds, s1, peer, 1) == s2;
    assert Run(kinds, s3, peer, 1) == s4;
    assert Run(kinds, s2, peer, 2) == s4;
    assert Run(kinds, s1, peer, 3) == s4;
  }

  lemma RunThree(kinds: seq<Kind>, s: Side, s1: Side, s2: Side, s3: Side, peer: seq<Mem>, k: nat)
    requires Shaped(kinds, s) && |peer| == |kinds|
    requires s1 == Step(kinds, s, peer) && s2 == Step(kinds, s1, peer) && s3 == Step(kinds, s2, peer)
    ensures Run(kinds, s, peer, 3 + k) == Run(kinds, s3, peer, k)
  {
    hide Step;
    assert Run(kinds, s2, peer, 1 + k) == Run(kinds, s3, peer, k);
    assert Run(kinds, s1, peer, 2 + k) == Run(kinds, s2, peer, 1 + k);
  }

  /** A peer that has not begun: two stores clear the indexes. */
  lemma ZeroAlone(kinds: seq<Kind>, s: Side, peer: seq<Mem>)
    requires Visiting(kinds, s, peer) && s.phase.ZeroWrite?
    ensures Run(kinds, s, peer, 2) == At(s, s.rings[s.pos].(write := 0, read := 0), Synced(kinds[s.pos]))
  {
    var own := s.rings[s.pos];
    var s1 := Step(kinds, s, peer);
    assert s1 == At(s, own.(write := 0), ZeroRead);
    var s2 := Step(kinds, s1, peer);
    assert s2 == At(s, own.(write := 0, read := 0), Synced(kinds[s.pos]));
    assert Run(kinds, s1, peer, 1) == s2 by {
      hide Step;
    }
  }

  /** The first three steps: look, claim, look again. */
  lemma ClaimAlone(kinds: seq<Kind>, me: Side, peer: seq<Mem>, k: nat)
    requires Entering(kinds, me, peer)
    ensures var next := if peer[me.pos].sentinel == Done then LoadPeerRead else ZeroWrite;
            var s := At(me, me.rings[me.pos].(sentinel := InProgress), next);
            Visiting(kinds, s, peer) && Run(kinds, me, peer, 3 + k) == Run(kinds, s, peer, k)
  {
    var own, other := me.rings[me.pos], peer[me.pos];
    var s1 := Step(kinds, me, peer);
    assert s1 == me.(phase := MarkBusy);
    var s2 := Step(kinds, s1, peer);
    assert s2 == At(me, own.(sentinel := InProgress), CheckDone);
    var s3 := Step(kinds, s2, peer);
    assert s3 == s2.(phase := if other.sentinel == Done then LoadPeerRead else ZeroWrite);
    RunThree(kinds, me, s1, s2, s3, peer, k);
  }

  lemma SyncAlone(kinds: seq<Kind>, me: Side, peer: seq<Mem>) returns (k: nat)
    requires Entering(kinds, me, peer)
    ensures Run(kinds, me, peer, k) ==
            At(me, SyncedMem(kinds[me.pos], me.rings[me.pos], peer[me.pos]), Synced(kinds[me.pos]))
  {
    hide Step, Run;
    var own, other, kind := me.rings[me.pos], peer[me.pos], kinds[me.pos];
    if other.sentinel == Done {
      k := 7;
      ClaimAlone(kinds, me, peer, 4);
      AdoptAlone(kinds, At(me, own.(sentinel := InProgress), LoadPeerRead), peer);
    } else {
      k := 5;
      ClaimAlone(kinds, me, peer, 2);
      ZeroAlone(kinds, At(me, own.(sentinel := InProgress), ZeroWrite), peer);
    }
  }

  /** The direction a pool ring feeds, as its pusher sees it. */
  function Feeding(k: Kind, own: Mem, other: Mem): (ring: Ring<nat>)
    ensures ring.n == Slots(k) && ring.slots == own.slots
  {
    Ring(Slots(k), own.slots, own.write, other.read)
  }

  ghost predicate Populating(kinds: seq<Kind>, me: Side, peer: seq<Mem>) {
    && Visiting(kinds, me, peer) && me.phase.PushLoad?
    && me.pos < |kinds| == |me.rings|
    && kinds[me.pos].Pool? && me.phase.bufId <= kinds[me.pos].numBufs == |me.rings[me.pos].slots| - 1
  }

  lemma RunOnce(kinds: seq<Kind>, me: Side, peer: seq<Mem>)
    requires Shaped(kinds, me) && |peer| == |kinds|
    ensures Run(kinds, me, peer, 1) == Step(kinds, me, peer)
  {
    hide Step;
  }

  lemma {:induction false} RunOn(kinds: seq<Kind>, me: Side, peer: seq<Mem>, k: nat, more: nat)
    requires Shaped(kinds, me) && |peer| == |kinds|
    ensures Run(kinds, Run(kinds, me, peer, k), peer, more) == Run(kinds, me, peer, k + more)
    decreases k
  {
    hide Step, Shaped;
    if k > 0 {
      RunOn(kinds, Step(kinds, me, peer), peer, k - 1, more);
    }
  }

  /** Three steps are one push; a refused push breaks the init. */
  lemma PushAlone(kinds: seq<Kind>, me: Side, peer: seq<Mem>, k: nat)
    requires Populating(kinds, me, peer) && me.phase.bufId < kinds[me.pos].numBufs
    ensures var own, b := me.rings[me.pos], me.phase.bufId;
            var (ring, e) := Push(Feeding(kinds[me.pos], own, peer[me.pos]), b);
            if e.Err? then Step(kinds, me, peer).status.Broken?
            else
              var next := At(me, own.(slots := ring.slots, write := ring.write), PushLoad(b + 1));
              Populating(kinds, next, peer) && Run(kinds, me, peer, 3 + k) == Run(kinds, next, peer, k)
  {
    var own, b := me.rings[me.pos], me.phase.bufId;
    var (ring, e) := Push(Feeding(kinds[me.pos], own, peer[me.pos]), b);
    var s1 := Step(kinds, me, peer);
    if e.Ok? {
      assert s1 == me.(phase := PushCopy(b));
      var s2 := Step(kinds, s1, peer);
      assert s2 == At(me, own.(slots := ring.slots), PushPublish(b));
      var s3 := Step(kinds, s2, peer);
      assert s3 == At(me, own.(slots := ring.slots, write := ring.write), PushLoad(b + 1));
      RunThree(kinds, me, s1, s2, s3, peer, k);
    }
  }

  lemma PopulateEnds(kinds: seq<Kind>, me: Side, peer: seq<Mem>)
    requires Populating(kinds, me, peer) && me.phase.bufId == kinds[me.pos].numBufs
    ensures Run(kinds, me, peer, 1) == At(me, me.rings[me.pos], MarkDone)
  {
    RunOnce(kinds, me, peer);
  }

  /** What the populate loop makes of the own ring, from buffer `from` on. */
  function Populated(k: Kind, own: Mem, other: Mem, from: nat): (Mem, Result<()>)
    requires k.Pool? && from <= k.numBufs && |own.slots| == k.numBufs + 1
  {
    var (full, e) := PushAll(Feeding(k, own, other), Ids(from, k.numBufs));
    (own.(slots := full.slots, write := full.write), e)
  }

  lemma PopulatedStep(k: Kind, own: Mem, other: Mem, from: nat)
    requires k.Pool? && from <= k.numBufs && |own.slots| == k.numBufs + 1
    ensures from == k.numBufs ==> Populated(k, own, other, from) == (own, Ok(()))
    ensures var (ring, e) := Push(Feeding(k, own, other), from);
            from < k.numBufs ==>
              if e.Err? then Populated(k, own, other, from).1.Err?
              else
                && |ring.slots| == k.numBufs + 1
                && Populated(k, own, other, from) ==
                   Populated(k, own.(slots := ring.slots, write := ring.write), other, from + 1)
  {
    if from < k.numBufs {
      assert Ids(from, k.numBufs) == [from] + Ids(from + 1, k.numBufs);
      assert Ids(from, k.numBufs)[1..] == Ids(from + 1, k.numBufs);
    }
  }

  lemma {:induction false} PopulateAlone(kinds: seq<Kind>, me: Side, peer: seq<Mem>) returns (k: nat)
    requires Populating(kinds, me, peer)
    ensures |me.rings[me.pos].slots| == kinds[me.pos].numBufs + 1
    ensures var (m, e) := Populated(kinds[me.pos], me.rings[me.pos], peer[me.pos], me.phase.bufId);
            if e.Err? then Run(kinds, me, peer, k).status.Broken? else Run(kinds, me, peer, k) == At(me, m, MarkDone)
    decreases kinds[me.pos].numBufs - me.phase.bufId
  {
    hide Step, Push, Run, Populated, Feeding, Shaped;
    var b, kind, own, other := me.phase.bufId, kinds[me.pos], me.rings[me.pos], peer[me.pos];
    var (ring, e) := Push(Feeding(kind, own, other), b);
    PopulatedStep(kind, own, other, b);
    if b == kind.numBufs {
      PopulateEnds(kinds, me, peer);
      k := 1;
    } else if e.Err? {
      PushAlone(kinds, me, peer, 0);
      RunOnce(kinds, me, peer);
      k := 1;
    } else {
      PushAlone(kinds, me, peer, 0);
      var rest := PopulateAlone(kinds, At(me, own.(slots := ring.slots, write := ring.write), PushLoad(b + 1)), peer);
      PushAlone(kinds, me, peer, rest);
      k := 3 + rest;
    }
  }

  /** `me` having marked its ring and moved on. */
  function Left(kinds: seq<Kind>, me: Side, m: Mem): Side
    requires me.pos < |me.rings|
  {
    At(me, m.(sentinel := Done), CheckBusy)
      .(pos := me.pos + 1, status := if me.pos + 1 == |kinds| then Finished else me.status)
  }

  lemma MarkAlone(kinds: seq<Kind>, me: Side, peer: seq<Mem>, m: Mem)
    requires Visiting(kinds, me, peer) && Shaped(kinds, At(me, m, MarkDone))
    ensures Run(kinds, At(me, m, MarkDone), peer, 1) == Left(kinds, me, m)
  {
    RunOnce(kinds, At(me, m, MarkDone), peer);
    assert me.rings[me.pos := m][me.pos := m.(sentinel := Done)] == me.rings[me.pos := m.(sentinel := Done)];
  }

  /**
   The visit of a ring as one step: the handshake rule, then for a pool the whole populate loop on the direction it
   feeds, then the mark; a refused push fails the init.
   */
  lemma VisitAlone(kinds: seq<Kind>, me: Side, peer: seq<Mem>) returns (k: nat)
    requires Entering(kinds, me, peer)
    ensures var kind, m := kinds[me.pos], SyncedMem(kinds[me.pos], me.rings[me.pos], peer[me.pos]);
            if !kind.Pool? then Run(kinds, me, peer, k) == Left(kinds, me, m)
            else
              && |m.slots| == kind.numBufs + 1
              && var (full, e) := Populated(kind, m, peer[me.pos], 0);
              if e.Err? then Run(kinds, me, peer, k).status.Broken?
              else Run(kinds, me, peer, k) == Left(kinds, me, full)
  {
    hide Run, Step, Populated, SyncIndex;
    var kind, m := kinds[me.pos], SyncedMem(kinds[me.pos], me.rings[me.pos], peer[me.pos]);
    k := SyncAlone(kinds, me, peer);
    var s := At(me, m, Synced(kind));
    assert s == Run(kinds, me, peer, k);
    if kind.Pool? {
      var more := PopulateAlone(kinds, s, peer);
      RunOn(kinds, me, peer, k, more);
      k := k + more;
      var (full, e) := Populated(kind, m, peer[me.pos], 0);
      if e.Ok? {
        assert At(s, full, MarkDone) == At(me, full, MarkDone);
        MarkAlone(kinds, me, peer, full);
        RunOn(kinds, me, peer, k, 1);
        k := k + 1;
      }
    } else {
      MarkAlone(kinds, me, peer, m);
      RunOn(kinds, me, peer, k, 1);
      k := k + 1;
    }
  }
}
