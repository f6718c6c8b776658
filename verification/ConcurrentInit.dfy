/**
 Two sides initialising the same instance at the same time, interleaved at the level of single loads and
 stores of shared memory, under sequential consistency. An -EAGAIN rolls the whole attempt back, ring by
 ring, and the caller starts again.
 */
module ConcurrentInit {
  import opened Types

  /** The rings of an instance in the order both sides visit them; an unmanaged area has the same handshake. */
  datatype Kind = Channel(elemNum: nat) | Unmanaged | Pool(numBufs: nat)

  /** A ring (or unmanaged control block) in the memory of the side that writes it. */
  datatype Mem = Mem(sentinel: Sentinel, write: nat, read: nat, slots: seq<nat>)

  /** The next load or store of a side that is visiting ring `pos`. */
  datatype Phase =
    | CheckBusy
    | MarkBusy
    | CheckDone
    | LoadPeerRead
    | AdoptWrite(value: nat)
    | LoadPeerWrite
    | AdoptRead(value: nat)
    | ZeroWrite
    | ZeroRead
    | PushLoad(bufId: nat)
    | PushCopy(bufId: nat)
    | PushPublish(bufId: nat)
    | MarkDone
    | FreeMark
    | FreeWrite
    | FreeRead

  /** RollingBack remembers the ring whose visit was refused; Broken is an init that fails for good. */
  datatype Status = Running | RollingBack(failed: nat) | Finished | Broken

  datatype Side = Side(status: Status, pos: nat, phase: Phase, rings: seq<Mem>)

  datatype Who = A | B

  datatype System = System(kinds: seq<Kind>, a: Side, b: Side)

  predicate KindOk(k: Kind) {
    match k
    case Channel(n) => n >= 2
    case Unmanaged => true
    case Pool(num) => num >= 1
  }

  predicate Shaped(kinds: seq<Kind>, side: Side) {
    && |side.rings| == |kinds| && side.pos <= |kinds|
    && (side.status.Running? || side.status.RollingBack? ==> side.pos < |kinds|)
    && forall j :: 0 <= j < |kinds| ==> KindOk(kinds[j]) && SlotsOk(kinds[j], side.rings[j])
  }

  predicate SlotsOk(k: Kind, m: Mem) {
    k.Pool? ==> |m.slots| == k.numBufs + 1
  }

  /** One load or store of `me`, with the peer's memory as it is at that moment. */
  function Step(kinds: seq<Kind>, me: Side, peer: seq<Mem>): (me': Side)
    requires Shaped(kinds, me) && |peer| == |kinds|
    ensures Shaped(kinds, me')
  {
    match me.status
    case Finished => me
    case Broken => me
    case RollingBack(f) => FreeStep(kinds, me)
    case Running =>
      var own, other, kind := me.rings[me.pos], peer[me.pos], kinds[me.pos];
      match me.phase
      case CheckBusy =>
        if other.sentinel == InProgress then me.(status := RollingBack(me.pos), pos := 0, phase := FreeMark)
        else me.(phase := MarkBusy)
      case MarkBusy => Store(me, own.(sentinel := InProgress), CheckDone)
      case CheckDone => me.(phase := if other.sentinel == Done then LoadPeerRead else ZeroWrite)
      case LoadPeerRead => me.(phase := AdoptWrite(other.read))
      case AdoptWrite(v) => Store(me, own.(write := v), LoadPeerWrite)
      case LoadPeerWrite =>
        var v := match kind
          case Channel(n) => other.write % n
          case Unmanaged => other.write
          case Pool(num) => (other.write + 1) % (num + 1);
        me.(phase := AdoptRead(v))
      case AdoptRead(v) => Store(me, own.(read := v), Synced(kind))
      case ZeroWrite => Store(me, own.(write := 0), ZeroRead)
      case ZeroRead => Store(me, own.(read := 0), Synced(kind))
      case PushLoad(b) =>
        if !kind.Pool? || b >= kind.numBufs then me.(phase := MarkDone)
        else if other.read > kind.numBufs || own.write > kind.numBufs then me.(status := Broken)
        else if (own.write + 1) % (kind.numBufs + 1) == other.read then me.(status := Broken)
        else me.(phase := PushCopy(b))
      case PushCopy(b) =>
        if own.write < |own.slots| then Store(me, own.(slots := own.slots[own.write := b]), PushPublish(b))
        else me.(status := Broken)
      case PushPublish(b) =>
        var n := if kind.Pool? then kind.numBufs + 1 else 1;
        Store(me, own.(write := (own.write + 1) % n), PushLoad(b + 1))
      case MarkDone =>
        var me' := Store(me, own.(sentinel := Done), CheckBusy);
        if me.pos + 1 == |kinds| then me'.(status := Finished, pos := me.pos + 1)
        else me'.(pos := me.pos + 1)
      case _ => me.(status := Broken)
  }

  /** A pool queue is populated once its indexes are synchronised; the others are finished. */
  function Synced(kind: Kind): Phase {
    if kind.Pool? then PushLoad(0) else MarkDone
  }

  function Store(me: Side, m: Mem, next: Phase): Side
    requires me.pos < |me.rings|
  {
    me.(rings := me.rings[me.pos := m], phase := next)
  }

  /** ipc_shm_free_channel over all channels: three stores per ring that was marked, then a fresh attempt. */
  function FreeStep(kinds: seq<Kind>, me: Side): (me': Side)
    requires Shaped(kinds, me) && me.status.RollingBack?
    ensures Shaped(kinds, me')
  {
    var own := me.rings[me.pos];
    match me.phase
    case FreeMark =>
      if own.sentinel == Clear then NextFree(kinds, me)
      else Store(me, own.(sentinel := Clear), FreeWrite)
    case FreeWrite => Store(me, own.(write := 0), FreeRead)
    case FreeRead => NextFree(kinds, Store(me, own.(read := 0), FreeMark))
    case _ => me.(status := Broken)
  }

  function NextFree(kinds: seq<Kind>, me: Side): Side {
    if me.pos + 1 == |kinds| then me.(status := Running, pos := 0, phase := CheckBusy)
    else me.(pos := me.pos + 1, phase := FreeMark)
  }

  function Next(s: System, who: Who): (s': System)
    requires Shaped(s.kinds, s.a) && Shaped(s.kinds, s.b)
    ensures s'.kinds == s.kinds && Shaped(s'.kinds, s'.a) && Shaped(s'.kinds, s'.b)
  {
    if who == A then s.(a := Step(s.kinds, s.a, s.b.rings)) else s.(b := Step(s.kinds, s.b, s.a.rings))
  }

  function Exec(s: System, schedule: seq<Who>): (s': System)
    requires Shaped(s.kinds, s.a) && Shaped(s.kinds, s.b)
    ensures s'.kinds == s.kinds && Shaped(s'.kinds, s'.a) && Shaped(s'.kinds, s'.b)
  {
    if schedule == [] then s else Next(Exec(s, schedule[..|schedule| - 1]), schedule[|schedule| - 1])
  }

  /** Both sides about to start, in cleared memory. */
  predicate Cold(s: System) {
    && s.kinds != [] && Shaped(s.kinds, s.a) && Shaped(s.kinds, s.b)
    && ColdSide(s.a) && ColdSide(s.b)
  }

  predicate ColdSide(side: Side) {
    && side.status == Running && side.pos == 0 && side.phase == CheckBusy
    && forall j :: 0 <= j < |side.rings| ==> side.rings[j].(slots := []) == Mem(Clear, 0, 0, [])
  }

  // ---------- What one side knows about its own memory ----------

  function FinalWrite(k: Kind): nat {
    if k.Pool? then k.numBufs else 0
  }

  /** The first `count` slots offer the buffers in order. */
  predicate Offers(m: Mem, count: nat) {
    count <= |m.slots| && forall i :: 0 <= i < count ==> m.slots[i] == i
  }

  /** The one state an initialised ring can be in. */
  predicate Initialised(k: Kind, m: Mem) {
    && m.sentinel == Done && m.write == FinalWrite(k) && m.read == 0
    && (k.Pool? ==> Offers(m, k.numBufs))
  }

  /** Past the store of IN_PROGRESS. */
  predicate Busy(p: Phase) {
    !p.CheckBusy? && !p.MarkBusy? && !p.FreeMark? && !p.FreeWrite? && !p.FreeRead?
  }

  predicate Adopting(p: Phase) {
    p.LoadPeerRead? || p.AdoptWrite? || p.LoadPeerWrite?
  }

  predicate VisitOk(k: Kind, m: Mem, p: Phase) {
    && m.read == 0 && m.sentinel == (if Busy(p) then InProgress else Clear)
    && match p
       case AdoptWrite(v) => v == 0 && m.write == 0
       case AdoptRead(v) => v == 0 && m.write == 0
       case PushLoad(b) => k.Pool? && m.write == b <= k.numBufs && Offers(m, b)
       case PushCopy(b) => k.Pool? && m.write == b < k.numBufs && Offers(m, b)
       case PushPublish(b) => k.Pool? && m.write == b < k.numBufs && Offers(m, b + 1)
       case MarkDone => m.write == FinalWrite(k) && (k.Pool? ==> Offers(m, k.numBufs))
       case FreeMark => false
       case FreeWrite => false
       case FreeRead => false
       case _ => m.write == 0
  }

  /** No trace of an attempt. */
  predicate Zeroed(m: Mem) { m.sentinel == Clear && m.write == 0 && m.read == 0 }

  predicate RingOk(kinds: seq<Kind>, me: Side, j: nat)
    requires j < |kinds| == |me.rings|
  {
    var m := me.rings[j];
    match me.status
    case Running =>
      if j < me.pos then Initialised(kinds[j], m)
      else if j == me.pos then VisitOk(kinds[j], m, me.phase)
      else Zeroed(m)
    case RollingBack(f) =>
      && f < |kinds| && (me.phase.FreeMark? || me.phase.FreeWrite? || me.phase.FreeRead?)
      && if j == me.pos && me.phase.FreeWrite? then m.sentinel == Clear && m.read == 0
         else if j < me.pos || f <= j || (j == me.pos && me.phase.FreeRead?) then Zeroed(m)
         else Initialised(kinds[j], m)
    case Finished => Initialised(kinds[j], m)
    case Broken => false
  }

  predicate SideOk(kinds: seq<Kind>, me: Side) {
    Shaped(kinds, me) && forall j :: 0 <= j < |kinds| ==> RingOk(kinds, me, j)
  }

  // ---------- What each side knows about the other ----------

  /** `me` has claimed ring `j` or left it behind as initialised, and is not giving it up. */
  predicate Holds(me: Side, j: nat) {
    me.status.Finished? || (me.status.Running? && (me.pos > j || (me.pos == j && Busy(me.phase))))
  }

  /** A refused side was refused by a peer that holds the ring; an adopting side adopts from a ring left behind. */
  predicate CrossOk(me: Side, peer: Side) {
    && (me.status.RollingBack? ==> Holds(peer, me.status.failed))
    && (me.status.Running? && Adopting(me.phase) ==>
          peer.status.Finished? || (peer.status.Running? && peer.pos > me.pos))
  }

  predicate Inv(s: System) {
    && s.kinds != [] && SideOk(s.kinds, s.a) && SideOk(s.kinds, s.b)
    && CrossOk(s.a, s.b) && CrossOk(s.b, s.a)
  }

  /** Modulo facts the adopted and advanced indexes rely on. */
  lemma IndexFacts(n: nat, i: nat)
    requires 0 < n && i < n
    ensures i % n == i && n % n == 0 && (i + 1 < n ==> (i + 1) % n == i + 1)
  {
    assert i / n == 0;
    assert i + 1 < n ==> (i + 1) / n == 0;
  }

  /** Inside a visit nothing but the visited ring changes, and adopted values are the ones of a first init. */
  lemma VisitKeeps(kinds: seq<Kind>, me: Side, peer: Side)
    requires SideOk(kinds, me) && SideOk(kinds, peer) && CrossOk(me, peer)
    requires me.status.Running? && Busy(me.phase) && !me.phase.MarkDone?
    ensures var me' := Step(kinds, me, peer.rings);
            && me'.status.Running? && me'.pos == me.pos && Busy(me'.phase)
            && me'.rings == me.rings[me.pos := me'.rings[me.pos]]
            && VisitOk(kinds[me.pos], me'.rings[me.pos], me'.phase)
  {
    var k, p := kinds[me.pos], me.pos;
    assert RingOk(kinds, me, p) && RingOk(kinds, peer, p);
    if k.Pool? {
      if me.phase.PushLoad? || me.phase.PushCopy? || me.phase.PushPublish? {
        IndexFacts(k.numBufs + 1, me.phase.bufId);
      } else {
        IndexFacts(k.numBufs + 1, 0);
      }
    } else if k.Channel? {
      IndexFacts(k.elemNum, 0);
    }
  }

  lemma VisitKeepsSide(kinds: seq<Kind>, me: Side, peer: Side)
    requires SideOk(kinds, me) && SideOk(kinds, peer) && CrossOk(me, peer) && CrossOk(peer, me)
    requires me.status.Running? && Busy(me.phase) && !me.phase.MarkDone?
    ensures SideOk(kinds, Step(kinds, me, peer.rings))
    ensures CrossOk(Step(kinds, me, peer.rings), peer) && CrossOk(peer, Step(kinds, me, peer.rings))
  {
    var me' := Step(kinds, me, peer.rings);
    VisitKeeps(kinds, me, peer);
    assert RingOk(kinds, me, me.pos) && RingOk(kinds, peer, me.pos);
    assert Adopting(me'.phase) ==> Adopting(me.phase) || (me.phase.CheckDone? && peer.rings[me.pos].sentinel == Done);
    hide Step, VisitOk;
    forall j | 0 <= j < |kinds| ensures RingOk(kinds, me', j) {
      assert RingOk(kinds, me, j);
    }
  }

  lemma EntryKeepsSide(kinds: seq<Kind>, me: Side, peer: Side)
    requires SideOk(kinds, me) && SideOk(kinds, peer) && CrossOk(me, peer) && CrossOk(peer, me)
    requires me.status.Running? && !Busy(me.phase)
    ensures SideOk(kinds, Step(kinds, me, peer.rings))
    ensures CrossOk(Step(kinds, me, peer.rings), peer) && CrossOk(peer, Step(kinds, me, peer.rings))
  {
    var me' := Step(kinds, me, peer.rings);
    assert RingOk(kinds, me, me.pos) && RingOk(kinds, peer, me.pos);
    forall j | 0 <= j < |kinds| ensures RingOk(kinds, me', j) {
      assert RingOk(kinds, me, j);
    }
  }

  lemma ExitKeepsSide(kinds: seq<Kind>, me: Side, peer: Side)
    requires SideOk(kinds, me) && SideOk(kinds, peer) && CrossOk(me, peer) && CrossOk(peer, me)
    requires me.status.Running? && me.phase.MarkDone?
    ensures SideOk(kinds, Step(kinds, me, peer.rings))
    ensures CrossOk(Step(kinds, me, peer.rings), peer) && CrossOk(peer, Step(kinds, me, peer.rings))
  {
    var me' := Step(kinds, me, peer.rings);
    assert RingOk(kinds, me, me.pos) && RingOk(kinds, peer, me.pos);
    forall j | 0 <= j < |kinds| ensures RingOk(kinds, me', j) {
      assert RingOk(kinds, me, j);
    }
  }

  lemma FreeKeepsSide(kinds: seq<Kind>, me: Side, peer: Side)
    requires SideOk(kinds, me) && SideOk(kinds, peer) && CrossOk(me, peer) && CrossOk(peer, me)
    requires me.status.RollingBack?
    ensures SideOk(kinds, Step(kinds, me, peer.rings))
    ensures CrossOk(Step(kinds, me, peer.rings), peer) && CrossOk(peer, Step(kinds, me, peer.rings))
  {
    var me' := Step(kinds, me, peer.rings);
    assert RingOk(kinds, me, me.pos);
    forall j | 0 <= j < |kinds| ensures RingOk(kinds, me', j) {
      assert RingOk(kinds, me, j);
    }
  }

  /** A step of one side keeps its own picture and both cross facts. */
  lemma StepKeeps(kinds: seq<Kind>, me: Side, peer: Side)
    requires kinds != [] && SideOk(kinds, me) && SideOk(kinds, peer)
    requires CrossOk(me, peer) && CrossOk(peer, me)
    ensures SideOk(kinds, Step(kinds, me, peer.rings))
    ensures CrossOk(Step(kinds, me, peer.rings), peer) && CrossOk(peer, Step(kinds, me, peer.rings))
  {
    assert RingOk(kinds, me, 0);
    match me.status
    case Finished =>
    case RollingBack(f) => FreeKeepsSide(kinds, me, peer);
    case Running =>
      if !Busy(me.phase) {
        EntryKeepsSide(kinds, me, peer);
      } else if me.phase.MarkDone? {
        ExitKeepsSide(kinds, me, peer);
      } else {
        VisitKeepsSide(kinds, me, peer);
      }
  }

  lemma {:induction false} ExecKeepsInv(s: System, schedule: seq<Who>)
    requires Cold(s)
    ensures Inv(Exec(s, schedule))
  {
    if schedule == [] {
      forall j | 0 <= j < |s.kinds| ensures RingOk(s.kinds, s.a, j) && RingOk(s.kinds, s.b, j) {
        assert s.a.rings[j].(slots := []) == s.b.rings[j].(slots := []) == Mem(Clear, 0, 0, []);
      }
    } else {
      var before := Exec(s, schedule[..|schedule| - 1]);
      ExecKeepsInv(s, schedule[..|schedule| - 1]);
      hide Step, SideOk, CrossOk;
      StepKeeps(s.kinds, before.a, before.b);
      StepKeeps(s.kinds, before.b, before.a);
    }
  }

  predicate ClearMeansZero(me: Side, j: nat)
    requires j < |me.rings|
  {
    me.rings[j].sentinel == Clear && !(me.pos == j && me.phase.FreeWrite?) ==> Zeroed(me.rings[j])
  }

  /**
   Whatever the interleaving and however many attempts were rolled back: no init ever fails for good, the
   two sides are never rolled back at the same time, and once both have finished every ring of both sides
   is in the one state a first init can leave: indexes 0 for a channel or unmanaged area; write numBufs,
   read 0 and buffers 0..numBufs - 1 in order for a pool. Apart from the ring whose indexes a roll-back is just
   clearing, a ring with a clear sentinel has zero indexes.
   */
  lemma ConcurrentInitConverges(s: System, schedule: seq<Who>)
    requires Cold(s)
    ensures var e := Exec(s, schedule);
            && !e.a.status.Broken? && !e.b.status.Broken?
            && !(e.a.status.RollingBack? && e.b.status.RollingBack?)
            && (e.a.status.Finished? && e.b.status.Finished? ==>
                  forall j :: 0 <= j < |e.kinds| ==>
                    Initialised(e.kinds[j], e.a.rings[j]) && Initialised(e.kinds[j], e.b.rings[j]))
            && forall j :: 0 <= j < |e.kinds| ==> ClearMeansZero(e.a, j) && ClearMeansZero(e.b, j)
  {
    var e := Exec(s, schedule);
    ExecKeepsInv(s, schedule);
    SideFacts(e.kinds, e.a);
    SideFacts(e.kinds, e.b);
    hide Initialised, ClearMeansZero, SideOk, Exec;
  }

  lemma SideFacts(kinds: seq<Kind>, me: Side)
    requires kinds != [] && SideOk(kinds, me)
    ensures !me.status.Broken?
    ensures me.status.Finished? ==> forall j :: 0 <= j < |kinds| ==> Initialised(kinds[j], me.rings[j])
    ensures forall j :: 0 <= j < |kinds| ==> ClearMeansZero(me, j)
  {
    assert RingOk(kinds, me, 0);
    forall j | 0 <= j < |kinds|
      ensures me.status.Finished? ==> Initialised(kinds[j], me.rings[j])
      ensures ClearMeansZero(me, j)
    {
      assert RingOk(kinds, me, j);
    }
  }

  // ---------- A retry against a finished peer completes ----------

  function PhaseRank(k: Kind, p: Phase): int {
    var num := FinalWrite(k);
    match p
    case CheckBusy => 3 * num + 10
    case MarkBusy => 3 * num + 9
    case CheckDone => 3 * num + 8
    case LoadPeerRead => 3 * num + 7
    case AdoptWrite(_) => 3 * num + 6
    case LoadPeerWrite => 3 * num + 5
    case AdoptRead(_) => 3 * num + 4
    case ZeroWrite => 3 * num + 5
    case ZeroRead => 3 * num + 4
    case PushLoad(b) => 3 * (num - b) + 2
    case PushCopy(b) => 3 * (num - b) + 1
    case PushPublish(b) => 3 * (num - b)
    case MarkDone => 1
    case FreeMark => 3
    case FreeWrite => 2
    case FreeRead => 1
  }

  /** Steps needed to visit the rings from `j` on. */
  function Rest(kinds: seq<Kind>, j: nat): nat
    decreases |kinds| - j
  {
    if j >= |kinds| then 0 else 3 * FinalWrite(kinds[j]) + 10 + Rest(kinds, j + 1)
  }

  /** An upper bound on the loads and stores left to a side whose peer no longer refuses it. */
  function Rank(kinds: seq<Kind>, me: Side): int
    requires Shaped(kinds, me)
  {
    match me.status
    case Running => Rest(kinds, me.pos + 1) + PhaseRank(kinds[me.pos], me.phase)
    case RollingBack(_) => Rest(kinds, 0) + 3 * (|kinds| - me.pos) + PhaseRank(Unmanaged, me.phase)
    case Finished => 0
    case Broken => 0
  }

  lemma VisitRankFalls(kinds: seq<Kind>, me: Side, peer: Side)
    requires SideOk(kinds, me) && SideOk(kinds, peer) && CrossOk(me, peer)
    requires me.status.Running? && Busy(me.phase) && !me.phase.MarkDone?
    ensures 0 < Rank(kinds, me) && Rank(kinds, Step(kinds, me, peer.rings)) < Rank(kinds, me)
  {
    assert RingOk(kinds, me, me.pos);
    VisitKeeps(kinds, me, peer);
    hide Rest, Offers;
  }

  /** The next step of `me` finds the ring it wants claimed by its peer. */
  predicate Refused(me: Side, peer: Side) {
    me.status.Running? && me.phase.CheckBusy? && me.pos < |peer.rings| && peer.rings[me.pos].sentinel == InProgress
  }

  lemma EntryRankFalls(kinds: seq<Kind>, me: Side, peer: Side)
    requires kinds != [] && SideOk(kinds, me) && SideOk(kinds, peer)
    requires me.status.Running? && !(Busy(me.phase) && !me.phase.MarkDone?) && !Refused(me, peer)
    ensures 0 < Rank(kinds, me) && Rank(kinds, Step(kinds, me, peer.rings)) < Rank(kinds, me)
  {
    assert RingOk(kinds, me, me.pos);
  }

  lemma FreeRankFalls(kinds: seq<Kind>, me: Side, peer: Side)
    requires kinds != [] && SideOk(kinds, me) && SideOk(kinds, peer) && me.status.RollingBack?
    ensures 0 < Rank(kinds, me) && Rank(kinds, Step(kinds, me, peer.rings)) < Rank(kinds, me)
  {
    assert RingOk(kinds, me, me.pos);
  }

  /** Unless it is refused, every step of a side brings it closer to finishing, also while it rolls back. */
  lemma RankFalls(kinds: seq<Kind>, me: Side, peer: Side)
    requires kinds != [] && SideOk(kinds, me) && SideOk(kinds, peer) && CrossOk(me, peer)
    requires !me.status.Finished? && !Refused(me, peer)
    ensures 0 < Rank(kinds, me) && Rank(kinds, Step(kinds, me, peer.rings)) < Rank(kinds, me)
  {
    assert RingOk(kinds, me, 0);
    hide SideOk, Step, Rank, CrossOk;
    match me.status
    case RollingBack(_) => FreeRankFalls(kinds, me, peer);
    case Running =>
      if Busy(me.phase) && !me.phase.MarkDone? {
        VisitRankFalls(kinds, me, peer);
      } else {
        EntryRankFalls(kinds, me, peer);
      }
  }

  lemma FinishedNeverRefuses(kinds: seq<Kind>, me: Side, peer: Side)
    requires SideOk(kinds, me) && SideOk(kinds, peer) && peer.status.Finished?
    ensures !Refused(me, peer)
  {
    if me.status.Running? {
      assert RingOk(kinds, peer, me.pos);
    }
  }

  /** Side `who` runs alone for `k` steps. */
  function Alone(s: System, who: Who, k: nat): (s': System)
    requires Shaped(s.kinds, s.a) && Shaped(s.kinds, s.b)
    ensures s'.kinds == s.kinds && Shaped(s'.kinds, s'.a) && Shaped(s'.kinds, s'.b)
    decreases k
  {
    if k == 0 then s else Alone(Next(s, who), who, k - 1)
  }

  /** Once one side has finished, the other finishes too within Rank of its own steps, whatever it was doing. */
  lemma {:induction false} RetryCompletes(s: System, who: Who, k: nat)
    requires Inv(s)
    requires if who == A then s.b.status.Finished? else s.a.status.Finished?
    requires k >= Rank(s.kinds, if who == A then s.a else s.b)
    ensures Alone(s, who, k).a.status.Finished? && Alone(s, who, k).b.status.Finished?
    decreases k
  {
    var me, peer := if who == A then s.a else s.b, if who == A then s.b else s.a;
    FinishedNeverRefuses(s.kinds, me, peer);
    if k > 0 {
      StepKeeps(s.kinds, me, peer);
      if !me.status.Finished? {
        RankFalls(s.kinds, me, peer);
      }
      hide Step, SideOk, CrossOk, Rank;
      RetryCompletes(Next(s, who), who, k - 1);
    } else if !me.status.Finished? {
      RankFalls(s.kinds, me, peer);
    }
  }

  /** The same after any interleaving from cleared memory: one side finishing is enough for the other to finish. */
  lemma EveryRetryCompletes(s: System, schedule: seq<Who>, who: Who)
    requires Cold(s)
    requires var e := Exec(s, schedule); if who == A then e.b.status.Finished? else e.a.status.Finished?
    ensures exists k :: AllFinished(Alone(Exec(s, schedule), who, k))
  {
    var e := Exec(s, schedule);
    ExecKeepsInv(s, schedule);
    hide Exec, Step, SideOk, CrossOk, Rank;
    var rank := Rank(e.kinds, if who == A then e.a else e.b);
    var k := if rank < 0 then 0 else rank;
    RetryCompletes(e, who, k);
    assert AllFinished(Alone(e, who, k));
  }

  predicate AllFinished(s: System) { s.a.status.Finished? && s.b.status.Finished? }
}
