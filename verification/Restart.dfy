/**
 Free and re-init of either side of one queue while the other side keeps its state. Each API call,
 ipc_shm_init_instance and ipc_shm_free_instance is one atomic action here.
 */
module Restart {
  import opened Types
  import opened Fifo
  import opened Handshake

  datatype Side = Side(head: Header, data: seq<Bd>)

  datatype Who = A | B

  /** `n` is elem_num, one more than the number of elements the queue was configured for. */
  datatype System = System(kind: QueueKind, poolId: nat, n: nat, a: Side, b: Side)

  datatype Action =
    | Init(who: Who)
    | Free(who: Who)
    | Push(who: Who, bd: Bd)
    | Pop(who: Who)

  function Me(s: System, who: Who): Side { if who == A then s.a else s.b }
  function Peer(s: System, who: Who): Side { if who == A then s.b else s.a }
  function WithMe(s: System, who: Who, me: Side): System {
    if who == A then s.(a := me) else s.(b := me)
  }

  /** The direction from `who` to its peer, and the opposite one. */
  function Out(s: System, who: Who): Ring<Bd> {
    Ring(s.n, Me(s, who).data, Me(s, who).head.write, Peer(s, who).head.read)
  }
  function In(s: System, who: Who): Ring<Bd> {
    Ring(s.n, Peer(s, who).data, Peer(s, who).head.write, Me(s, who).head.read)
  }

  /** ipc_queue_init followed by the caller's part: mark Done, or populate a pool and mark Done. */
  function InitQueue(s: System, who: Who): (res: (System, Result<()>))
    requires Shaped(s)
  {
    var me := Me(s, who);
    var (head, e) := SyncIndex(me.head, Peer(s, who).head, s.kind, s.n);
    if e.Err? then (s, e)
    else if s.kind == ChannelQueue then
      (WithMe(s, who, me.(head := head.(sentinel := Done))), Ok(()))
    else
      var start := Ring(s.n, me.data, head.write, Peer(s, who).head.read);
      var (full, e') := PushAll(start, FreeBds(s.poolId, s.n - 1));
      var head' := head.(write := full.write, sentinel := if e'.Ok? then Done else InProgress);
      (WithMe(s, who, Side(head', full.slots)), e')
  }

  predicate Shaped(s: System) {
    s.n >= 2 && |s.a.data| == |s.b.data| == s.n
  }

  /** One action; an action the driver refuses leaves the system as it is. */
  function Apply(s: System, act: Action): (s': System)
    requires Shaped(s)
    ensures Shaped(s') && s'.n == s.n && s'.kind == s.kind && s'.poolId == s.poolId
  {
    var me := Me(s, act.who);
    match act
    case Init(who) => if me.head.sentinel == Clear then InitQueue(s, who).0 else s
    case Free(who) => if me.head.sentinel == Done then WithMe(s, who, me.(head := CLEARED)) else s
    case Push(who, bd) =>
      if !(s.a.head.sentinel == s.b.head.sentinel == Done) then s
      else
        var ring := Fifo.Push(Out(s, who), bd).0;
        WithMe(s, who, Side(me.head.(write := ring.write), ring.slots))
    case Pop(who) =>
      if !(s.a.head.sentinel == s.b.head.sentinel == Done) then s
      else WithMe(s, who, me.(head := me.head.(read := Fifo.Pop(In(s, who)).0.read)))
  }

  function Exec(s: System, acts: seq<Action>): (s': System)
    requires Shaped(s)
    ensures Shaped(s')
  {
    if acts == [] then s else Apply(Exec(s, acts[..|acts| - 1]), acts[|acts| - 1])
  }

  /** Cleared shared memory, whatever the slots hold. */
  predicate Cold(s: System) {
    Shaped(s) && s.a.head == s.b.head == CLEARED
  }

  ghost predicate SideOk(n: nat, side: Side) {
    && (side.head.sentinel == Done || side.head == CLEARED)
    && side.head.write < n && side.head.read < n
  }

  ghost predicate Inv(s: System) {
    Shaped(s) && SideOk(s.n, s.a) && SideOk(s.n, s.b)
  }

  /** What a side that has just finished init finds in the two directions. */
  ghost predicate FreshlySynced(s: System, who: Who)
    requires Inv(s)
  {
    if s.kind == ChannelQueue then Contents(Out(s, who)) == [] && Contents(In(s, who)) == []
    else Contents(Out(s, who)) == FreeBds(s.poolId, s.n - 1) && |Contents(In(s, who))| == s.n - 1
  }

  /** The populate loop starts from an empty outgoing direction, so it never meets a full ring. */
  lemma PopulateSucceeds(s: System, who: Who)
    requires Inv(s) && Me(s, who).head.sentinel == Clear && s.kind == PoolQueue
    ensures var (head, e) := SyncIndex(Me(s, who).head, Peer(s, who).head, s.kind, s.n);
            && e.Ok? && head.write == Peer(s, who).head.read
            && var start := Ring(s.n, Me(s, who).data, head.write, head.write);
            var (full, e') := PushAll(start, FreeBds(s.poolId, s.n - 1));
            && e' == Ok(()) && Valid(full) && full.read == head.write
            && Contents(full) == FreeBds(s.poolId, s.n - 1)
  {
    var start := Ring(s.n, Me(s, who).data, Peer(s, who).head.read, Peer(s, who).head.read);
    assert Contents(start) == [];
    hide Contents;
    PushAllAppends(start, FreeBds(s.poolId, s.n - 1));
    assert [] + FreeBds(s.poolId, s.n - 1) == FreeBds(s.poolId, s.n - 1);
  }

  /** Init always succeeds, never touches the peer, and synchronises both directions with a live peer. */
  lemma InitSynchronises(s: System, who: Who)
    requires Inv(s) && Me(s, who).head.sentinel == Clear
    ensures InitQueue(s, who).1 == Ok(())
    ensures Inv(InitQueue(s, who).0)
    ensures Me(InitQueue(s, who).0, who).head.sentinel == Done
    ensures Peer(InitQueue(s, who).0, who) == Peer(s, who)
    ensures Peer(s, who).head.sentinel == Done ==> FreshlySynced(InitQueue(s, who).0, who)
    ensures Peer(s, who).head.sentinel == Clear ==>
              && Contents(In(InitQueue(s, who).0, who)) == []
              && Contents(Out(InitQueue(s, who).0, who)) ==
                 if s.kind == ChannelQueue then [] else FreeBds(s.poolId, s.n - 1)
  {
    hide PushAll, FreeBds, Contents, SyncIndex;
    var s' := InitQueue(s, who).0;
    SyncIndexValues(Me(s, who).head, Peer(s, who).head, s.kind, s.n);
    if s.kind == PoolQueue {
      PopulateSucceeds(s, who);
    } else {
      EmptyWhenEqual(Out(s', who));
    }
    EmptyWhenEqual(In(s', who));
  }

  /** The indexes adopted from a live or a cleared peer, without the modulo. */
  lemma SyncIndexValues(own: Header, peer: Header, kind: QueueKind, n: nat)
    requires peer.write < n && (peer.sentinel == Done || peer == CLEARED)
    ensures var (head, e) := SyncIndex(own, peer, kind, n);
            && e == Ok(()) && head.sentinel == InProgress && head.write == peer.read
            && head.read == if kind == ChannelQueue || peer == CLEARED then peer.write else Next(peer.write, n)
  {
    NextWraps(peer.write, n);
    assert peer.write % n == peer.write by { assert peer.write / n == 0; }
  }

  lemma EmptyWhenEqual(r: Ring<Bd>)
    requires Valid(r)
    ensures r.read == r.write ==> Contents(r) == []
  {
  }

  predicate BothReady(s: System) { s.a.head.sentinel == s.b.head.sentinel == Done }

  /** What an action does to what is queued in the two directions and to the marks of the two sides. */
  ghost predicate Does(s: System, act: Action, s': System)
    requires Inv(s) && Inv(s')
  {
    var who := act.who;
    var out, inc := Contents(Out(s, who)), Contents(In(s, who));
    var out', inc' := Contents(Out(s', who)), Contents(In(s', who));
    && Peer(s', who) == Peer(s, who)
    && match act
       case Init(_) =>
         if Me(s, who).head.sentinel != Clear then s' == s
         else
           && Me(s', who).head.sentinel == Done
           && (Peer(s, who).head.sentinel == Done ==> FreshlySynced(s', who))
           && (Peer(s, who).head.sentinel == Clear ==>
                 && out' == (if s.kind == ChannelQueue then [] else FreeBds(s.poolId, s.n - 1)) && inc' == [])
       case Free(_) =>
         if Me(s, who).head.sentinel == Done then Me(s', who) == Me(s, who).(head := CLEARED) else s' == s
       case Push(_, bd) =>
         && Me(s', who).head.sentinel == Me(s, who).head.sentinel && inc' == inc
         && out' == if BothReady(s) && |out| < s.n - 1 then out + [bd] else out
       case Pop(_) =>
         && Me(s', who).head.sentinel == Me(s, who).head.sentinel && out' == out
         && inc' == if BothReady(s) && inc != [] then inc[1..] else inc
  }

  lemma InitDoes(s: System, who: Who)
    requires Inv(s)
    ensures Inv(Apply(s, Init(who))) && Does(s, Init(who), Apply(s, Init(who)))
  {
    hide Contents, FreeBds, InitQueue;
    if Me(s, who).head.sentinel == Clear {
      InitSynchronises(s, who);
    }
  }

  lemma PushPopDo(s: System, act: Action)
    requires Inv(s) && (act.Push? || act.Pop?)
    ensures Inv(Apply(s, act)) && Does(s, act, Apply(s, act))
  {
    hide Contents, FreeBds, InitQueue;
    if act.Push? {
      PushAppends(Out(s, act.who), act.bd);
    } else {
      PopTakesHead(In(s, act.who));
    }
  }

  /** Every action keeps indexes in range and freed memory zeroed, and does what the calls promise. */
  lemma ApplyKeepsInv(s: System, act: Action)
    requires Inv(s)
    ensures Inv(Apply(s, act)) && Does(s, act, Apply(s, act))
  {
    hide Contents, FreeBds, InitQueue;
    match act
    case Init(who) => InitDoes(s, who);
    case Free(who) =>
    case _ => PushPopDo(s, act);
  }

  lemma {:induction false} ExecKeepsInv(s: System, acts: seq<Action>)
    requires Cold(s)
    ensures Inv(Exec(s, acts))
  {
    if acts != [] {
      ExecKeepsInv(s, acts[..|acts| - 1]);
      ApplyKeepsInv(Exec(s, acts[..|acts| - 1]), acts[|acts| - 1]);
    }
  }

  /**
   Whatever free, init, push and pop actions either side has taken since the memory was cleared, the next
   init of a freed side succeeds, its populate loop never meets a full ring, and against a live peer it
   leaves a channel queue empty and a pool queue full in both directions.
   */
  lemma RestartAlwaysResynchronises(s: System, acts: seq<Action>, who: Who)
    requires Cold(s) && Me(Exec(s, acts), who).head.sentinel == Clear
    ensures InitQueue(Exec(s, acts), who).1 == Ok(())
    ensures Inv(InitQueue(Exec(s, acts), who).0)
    ensures Peer(Exec(s, acts), who).head.sentinel == Done ==> FreshlySynced(InitQueue(Exec(s, acts), who).0, who)
  {
    ExecKeepsInv(s, acts);
    InitSynchronises(Exec(s, acts), who);
  }

  /** The first init of both sides offers every buffer of a pool, in order, in both directions. */
  lemma FirstInitIsFresh(s: System)
    requires Cold(s)
    ensures var s1 := InitQueue(s, A).0;
            && Inv(s1) && var s2 := InitQueue(s1, B).0;
            && Inv(s2) && s2.a.head.sentinel == s2.b.head.sentinel == Done
            && (s.kind == ChannelQueue ==> Contents(Out(s2, A)) == Contents(Out(s2, B)) == [])
            && (s.kind == PoolQueue ==>
                  Contents(Out(s2, A)) == Contents(Out(s2, B)) == FreeBds(s.poolId, s.n - 1))
  {
    InitSynchronises(s, A);
    var s1 := InitQueue(s, A).0;
    InitSynchronises(s1, B);
    if s.kind == PoolQueue {
      ColdPopulates(s);
    }
  }

  lemma ColdPopulates(s: System)
    requires Cold(s) && s.kind == PoolQueue
    ensures var a := InitQueue(s, A).0.a;
            && a.head == Header(Done, s.n - 1, 0) && |a.data| == s.n
            && Contents(Ring(s.n, a.data, s.n - 1, 0)) == FreeBds(s.poolId, s.n - 1)
  {
    var start := Ring(s.n, s.a.data, 0, 0);
    assert Contents(start) == [];
    PushAllAppends(start, FreeBds(s.poolId, s.n - 1));
    assert [] + FreeBds(s.poolId, s.n - 1) == FreeBds(s.poolId, s.n - 1);
  }
}
