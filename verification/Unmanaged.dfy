/** Unmanaged channel signalling by Tx counters, with restarts; each call is one atomic action. */
module Unmanaged {
  import opened Types

  /** struct ipc_channel_umem of one side: its own Tx counter and its copy of the remote one. */
  datatype Umem = Umem(sentinel: Sentinel, tx: nat, remoteTx: nat)

  const CLEARED_UMEM: Umem := Umem(Clear, 0, 0)

  datatype Who = A | B

  datatype System = System(a: Umem, b: Umem)

  datatype Action = Init(who: Who) | Free(who: Who) | Tx(who: Who) | Rx(who: Who)

  function Other(who: Who): Who { if who == A then B else A }
  function Me(s: System, who: Who): Umem { if who == A then s.a else s.b }
  function Peer(s: System, who: Who): Umem { Me(s, Other(who)) }
  function WithMe(s: System, who: Who, m: Umem): System { if who == A then s.(a := m) else s.(b := m) }

  predicate BothReady(s: System) { s.a.sentinel == s.b.sentinel == Done }

  /** unmanaged_channel_init as one action; a busy peer refuses it. */
  function InitChannel(me: Umem, peer: Umem): (r: Result<Umem>) {
    if peer.sentinel == InProgress then Err(EAGAIN)
    else if peer.sentinel == Done then Ok(Umem(Done, peer.remoteTx, peer.tx))
    else Ok(Umem(Done, 0, 0))
  }

  /** The unmanaged part of ipc_channel_rx: does the callback run? */
  predicate Fires(s: System, who: Who) {
    BothReady(s) && Peer(s, who).tx != Me(s, who).remoteTx
  }

  function Apply(s: System, act: Action): System {
    var who, me, peer := act.who, Me(s, act.who), Peer(s, act.who);
    match act
    case Init(_) =>
      if me.sentinel != Clear || InitChannel(me, peer).Err? then s
      else WithMe(s, who, InitChannel(me, peer).value)
    case Free(_) => if me.sentinel == Done then WithMe(s, who, CLEARED_UMEM) else s
    case Tx(_) => if !BothReady(s) then s else WithMe(s, who, me.(tx := U32(me.tx + 1)))
    case Rx(_) => if !Fires(s, who) then s else WithMe(s, who, me.(remoteTx := peer.tx))
  }

  function Exec(s: System, acts: seq<Action>): System {
    if acts == [] then s else Apply(Exec(s, acts[..|acts| - 1]), acts[|acts| - 1])
  }

  const COLD: System := System(CLEARED_UMEM, CLEARED_UMEM)

  // ---------- What a run is, read off the list of its actions ----------

  /** The last init or free of `who` was an init. */
  predicate Live(acts: seq<Action>, who: Who) {
    acts != [] &&
      var rest, last := acts[..|acts| - 1], acts[|acts| - 1];
      if last == Init(who) then true else if last == Free(who) then false else Live(rest, who)
  }

  predicate BothLive(acts: seq<Action>) { Live(acts, A) && Live(acts, B) }

  /** The sends of the peer of `who` since `who` last received, or since the later of the last two restarts. */
  function Unreceived(acts: seq<Action>, who: Who): nat {
    if acts == [] then 0
    else
      var rest, last := acts[..|acts| - 1], acts[|acts| - 1];
      if last.Init? && !Live(rest, last.who) then 0
      else if !BothLive(rest) then Unreceived(rest, who)
      else if last == Rx(who) then 0
      else Unreceived(rest, who) + if last == Tx(Other(who)) then 1 else 0
  }

  // ---------- The invariant ----------

  predicate SideOk(m: Umem, live: bool) {
    if live then m.sentinel == Done && m.tx < UINT32_RANGE && m.remoteTx < UINT32_RANGE else m == CLEARED_UMEM
  }

  /** The counters of two ready sides differ by the unreceived sends. */
  predicate Inv(s: System, acts: seq<Action>) {
    && SideOk(s.a, Live(acts, A)) && SideOk(s.b, Live(acts, B))
    && (BothLive(acts) ==>
          && s.a.tx == U32(s.b.remoteTx + Unreceived(acts, B))
          && s.b.tx == U32(s.a.remoteTx + Unreceived(acts, A)))
  }

  lemma Wrap(x: nat, k: nat)
    requires x < UINT32_RANGE
    ensures U32(x + k) < UINT32_RANGE && U32(U32(x + k) + 1) == U32(x + (k + 1)) < UINT32_RANGE
    ensures U32(x + 0) == x && (U32(x + k) == x <==> k % UINT32_RANGE == 0)
  {
  }

  /** What one more action adds to the reading of a run. */
  lemma OneMore(acts: seq<Action>, act: Action, who: Who)
    ensures Live(acts + [act], who) <==> act == Init(who) || (act != Free(who) && Live(acts, who))
    ensures Unreceived(acts + [act], who) ==
            if (act.Init? && !Live(acts, act.who)) || (act == Rx(who) && BothLive(acts)) then 0
            else Unreceived(acts, who) + if act == Tx(Other(who)) && BothLive(acts) then 1 else 0
  {
    assert (acts + [act])[..|acts|] == acts;
  }

  lemma ApplyKeepsInv(s: System, acts: seq<Action>, act: Action)
    requires Inv(s, acts)
    ensures Inv(Apply(s, act), acts + [act])
  {
    hide U32, Live, Unreceived;
    OneMore(acts, act, A);
    OneMore(acts, act, B);
    if BothLive(acts) {
      Wrap(s.b.remoteTx, Unreceived(acts, B));
      Wrap(s.a.remoteTx, Unreceived(acts, A));
    }
    var s' := Apply(s, act);
    if BothLive(acts + [act]) {
      Wrap(s'.b.remoteTx, 0);
      Wrap(s'.a.remoteTx, 0);
    }
  }

  lemma {:induction false} ExecKeepsInv(acts: seq<Action>)
    ensures Inv(Exec(COLD, acts), acts)
  {
    if acts != [] {
      var rest, last := acts[..|acts| - 1], acts[|acts| - 1];
      ExecKeepsInv(rest);
      ApplyKeepsInv(Exec(COLD, rest), rest, last);
      assert rest + [last] == acts;
    }
  }

  /**
   After any run of sends, receives, frees and inits from cleared memory: both sides are ready exactly when the last
   init or free of each was an init, and the next receive then runs the callback if and only if the number of sends
   since the last receive or restart is not a multiple of 2^32.
   */
  lemma CallbackIffUnreceived(acts: seq<Action>, who: Who)
    ensures BothReady(Exec(COLD, acts)) <==> BothLive(acts)
    ensures Fires(Exec(COLD, acts), who) <==> BothLive(acts) && Unreceived(acts, who) % UINT32_RANGE != 0
  {
    ExecKeepsInv(acts);
    var s := Exec(COLD, acts);
    if BothLive(acts) {
      Wrap(s.b.remoteTx, Unreceived(acts, B));
      Wrap(s.a.remoteTx, Unreceived(acts, A));
    }
  }

  /** A send is called back for once: right after a receive nothing is left to call back for. */
  lemma ReceiveSettles(acts: seq<Action>, who: Who)
    ensures !Fires(Exec(COLD, acts + [Rx(who)]), who)
    ensures Fires(Exec(COLD, acts + [Rx(who)]), Other(who)) <==> Fires(Exec(COLD, acts), Other(who))
  {
    assert (acts + [Rx(who)])[..|acts|] == acts;
    CallbackIffUnreceived(acts + [Rx(who)], who);
    CallbackIffUnreceived(acts, Other(who));
    CallbackIffUnreceived(acts + [Rx(who)], Other(who));
  }

  /** A restart of either side against a live peer succeeds and causes no phantom callback on either side. */
  lemma RestartIsSilent(acts: seq<Action>, who: Who)
    requires !Live(acts, who) && Live(acts, Other(who))
    ensures var s := Exec(COLD, acts + [Init(who)]);
            BothReady(s) && !Fires(s, A) && !Fires(s, B) && Peer(s, who) == Peer(Exec(COLD, acts), who)
  {
    assert (acts + [Init(who)])[..|acts|] == acts;
    CallbackIffUnreceived(acts + [Init(who)], A);
    CallbackIffUnreceived(acts + [Init(who)], B);
  }

  lemma {:induction false} SendsAccumulate(acts: seq<Action>, who: Who, k: nat)
    requires BothLive(acts)
    ensures var run := acts + seq(k, _ => Tx(Other(who)));
            BothLive(run) && Unreceived(run, who) == Unreceived(acts, who) + k
  {
    var run := acts + seq(k, _ => Tx(Other(who)));
    if k == 0 {
      assert run == acts;
    } else {
      SendsAccumulate(acts, who, k - 1);
      assert run[..|run| - 1] == acts + seq(k - 1, _ => Tx(Other(who)));
    }
  }

  /** The count can run full circle: a multiple of 2^32 sends in a row after a receive goes unnoticed. */
  lemma FullCircleIsMissed(acts: seq<Action>, who: Who, k: nat)
    requires BothLive(acts) && k % UINT32_RANGE == 0
    ensures !Fires(Exec(COLD, acts + [Rx(who)] + seq(k, _ => Tx(Other(who)))), who)
  {
    assert (acts + [Rx(who)])[..|acts|] == acts;
    SendsAccumulate(acts + [Rx(who)], who, k);
    CallbackIffUnreceived(acts + [Rx(who)] + seq(k, _ => Tx(Other(who))), who);
  }
}
