/**
 What whole runs of senders, interrupt handlers and tasklet add up to, read off the list of events: no message is lost
 or taken twice, an unreceived message always has somebody bound to look at it, and no interrupt is raised twice for
 one notification.
 */
module WakeupRuns {
  import opened Types
  import opened RxCount
  import opened Wakeup

  predicate ChanOf(s: System, i: nat, c: nat) {
    i < |s.insts| && c < |s.insts[i].chans| == |s.insts[i].sending|
  }

  // ---------- What the events say about a channel ----------

  /**
   `sends` counts the messages sent and `inFlight` says whether the last of them has yet to be announced; `callbacks`
   counts the runs of rx_cb. Of the sends, `atLook` were made when the tasklet last loaded the write index or Tx
   counter, and `noticed` when it made the load that led to the last callback.
   */
  datatype Reading = Reading(sends: nat, inFlight: bool, callbacks: nat, atLook: nat, noticed: nat)

  /** The tasklet is about to load the write index or Tx counter of channel c. */
  predicate Looks(s: System, i: nat, c: nat) {
    s.soft.SRx? && s.soft.at == i && s.soft.rx.Scan? && s.soft.rx.chan == c
  }

  /** The tasklet has made that load. */
  predicate HasLooked(s: System, i: nat, c: nat) {
    s.soft.SRx? && s.soft.at == i && s.soft.rx.Loaded? && s.soft.rx.chan == c
  }

  /** The tasklet is about to hand channel c of instance i to its callback. */
  predicate CallsBack(s: System, i: nat, c: nat) { HasLooked(s, i, c) && s.soft.rx.found }

  /** The reading after event `e` in state `s`; a sender sends again only after it has notified. */
  function Advance(r: Reading, s: System, e: Event, i: nat, c: nat): Reading {
    match e
    case Send(j, d) =>
      if j == i && d == c && !r.inFlight then r.(sends := r.sends + 1, inFlight := true) else r
    case Notify(j, d) => if j == i && d == c then r.(inFlight := false) else r
    case Tasklet =>
      if Looks(s, i, c) then r.(atLook := r.sends)
      else if CallsBack(s, i, c) then r.(callbacks := r.callbacks + 1, noticed := r.atLook)
      else r
    case _ => r
  }

  function Read(s: System, events: seq<Event>, i: nat, c: nat): (r: Reading)
    requires Shaped(s) && ChanOf(s, i, c)
    ensures r.noticed <= r.atLook <= r.sends
  {
    if events == [] then Reading(0, s.insts[i].sending[c], 0, 0, 0)
    else
      var rest := events[..|events| - 1];
      Advance(Read(s, rest, i, c), Exec(s, rest), events[|events| - 1], i, c)
  }

  // ---------- The balance ----------

  /** The channel is as the reading says, from its first value `ch0` on. */
  predicate Balanced(s: System, r: Reading, ch0: Chan, i: nat, c: nat) {
    && ChanOf(s, i, c) && s.insts[i].sending[c] == r.inFlight
    && (match s.insts[i].chans[c]
        case Queue(length) => ch0.Queue? && r.sends == r.callbacks + length
        case Counter(tx, seen) => ch0.Counter? && tx == U32(ch0.tx + r.sends) && seen == U32(ch0.tx + r.noticed))
    && (HasLooked(s, i, c) && ch0.Counter? ==> s.soft.rx.latest == U32(ch0.tx + r.atLook))
  }

  /** What one event does to channel c of instance i. */
  predicate ChanStep(s: System, e: Event, i: nat, c: nat, s': System)
    requires ChanOf(s, i, c)
  {
    && ChanOf(s', i, c)
    && var ch, ch', sending := s.insts[i].chans[c], s'.insts[i].chans[c], s.insts[i].sending[c];
    && s'.insts[i].sending[c] == (e == Send(i, c) || (e != Notify(i, c) && sending))
    && (if e == Send(i, c) && !sending then ch' == Arrived(ch, 1)
        else if e.Tasklet? && CallsBack(s, i, c) then
          if ch.Queue? then ch.length > 0 && ch' == Queue(ch.length - 1) else ch' == Counter(ch.tx, s.soft.rx.latest)
        else ch' == ch)
    && (HasLooked(s', i, c) ==>
          if e.Tasklet? then Looks(s, i, c) && (ch.Counter? ==> s'.soft.rx.latest == ch.tx) else s'.soft == s.soft)
  }

  lemma SenderStep(s: System, e: Event, i: nat, c: nat)
    requires Shaped(s) && ChanOf(s, i, c) && (e.Send? || e.Notify?)
    ensures ChanStep(s, e, i, c, Next(s, e))
  {
  }

  lemma HandlerStep(s: System, k: nat, i: nat, c: nat)
    requires Shaped(s) && ChanOf(s, i, c)
    ensures ChanStep(s, Interrupt(k), i, c, Next(s, Interrupt(k)))
    ensures ChanStep(s, Hardirq(k), i, c, Next(s, Hardirq(k)))
  {
    hide HardStep;
    if k < |s.insts| {
      HardFrame(s, k, i);
    }
  }

  lemma TaskletStep(s: System, i: nat, c: nat)
    requires Shaped(s) && PcOk(s) && ChanOf(s, i, c)
    ensures ChanStep(s, Tasklet, i, c, Next(s, Tasklet))
  {
    hide Share;
    if s.soft.SRx? {
      ReceiveStep(s, i, c);
    }
  }

  lemma ReceiveStep(s: System, i: nat, c: nat)
    requires Shaped(s) && PcOk(s) && ChanOf(s, i, c) && s.soft.SRx?
    ensures ChanStep(s, Tasklet, i, c, SoftStep(s))
  {
    hide Share;
    if s.soft.at != i {
      assert SoftStep(s).insts[i] == s.insts[i];
    }
  }

  lemma EveryStep(s: System, e: Event, i: nat, c: nat)
    requires Inv(s) && ChanOf(s, i, c)
    ensures ChanStep(s, e, i, c, Next(s, e))
  {
    hide ChanStep, Next;
    match e
    case Tasklet => TaskletStep(s, i, c);
    case Interrupt(k) => HandlerStep(s, k, i, c);
    case Hardirq(k) => HandlerStep(s, k, i, c);
    case _ => SenderStep(s, e, i, c);
  }

  lemma BalanceKept(s: System, e: Event, s': System, r: Reading, ch0: Chan, i: nat, c: nat)
    requires Balanced(s, r, ch0, i, c) && ChanStep(s, e, i, c, s')
    ensures Balanced(s', Advance(r, s, e, i, c), ch0, i, c)
  {
    hide U32;
    if ch0.Counter? {
      AddTwice(ch0.tx, r.sends, 1);
    }
  }

  lemma {:induction false} RunKeeps(s: System, events: seq<Event>, i: nat, c: nat)
    requires Fresh(s) && ChanOf(s, i, c)
    ensures Balanced(Exec(s, events), Read(s, events, i, c), s.insts[i].chans[c], i, c)
  {
    var ch0 := s.insts[i].chans[c];
    if events == [] {
      AddTwice(if ch0.Counter? then ch0.tx else 0, 0, 0);
    } else {
      var rest, last := events[..|events| - 1], events[|events| - 1];
      RunKeeps(s, rest, i, c);
      ExecKeepsInv(s, rest);
      hide Next, Inv, Balanced, ChanStep, Advance;
      EveryStep(Exec(s, rest), last, i, c);
      BalanceKept(Exec(s, rest), last, Exec(s, events), Read(s, rest, i, c), ch0, i, c);
    }
  }

  /** Every message sent on a managed channel has been handed to the callback once, or is still queued. */
  lemma MessagesBalance(s: System, events: seq<Event>, i: nat, c: nat)
    requires Fresh(s) && ChanOf(s, i, c) && s.insts[i].chans[c].Queue?
    ensures var e, r := Exec(s, events), Read(s, events, i, c);
            && ChanOf(e, i, c) && e.insts[i].chans[c].Queue?
            && r.sends == r.callbacks + e.insts[i].chans[c].length
  {
    RunKeeps(s, events, i, c);
  }

  /** Messages the receiver has yet to be called back for; the counter of an unmanaged channel hides 2^32 of them. */
  predicate Unreceived(s: System, events: seq<Event>, i: nat, c: nat)
    requires Shaped(s) && ChanOf(s, i, c)
  {
    var r := Read(s, events, i, c);
    if s.insts[i].chans[c].Queue? then r.sends > r.callbacks else (r.sends - r.noticed) % UINT32_RANGE != 0
  }

  lemma SameResidue(x: nat, a: nat, b: nat)
    requires b <= a
    ensures U32(x + a) == U32(x + b) <==> (a - b) % UINT32_RANGE == 0
  {
  }

  lemma UnreceivedIsUnseen(s: System, events: seq<Event>, i: nat, c: nat)
    requires Fresh(s) && ChanOf(s, i, c)
    ensures ChanOf(Exec(s, events), i, c)
    ensures Unreceived(s, events, i, c) <==> Unseen(Exec(s, events).insts[i].chans[c])
  {
    hide U32, Exec, Read;
    RunKeeps(s, events, i, c);
    if s.insts[i].chans[c].Counter? {
      var r := Read(s, events, i, c);
      SameResidue(s.insts[i].chans[c].tx, r.sends, r.noticed);
    }
  }

  /**
   No lost wakeup: in every state of every interleaving, a channel of an active instance with a message that was sent
   and not yet received has somebody bound to look at it.
   */
  lemma NoLostWakeup(s: System, events: seq<Event>, i: nat, c: nat)
    requires Fresh(s) && ChanOf(s, i, c) && Exec(s, events).insts[i].active && Unreceived(s, events, i, c)
    ensures ChanOf(Exec(s, events), i, c) && Covered(Exec(s, events), i, c)
  {
    UnreceivedIsUnseen(s, events, i, c);
    UnseenIsCovered(s, events, i, c);
  }

  /** When the system comes to rest, every message sent to an active instance has been received. */
  lemma RestMeansDelivered(s: System, events: seq<Event>, i: nat, c: nat)
    requires Fresh(s) && Quiescent(Exec(s, events)) && ChanOf(s, i, c) && Exec(s, events).insts[i].active
    ensures !Unreceived(s, events, i, c)
    ensures s.insts[i].chans[c].Queue? ==> Read(s, events, i, c).callbacks == Read(s, events, i, c).sends
  {
    UnreceivedIsUnseen(s, events, i, c);
    RestMeansSeen(s, events, i, c);
    if s.insts[i].chans[c].Queue? {
      MessagesBalance(s, events, i, c);
    }
  }

  // ---------- The bits of the hardware and of the tasklet ----------

  /** The handler of some line is about to disable, or to clear, instance i. */
  predicate HandlerAt(s: System, e: Event, h: Hard) {
    e.Hardirq? && e.inst < |s.insts| && s.insts[e.inst].hard == h
  }

  predicate SetsPending(s: System, e: Event, i: nat) {
    e.Notify? && e.inst == i && ChanOf(s, i, e.chan) && s.insts[i].sending[e.chan]
  }

  predicate SetsEnabled(s: System, e: Event, i: nat) {
    e.Tasklet? && (s.soft == SEnable(i) || (s.soft.SAfter? && s.soft.at == i && s.soft.work < IPC_SOFTIRQ_BUDGET))
  }

  predicate Schedules(s: System, e: Event) {
    || (e.Hardirq? && e.inst < |s.insts| && s.insts[e.inst].hard.HDisable? && s.insts[e.inst].hard.at >= |s.insts|)
    || (e.Tasklet? && s.soft.SAfter? && s.soft.at < |s.insts| && s.soft.work >= IPC_SOFTIRQ_BUDGET)
  }

  /** Who changes each bit: only a notify sets pending, only a handler clears it, only the tasklet enables. */
  predicate BitsOk(s: System, e: Event, i: nat, s': System) {
    && i < |s.insts| == |s'.insts| && s'.insts[i].active == s.insts[i].active
    && s'.insts[i].pending == (SetsPending(s, e, i) || (s.insts[i].pending && !HandlerAt(s, e, HClear(i))))
    && s'.insts[i].enabled ==
       (SetsEnabled(s, e, i) || (s.insts[i].enabled && !(HandlerAt(s, e, HDisable(i)) && s.insts[i].active)))
    && s'.scheduled == (Schedules(s, e) || (s.scheduled && !(e.Tasklet? && s.soft.SIdle?)))
  }

  lemma SenderBits(s: System, e: Event, i: nat)
    requires Shaped(s) && i < |s.insts| && (e.Send? || e.Notify? || e.Interrupt?)
    ensures BitsOk(s, e, i, Next(s, e))
  {
    assert InstShaped(s.insts[i]);
  }

  lemma HandlerBits(s: System, k: nat, i: nat)
    requires Shaped(s) && PcOk(s) && i < |s.insts|
    ensures BitsOk(s, Hardirq(k), i, Next(s, Hardirq(k)))
  {
  }

  lemma TaskletBits(s: System, i: nat)
    requires Shaped(s) && PcOk(s) && i < |s.insts|
    ensures BitsOk(s, Tasklet, i, Next(s, Tasklet))
  {
    if s.soft.SRx? {
      RxStepFrame(s, i);
      hide SoftStep;
    }
  }

  lemma BitsChange(s: System, e: Event, i: nat)
    requires Inv(s) && i < |s.insts|
    ensures BitsOk(s, e, i, Next(s, e))
  {
    hide BitsOk, Next;
    match e
    case Tasklet => TaskletBits(s, i);
    case Hardirq(k) => HandlerBits(s, k, i);
    case _ => SenderBits(s, e, i);
  }

  /** An instance that is not enabled or has no interrupt is left alone by handlers and tasklet. */
  lemma InactiveIsLeftAlone(s: System, e: Event, i: nat, c: nat)
    requires Inv(s) && ChanOf(s, i, c) && !s.insts[i].active
    ensures var x, x' := s.insts[i], Next(s, e).insts[i];
            && x'.enabled == x.enabled && (x.pending ==> x'.pending) && ChanOf(Next(s, e), i, c)
            && (e == Send(i, c) || x'.chans[c] == x.chans[c])
  {
    BitsChange(s, e, i);
    EveryStep(s, e, i, c);
    hide Next;
  }

  // ---------- One interrupt at most for a notification ----------

  function Notifies(s: System, events: seq<Event>, i: nat): nat
    requires Shaped(s) && i < |s.insts|
  {
    if events == [] then 0
    else
      var rest := events[..|events| - 1];
      Notifies(s, rest, i) + if SetsPending(Exec(s, rest), events[|events| - 1], i) then 1 else 0
  }

  function Interrupts(s: System, events: seq<Event>, i: nat): nat
    requires Shaped(s) && i < |s.insts|
  {
    if events == [] then 0
    else
      var rest := events[..|events| - 1];
      Interrupts(s, rest, i)
      + if events[|events| - 1] == Interrupt(i) && CanFire(Exec(s, rest).insts[i]) then 1 else 0
  }

  /** The handler of line i has yet to clear the notification it was raised for. */
  predicate Acknowledging(s: System, i: nat)
    requires i < |s.insts|
  {
    var h := s.insts[i].hard;
    !h.HIdle? && h.at <= i
  }

  /** A pending notification that no handler has been raised for. */
  predicate Waiting(s: System, i: nat)
    requires i < |s.insts|
  {
    s.insts[i].active && s.insts[i].pending && !Acknowledging(s, i)
  }

  lemma LineStep(s: System, e: Event, i: nat)
    requires Inv(s) && i < |s.insts|
    ensures var s' := Next(s, e);
            && (e == Interrupt(i) && CanFire(s.insts[i]) ==> Waiting(s, i) && !Waiting(s', i))
            && (Waiting(s', i) ==> Waiting(s, i) || SetsPending(s, e, i))
  {
    BitsChange(s, e, i);
    LineMoves(s, e, i);
    hide Next, Inv;
  }

  /** The handler of line i leaves instance i behind only by clearing it, unless the instance is not active. */
  lemma LineMoves(s: System, e: Event, i: nat)
    requires Inv(s) && i < |s.insts|
    ensures var h, h' := s.insts[i].hard, Next(s, e).insts[i].hard;
            && (e == Interrupt(i) && CanFire(s.insts[i]) ==> h == HIdle && h' == HDisable(0))
            && (Acknowledging(s, i) && !Acknowledging(Next(s, e), i) ==>
                  HandlerAt(s, e, HClear(i)) || !s.insts[i].active)
  {
    hide Share;
    match e
    case Hardirq(k) => if k < |s.insts| { HardFrame(s, k, i); }
    case Tasklet => if s.soft.SRx? { RxStepFrame(s, i); hide SoftStep; }
    case _ =>
  }

  /** Interrupts raised for an instance never outnumber the notifications of its peer. */
  lemma {:induction false} NoSpuriousInterrupt(s: System, events: seq<Event>, i: nat)
    requires Fresh(s) && i < |s.insts|
    ensures Interrupts(s, events, i) + (if Waiting(Exec(s, events), i) then 1 else 0) <= Notifies(s, events, i)
  {
    if events != [] {
      var rest := events[..|events| - 1];
      NoSpuriousInterrupt(s, rest, i);
      ExecKeepsInv(s, rest);
      LineStep(Exec(s, rest), events[|events| - 1], i);
      hide Next, Inv;
    }
  }
}
