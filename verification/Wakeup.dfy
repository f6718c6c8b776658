/**
 Notification, hard interrupt, tasklet and receive loop together. The hardware is a latched pending bit and
 a routing-enable bit per instance; an interrupt is raised while both are set. Senders, interrupt handlers
 and the tasklet run on different cores and are interleaved step by step.
 */
module Wakeup {
  import opened Types
  import opened RxCount

  /** ipc_shm_hardirq: about to disable and then clear instance `at`. */
  datatype Hard = HIdle | HDisable(at: nat) | HClear(at: nat)

  /**
   ipc_shm_rx: between two rounds, about to load the write index or Tx counter of channel `chan`, or having loaded
   `latest` and `found` it new.
   */
  datatype Rx =
    | Round(work: nat, more: bool)
    | Scan(work: nat, budget: nat, chan: nat, done: nat, more: bool)
    | Loaded(work: nat, budget: nat, chan: nat, done: nat, more: bool, latest: nat, found: bool)

  /** ipc_shm_softirq: at instance `at`, inside its receive loop, after it, or re-enabling its interrupt. */
  datatype Soft =
    | SIdle
    | SAt(at: nat)
    | SRx(at: nat, rx: Rx)
    | SAfter(at: nat, work: nat)
    | SEnable(at: nat)

  /** `sending[c]` is set while the remote sender of channel c is between its store and its notify. */
  datatype Inst = Inst(active: bool, chans: seq<Chan>, sending: seq<bool>, pending: bool, enabled: bool, hard: Hard)

  datatype System = System(insts: seq<Inst>, scheduled: bool, soft: Soft)

  datatype Event =
    | Send(inst: nat, chan: nat)
    | Notify(inst: nat, chan: nat)
    | Interrupt(inst: nat)
    | Hardirq(inst: nat)
    | Tasklet

  predicate Shaped(s: System) {
    forall i :: 0 <= i < |s.insts| ==> InstShaped(s.insts[i])
  }

  predicate InstShaped(x: Inst) {
    |x.chans| == |x.sending| >= 1
  }

  /** What the receiver of a channel has not seen yet: queued descriptors, or a changed Tx counter. */
  predicate Unseen(c: Chan) {
    match c
    case Queue(length) => length > 0
    case Counter(tx, seen) => tx != seen
  }

  function SetInst(s: System, i: nat, x: Inst): System
    requires i < |s.insts|
  {
    s.(insts := s.insts[i := x])
  }

  /** One step of the system; an event that is not possible changes nothing. */
  function Next(s: System, e: Event): (s': System)
    requires Shaped(s)
    ensures Shaped(s') && |s'.insts| == |s.insts|
  {
    match e
    case Send(i, c) => if i < |s.insts| && c < |s.insts[i].chans| then SendStep(s, i, c) else s
    case Notify(i, c) => if i < |s.insts| && c < |s.insts[i].chans| then NotifyStep(s, i, c) else s
    case Interrupt(i) =>
      if i < |s.insts| && CanFire(s.insts[i]) then SetInst(s, i, s.insts[i].(hard := HDisable(0))) else s
    case Hardirq(i) => if i < |s.insts| then HardStep(s, i) else s
    case Tasklet => SoftStep(s)
  }

  predicate CanFire(x: Inst) {
    x.active && x.pending && x.enabled && x.hard.HIdle?
  }

  /** The remote stores a message in the channel; its notify comes later. */
  function SendStep(s: System, i: nat, c: nat): (s': System)
    requires Shaped(s) && i < |s.insts| && c < |s.insts[i].chans|
    ensures Shaped(s') && |s'.insts| == |s.insts|
  {
    var x := s.insts[i];
    if x.sending[c] then s
    else
      SetInst(s, i, x.(chans := x.chans[c := Arrived(x.chans[c], 1)], sending := x.sending[c := true]))
  }

  function NotifyStep(s: System, i: nat, c: nat): (s': System)
    requires Shaped(s) && i < |s.insts| && c < |s.insts[i].chans|
    ensures Shaped(s') && |s'.insts| == |s.insts|
  {
    var x := s.insts[i];
    if !x.sending[c] then s
    else SetInst(s, i, x.(sending := x.sending[c := false], pending := true))
  }

  /** One step of the handler of line `k`, which visits every active instance and then schedules the tasklet. */
  function HardStep(s: System, k: nat): (s': System)
    requires Shaped(s) && k < |s.insts|
    ensures Shaped(s') && |s'.insts| == |s.insts|
  {
    match s.insts[k].hard
    case HIdle => s
    case HDisable(at) =>
      if at >= |s.insts| then SetHard(s, k, HIdle).(scheduled := true)
      else if !s.insts[at].active then SetHard(s, k, HDisable(at + 1))
      else SetHard(SetInst(s, at, s.insts[at].(enabled := false)), k, HClear(at))
    case HClear(at) =>
      if at >= |s.insts| then s
      else SetHard(SetInst(s, at, s.insts[at].(pending := false)), k, HDisable(at + 1))
  }

  function SetHard(s: System, k: nat, h: Hard): System
    requires k < |s.insts|
  {
    SetInst(s, k, s.insts[k].(hard := h))
  }

  /** One step of the tasklet; a tasklet never runs twice at a time and its bit is cleared when it starts. */
  function SoftStep(s: System): (s': System)
    requires Shaped(s)
    ensures Shaped(s') && |s'.insts| == |s.insts|
  {
    match s.soft
    case SIdle => if s.scheduled then s.(scheduled := false, soft := SAt(0)) else s
    case SAt(i) =>
      if i >= |s.insts| then s.(soft := SIdle)
      else if !s.insts[i].active then s.(soft := SAt(i + 1))
      else s.(soft := SRx(i, Round(0, true)))
    case SRx(i, rx) => if i < |s.insts| then RxStep(s, i, rx) else s
    case SAfter(i, work) =>
      if i >= |s.insts| then s
      else if work >= IPC_SOFTIRQ_BUDGET then s.(scheduled := true, soft := SEnable(i))
      else SetInst(s, i, s.insts[i].(enabled := true)).(soft := SEnable(i))
    case SEnable(i) =>
      if i >= |s.insts| then s
      else SetInst(s, i, s.insts[i].(enabled := true)).(soft := SAt(i + 1))
  }

  /** One step of ipc_shm_rx and the ipc_channel_rx calls inside it. */
  function RxStep(s: System, i: nat, rx: Rx): (s': System)
    requires Shaped(s) && i < |s.insts|
    ensures Shaped(s') && |s'.insts| == |s.insts|
  {
    var x := s.insts[i];
    match rx
    case Round(work, more) =>
      if work < IPC_SOFTIRQ_BUDGET && more then
        s.(soft := SRx(i, Scan(work, Share(IPC_SOFTIRQ_BUDGET - work, |x.chans|), 0, 0, false)))
      else s.(soft := SAfter(i, work))
    case Scan(work, budget, c, done, more) =>
      if c >= |x.chans| then s.(soft := SRx(i, Round(work, more)))
      else match x.chans[c] {
        case Queue(length) =>
          if done < budget then s.(soft := SRx(i, Loaded(work, budget, c, done, more, length, length > 0)))
          else s.(soft := SRx(i, Scan(work + done, budget, c + 1, 0, true)))
        case Counter(tx, seen) => s.(soft := SRx(i, Loaded(work, budget, c, done, more, tx, tx != seen)))
      }
    case Loaded(work, budget, c, done, more, latest, found) =>
      if c >= |x.chans| then s
      else if !found then s.(soft := SRx(i, Scan(work + done, budget, c + 1, 0, more)))
      else match x.chans[c]
        case Queue(length) =>
          SetInst(s, i, x.(chans := x.chans[c := Queue(if length > 0 then length - 1 else 0)]))
            .(soft := SRx(i, Scan(work, budget, c, done + 1, more)))
        case Counter(tx, seen) =>
          SetInst(s, i, x.(chans := x.chans[c := Counter(tx, latest)]))
            .(soft := SRx(i, Scan(work + budget, budget, c + 1, 0, true)))
  }

  function Exec(s: System, events: seq<Event>): (s': System)
    requires Shaped(s)
    ensures Shaped(s') && |s'.insts| == |s.insts|
  {
    if events == [] then s else Next(Exec(s, events[..|events| - 1]), events[|events| - 1])
  }

  predicate FitsUint32(c: Chan) { c.Counter? ==> c.tx < UINT32_RANGE }

  /** Freshly initialised: interrupts enabled, nothing running, nothing sent. */
  predicate Fresh(s: System) {
    && Shaped(s) && !s.scheduled && s.soft.SIdle?
    && forall i :: 0 <= i < |s.insts| ==>
         && s.insts[i].enabled && !s.insts[i].pending && s.insts[i].hard.HIdle?
         && forall c :: 0 <= c < |s.insts[i].chans| ==> !Unseen(s.insts[i].chans[c]) && FitsUint32(s.insts[i].chans[c])
  }

  // ---------- The invariant ----------

  ghost predicate HardBusy(s: System) {
    exists k :: 0 <= k < |s.insts| && !s.insts[k].hard.HIdle?
  }

  /** The receive loop will look at channel c again, or the full budget will make it schedule again. */
  predicate RxRescans(rx: Rx, c: nat) {
    match rx
    case Round(work, more) => more || work >= IPC_SOFTIRQ_BUDGET
    case Scan(_, _, chan, _, more) => more || chan <= c
    case Loaded(_, _, chan, _, more, _, found) => more || chan < c || (chan == c && found)
  }

  predicate SoftRescans(soft: Soft, i: nat, c: nat) {
    match soft
    case SIdle => false
    case SAt(at) => at <= i
    case SRx(at, rx) => at < i || (at == i && RxRescans(rx, c))
    case SAfter(at, work) => at < i || (at == i && work >= IPC_SOFTIRQ_BUDGET)
    case SEnable(at) => at < i
  }

  /** Somebody is bound to look at channel c of instance i. */
  ghost predicate Covered(s: System, i: nat, c: nat)
    requires Shaped(s) && i < |s.insts| && c < |s.insts[i].chans|
  {
    var x := s.insts[i];
    x.sending[c] || x.pending || HardBusy(s) || s.scheduled || SoftRescans(s.soft, i, c)
  }

  predicate SoftEnables(soft: Soft, i: nat) {
    match soft
    case SIdle => false
    case _ => soft.at <= i
  }

  ghost predicate InstOk(s: System, i: nat)
    requires Shaped(s) && i < |s.insts|
  {
    var x := s.insts[i];
    x.active ==>
      && (x.enabled || HardBusy(s) || s.scheduled || SoftEnables(s.soft, i))
      && forall c :: 0 <= c < |x.chans| && Unseen(x.chans[c]) ==> Covered(s, i, c)
  }

  /** A message found stays queued until the tasklet takes it. */
  predicate LoadedOk(x: Inst, rx: Rx)
    requires rx.Loaded?
  {
    && rx.chan < |x.chans| && (x.chans[rx.chan].Queue? ==> rx.done < rx.budget)
    && (rx.found && x.chans[rx.chan].Queue? ==> x.chans[rx.chan].length > 0)
  }

  predicate IsActive(s: System, i: nat) { i < |s.insts| && s.insts[i].active }

  /** Handlers and tasklet are inside active instances only, and no channel exceeds its budget. */
  predicate PcOk(s: System) {
    && (s.soft.SRx? || s.soft.SAfter? || s.soft.SEnable? ==> s.soft.at < |s.insts| && s.insts[s.soft.at].active)
    && (s.soft.SRx? && !s.soft.rx.Round? ==> s.soft.rx.done <= s.soft.rx.budget)
    && (s.soft.SRx? && s.soft.rx.Loaded? ==> LoadedOk(s.insts[s.soft.at], s.soft.rx))
    && forall k :: 0 <= k < |s.insts| && s.insts[k].hard.HClear? ==> IsActive(s, s.insts[k].hard.at)
  }

  ghost predicate Inv(s: System) {
    Shaped(s) && PcOk(s) && forall i :: 0 <= i < |s.insts| ==> InstOk(s, i)
  }

  /** A message stored, noticed or announced elsewhere does not disturb what the tasklet has loaded. */
  lemma SendKeepsPc(s: System, i: nat, c: nat)
    requires Shaped(s) && PcOk(s) && i < |s.insts| && c < |s.insts[i].chans|
    ensures PcOk(SendStep(s, i, c))
  {
    var s' := SendStep(s, i, c);
    forall k | 0 <= k < |s.insts| ensures s'.insts[k].hard == s.insts[k].hard {
    }
  }

  lemma SendKeeps(s: System, i: nat, c: nat)
    requires Inv(s) && i < |s.insts| && c < |s.insts[i].chans|
    ensures Inv(SendStep(s, i, c))
  {
    hide PcOk;
    SendKeepsPc(s, i, c);
    var s' := SendStep(s, i, c);
    assert forall k :: 0 <= k < |s.insts| ==> s'.insts[k].hard == s.insts[k].hard;
    assert HardBusy(s) ==> HardBusy(s');
    forall j | 0 <= j < |s.insts| ensures InstOk(s', j) {
      assert InstOk(s, j);
    }
  }

  lemma NotifyKeepsPc(s: System, i: nat, c: nat)
    requires Shaped(s) && PcOk(s) && i < |s.insts| && c < |s.insts[i].chans|
    ensures PcOk(NotifyStep(s, i, c))
  {
    var s' := NotifyStep(s, i, c);
    forall k | 0 <= k < |s.insts| ensures s'.insts[k].hard == s.insts[k].hard {
    }
  }

  lemma NotifyKeeps(s: System, i: nat, c: nat)
    requires Inv(s) && i < |s.insts| && c < |s.insts[i].chans|
    ensures Inv(NotifyStep(s, i, c))
  {
    hide PcOk;
    NotifyKeepsPc(s, i, c);
    var s' := NotifyStep(s, i, c);
    assert forall k :: 0 <= k < |s.insts| ==> s'.insts[k].hard == s.insts[k].hard;
    assert HardBusy(s) ==> HardBusy(s');
    forall j | 0 <= j < |s.insts| ensures InstOk(s', j) {
      assert InstOk(s, j);
    }
  }

  lemma InterruptKeepsPc(s: System, k: nat)
    requires Shaped(s) && PcOk(s) && k < |s.insts|
    ensures PcOk(Next(s, Interrupt(k)))
  {
  }

  lemma InterruptKeeps(s: System, k: nat)
    requires Inv(s) && k < |s.insts|
    ensures Inv(Next(s, Interrupt(k)))
  {
    hide PcOk;
    InterruptKeepsPc(s, k);
    var s' := Next(s, Interrupt(k));
    if CanFire(s.insts[k]) {
      assert !s'.insts[k].hard.HIdle?;
      forall j | 0 <= j < |s.insts| ensures InstOk(s', j) {
        assert InstOk(s, j);
      }
    }
  }

  lemma HardFrame(s: System, k: nat, j: nat)
    requires Shaped(s) && k < |s.insts| && j < |s.insts|
    ensures var s' := HardStep(s, k);
            && s'.soft == s.soft
            && s'.insts[j].chans == s.insts[j].chans && s'.insts[j].sending == s.insts[j].sending
            && (j != k ==> s'.insts[j].hard == s.insts[j].hard)
            && s'.insts[j].active == s.insts[j].active
            && (j == k && s'.insts[j].hard.HClear? ==>
                  s'.insts[j].hard == s.insts[j].hard || IsActive(s, s'.insts[j].hard.at))
  {
  }

  lemma HardKeepsPc(s: System, k: nat)
    requires Shaped(s) && PcOk(s) && k < |s.insts|
    ensures PcOk(HardStep(s, k))
  {
    hide HardStep;
    HardFrame(s, k, 0);
    forall j | 0 <= j < |s.insts|
      ensures HardStep(s, k).insts[j].chans == s.insts[j].chans
      ensures HardStep(s, k).insts[j].active == s.insts[j].active
      ensures HardStep(s, k).insts[j].hard.HClear? ==> IsActive(s, HardStep(s, k).insts[j].hard.at)
    {
      HardFrame(s, k, j);
    }
  }

  lemma HardKeeps(s: System, k: nat)
    requires Inv(s) && k < |s.insts|
    ensures Inv(HardStep(s, k))
  {
    HardKeepsPc(s, k);
    hide PcOk;
    var s' := HardStep(s, k);
    if !s.insts[k].hard.HIdle? {
      assert s'.scheduled || !s'.insts[k].hard.HIdle?;
      forall j | 0 <= j < |s.insts| ensures InstOk(s', j) {
      }
    }
  }

  lemma SoftKeepsPc(s: System)
    requires Shaped(s) && PcOk(s) && !s.soft.SRx?
    ensures PcOk(SoftStep(s))
  {
    var s' := SoftStep(s);
    forall k | 0 <= k < |s.insts| ensures s'.insts[k].hard == s.insts[k].hard {
    }
  }

  lemma SoftKeeps(s: System)
    requires Inv(s) && !s.soft.SRx?
    ensures Inv(SoftStep(s))
  {
    hide PcOk;
    SoftKeepsPc(s);
    var s' := SoftStep(s);
    assert forall k :: 0 <= k < |s.insts| ==> s'.insts[k].hard == s.insts[k].hard;
    assert HardBusy(s) ==> HardBusy(s');
    forall j | 0 <= j < |s.insts| ensures InstOk(s', j) {
      assert InstOk(s, j);
    }
  }

  /** A step of the receive loop changes the channels of its own instance and nothing else. */
  lemma RxStepFrame(s: System, j: nat)
    requires Shaped(s) && PcOk(s) && s.soft.SRx? && j < |s.insts|
    ensures |SoftStep(s).insts[j].chans| == |s.insts[j].chans|
    ensures SoftStep(s).insts[j] == s.insts[j].(chans := SoftStep(s).insts[j].chans)
    ensures SoftStep(s).scheduled == s.scheduled
    ensures SoftEnables(s.soft, j) ==> SoftEnables(SoftStep(s).soft, j)
  {
    hide Share;
    assert InstShaped(s.insts[s.soft.at]);
  }

  lemma RxKeepsPc(s: System)
    requires Shaped(s) && PcOk(s) && s.soft.SRx?
    ensures PcOk(SoftStep(s))
  {
    hide Share;
    assert InstShaped(s.insts[s.soft.at]);
    forall k | 0 <= k < |s.insts| ensures SoftStep(s).insts[k].hard == s.insts[k].hard {
    }
  }

  /**
   A channel with unseen messages keeps its promise to be rescanned, unless the budget is used up; and one that
   turns unseen because an older counter value was saved gets such a promise.
   */
  lemma RxStepCovers(s: System, j: nat, c: nat)
    requires Shaped(s) && PcOk(s) && s.soft.SRx? && j < |s.insts| && c < |s.insts[j].chans|
    ensures |SoftStep(s).insts[j].chans| == |s.insts[j].chans|
    ensures Unseen(SoftStep(s).insts[j].chans[c]) && !SoftRescans(SoftStep(s).soft, j, c) ==>
              Unseen(s.insts[j].chans[c]) && !SoftRescans(s.soft, j, c)
  {
    hide Share;
    assert InstShaped(s.insts[s.soft.at]);
  }

  lemma RxKeeps(s: System)
    requires Inv(s) && s.soft.SRx?
    ensures Inv(SoftStep(s))
  {
    var s' := SoftStep(s);
    hide SoftStep, SoftRescans, Unseen, PcOk, SoftEnables;
    RxKeepsPc(s);
    RxStepFrame(s, s.soft.at);
    forall j | 0 <= j < |s.insts| ensures s'.insts[j].hard == s.insts[j].hard {
      RxStepFrame(s, j);
    }
    assert HardBusy(s) ==> HardBusy(s');
    forall j | 0 <= j < |s.insts| ensures InstOk(s', j) {
      RxStepFrame(s, j);
      assert InstOk(s, j);
      forall c | 0 <= c < |s'.insts[j].chans| && Unseen(s'.insts[j].chans[c]) && s.insts[j].active
        ensures Covered(s', j, c)
      {
        RxStepCovers(s, j, c);
        assert Unseen(s.insts[j].chans[c]) ==> Covered(s, j, c);
      }
    }
  }

  lemma {:induction false} ExecKeepsInv(s: System, events: seq<Event>)
    requires Fresh(s)
    ensures Inv(Exec(s, events))
  {
    if events == [] {
      forall i | 0 <= i < |s.insts| ensures InstOk(s, i) {
      }
    } else {
      var before, e := Exec(s, events[..|events| - 1]), events[|events| - 1];
      ExecKeepsInv(s, events[..|events| - 1]);
      hide Inv;
      match e
      case Send(i, c) => if i < |s.insts| && c < |before.insts[i].chans| { SendKeeps(before, i, c); }
      case Notify(i, c) => if i < |s.insts| && c < |before.insts[i].chans| { NotifyKeeps(before, i, c); }
      case Interrupt(i) => if i < |s.insts| { InterruptKeeps(before, i); }
      case Hardirq(i) => if i < |s.insts| { HardKeeps(before, i); }
      case Tasklet => if before.soft.SRx? { RxKeeps(before); } else { SoftKeeps(before); }
    }
  }

  /**
   In every reachable state, an active channel with something unseen is covered: its sender has yet to notify, the
   notification is pending, an interrupt handler is on its way to schedule the tasklet, the tasklet is scheduled, or
   the running tasklet will rescan that very channel or schedule itself again.
   */
  lemma UnseenIsCovered(s: System, events: seq<Event>, i: nat, c: nat)
    requires Fresh(s) && i < |s.insts|
    requires Exec(s, events).insts[i].active && c < |Exec(s, events).insts[i].chans|
    requires Unseen(Exec(s, events).insts[i].chans[c])
    ensures Covered(Exec(s, events), i, c)
  {
    ExecKeepsInv(s, events);
    assert InstOk(Exec(s, events), i);
  }

  /** Nothing left to do on either side: senders idle, tasklet and handlers idle, no interrupt to raise. */
  ghost predicate Quiescent(s: System)
    requires Shaped(s)
  {
    && s.soft.SIdle? && !s.scheduled && !HardBusy(s)
    && forall i :: 0 <= i < |s.insts| ==>
         && !CanFire(s.insts[i])
         && forall c :: 0 <= c < |s.insts[i].chans| ==> !s.insts[i].sending[c]
  }

  /** When the system comes to rest, nothing is unseen on any active instance, and its interrupt is enabled. */
  lemma RestMeansSeen(s: System, events: seq<Event>, i: nat, c: nat)
    requires Fresh(s) && Quiescent(Exec(s, events)) && i < |s.insts|
    requires Exec(s, events).insts[i].active && c < |Exec(s, events).insts[i].chans|
    ensures !Unseen(Exec(s, events).insts[i].chans[c])
    ensures Exec(s, events).insts[i].enabled && !Exec(s, events).insts[i].pending
  {
    ExecKeepsInv(s, events);
    assert InstOk(Exec(s, events), i);
  }
}
