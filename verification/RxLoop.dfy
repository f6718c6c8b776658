/**
 The fair receive loop of ipc-shm.c while the peer keeps sending: ipc_channel_rx, ipc_shm_rx and the
 polling entry of os_kernel/ipc-os.c.
 */
module RxLoop {
  import opened Types
  import opened RxCount

  datatype Chan = Managed(queue: seq<Bd>) | Unmanaged(tx: nat, seen: nat)

  /** What the peer sends at each moment on each channel; on an unmanaged channel only the number matters. */
  type Traffic = (nat, nat) -> seq<Bd>

  const SILENCE: Traffic := (t, c) => []

  /** What the peer sends on channel c from moment `from` until just before `end`. */
  function Sent(traffic: Traffic, c: nat, from: nat, end: nat): seq<Bd>
    decreases end
  {
    if end <= from then [] else Sent(traffic, c, from, end - 1) + traffic(end - 1, c)
  }

  lemma {:induction false} SentSplit(traffic: Traffic, c: nat, from: nat, mid: nat, end: nat)
    requires from <= mid <= end
    ensures Sent(traffic, c, from, end) == Sent(traffic, c, from, mid) + Sent(traffic, c, mid, end)
    decreases end
  {
    if mid < end {
      SentSplit(traffic, c, from, mid, end - 1);
    }
  }

  ghost predicate QuietOn(traffic: Traffic, c: nat) {
    forall t :: traffic(t, c) == []
  }

  ghost predicate Quiet(traffic: Traffic, n: nat) {
    forall c :: 0 <= c < n ==> QuietOn(traffic, c)
  }

  lemma {:induction false} NothingSent(traffic: Traffic, c: nat, from: nat, end: nat)
    requires QuietOn(traffic, c)
    ensures Sent(traffic, c, from, end) == []
    decreases end
  {
    if from < end {
      NothingSent(traffic, c, from, end - 1);
    }
  }

  // ---------- What decides the course of the loop ----------

  function Load(ch: Chan): RxCount.Chan {
    match ch
    case Managed(queue) => Queue(|queue|)
    case Unmanaged(tx, seen) => Counter(tx, seen)
  }

  function Loads(chans: seq<Chan>): (loads: seq<RxCount.Chan>)
    ensures |loads| == |chans| && forall c :: 0 <= c < |chans| ==> loads[c] == Load(chans[c])
  {
    seq(|chans|, c requires 0 <= c < |chans| => Load(chans[c]))
  }

  function Sizes(traffic: Traffic): Arrivals { (t, c) => |traffic(t, c)| }

  /** A channel after the peer's traffic of moment `t`. */
  function Sending(ch: Chan, traffic: Traffic, t: nat, c: nat): Chan {
    match ch
    case Managed(queue) => Managed(queue + traffic(t, c))
    case Unmanaged(tx, seen) => Unmanaged(U32(tx + |traffic(t, c)|), seen)
  }

  predicate Changed(ch: Chan) { ch.Unmanaged? && ch.tx != ch.seen }

  predicate TxOk(ch: Chan) {
    ch.Unmanaged? ==> ch.tx < UINT32_RANGE && ch.seen < UINT32_RANGE
  }

  /** The sends an unmanaged channel can be seen to have missed. */
  function Gap(ch: Chan): (gap: nat)
    requires ch.Unmanaged? && TxOk(ch)
    ensures gap < UINT32_RANGE && ch.tx == U32(ch.seen + gap) && (gap == 0 <==> ch.tx == ch.seen)
  {
    if ch.tx >= ch.seen then ch.tx - ch.seen else ch.tx + UINT32_RANGE - ch.seen
  }

  // ---------- What happens to a channel over time ----------

  /**
   Receive side of one instance. `delivered` and `callbacks` record the calls of the two kinds of rx_cb; `arrived`
   counts the sends and, for an unmanaged channel, `noticed` those made when the receiver last looked.
   */
  datatype View = View(
    chans: seq<Chan>, delivered: seq<seq<Bd>>, callbacks: seq<nat>, arrived: seq<nat>, noticed: seq<nat>, clock: nat)

  predicate ViewOk(v: View) {
    && |v.chans| == |v.delivered| == |v.callbacks| == |v.arrived| == |v.noticed| >= 1
    && forall c :: 0 <= c < |v.chans| ==> ChanOk(v.chans[c], v.arrived[c], v.noticed[c])
  }

  predicate ChanOk(ch: Chan, arrived: nat, noticed: nat) {
    TxOk(ch) && noticed <= arrived && (ch.Unmanaged? ==> ch.tx == U32(ch.seen + (arrived - noticed)))
  }

  /** Everything the peer ever queued on channel c, delivered or not. */
  function Accepted(v: View, c: nat): seq<Bd>
    requires ViewOk(v) && c < |v.chans|
  {
    v.delivered[c] + if v.chans[c].Managed? then v.chans[c].queue else []
  }

  /**
   How channel c evolves from `v` to `w`: what the peer sent in between, no more and no less, was accepted behind what
   was there; only accepted messages are delivered, in order; a counter moves by what was sent.
   */
  predicate ChanLater(v: View, w: View, traffic: Traffic, c: nat)
    requires ViewOk(v) && ViewOk(w) && c < |v.chans| == |w.chans|
  {
    var sent := Sent(traffic, c, v.clock, w.clock);
    && v.clock <= w.clock && (v.chans[c].Managed? <==> w.chans[c].Managed?)
    && v.delivered[c] <= w.delivered[c] && v.callbacks[c] <= w.callbacks[c] && v.noticed[c] <= w.noticed[c]
    && w.arrived[c] == v.arrived[c] + |sent|
    && if v.chans[c].Managed? then Accepted(w, c) == Accepted(v, c) + sent && w.callbacks[c] == v.callbacks[c]
       else
         && w.delivered[c] == v.delivered[c] && w.chans[c].tx == U32(v.chans[c].tx + |sent|)
         && (v.callbacks[c] == w.callbacks[c] ==> w.chans[c].seen == v.chans[c].seen)
         && (sent == [] && !Changed(v.chans[c]) ==> w.callbacks[c] == v.callbacks[c])
  }

  ghost predicate Later(v: View, w: View, traffic: Traffic) {
    && ViewOk(v) && ViewOk(w) && |v.chans| == |w.chans|
    && forall c :: 0 <= c < |v.chans| ==> ChanLater(v, w, traffic, c)
  }

  lemma ChanLaterTransitive(u: View, v: View, w: View, traffic: Traffic, c: nat)
    requires Later(u, v, traffic) && Later(v, w, traffic) && c < |u.chans|
    ensures ChanLater(u, w, traffic, c)
  {
    hide U32, Sent;
    assert ChanLater(u, v, traffic, c) && ChanLater(v, w, traffic, c);
    assert ChanOk(u.chans[c], u.arrived[c], u.noticed[c]);
    hide ChanOk;
    SentSplit(traffic, c, u.clock, v.clock, w.clock);
    if u.chans[c].Unmanaged? {
      AddTwice(u.chans[c].tx, v.arrived[c] - u.arrived[c], w.arrived[c] - v.arrived[c]);
      AddTwice(u.chans[c].tx, 0, 0);
    }
  }

  lemma LaterTransitive(u: View, v: View, w: View, traffic: Traffic)
    requires Later(u, v, traffic) && Later(v, w, traffic)
    ensures Later(u, w, traffic)
  {
    hide ChanLater;
    forall c | 0 <= c < |u.chans| ensures ChanLater(u, w, traffic, c) {
      ChanLaterTransitive(u, v, w, traffic, c);
    }
  }

  lemma LaterReflexive(v: View, traffic: Traffic)
    requires ViewOk(v)
    ensures Later(v, v, traffic)
  {
    forall c | 0 <= c < |v.chans| ensures ChanLater(v, v, traffic, c) {
      if v.chans[c].Unmanaged? {
        AddTwice(v.chans[c].tx, 0, 0);
      }
    }
  }

  lemma LaterKeepsKinds(v: View, w: View, traffic: Traffic)
    requires Later(v, w, traffic)
    ensures |v.chans| == |w.chans|
    ensures forall c :: 0 <= c < |v.chans| ==> (w.chans[c].Managed? <==> v.chans[c].Managed?)
  {
    forall c | 0 <= c < |v.chans| ensures w.chans[c].Managed? <==> v.chans[c].Managed? {
      assert ChanLater(v, w, traffic, c);
    }
  }

  /** The view after the peer's traffic of the present moment. */
  function Ticked(v: View, traffic: Traffic): View
    requires ViewOk(v)
  {
    v.(chans := seq(|v.chans|, c requires 0 <= c < |v.chans| => Sending(v.chans[c], traffic, v.clock, c)),
       arrived := seq(|v.chans|, c requires 0 <= c < |v.chans| => v.arrived[c] + |traffic(v.clock, c)|),
       clock := v.clock + 1)
  }

  lemma TickKeepsChan(v: View, traffic: Traffic, c: nat)
    requires ViewOk(v) && c < |v.chans|
    ensures var w := Ticked(v, traffic); ChanOk(w.chans[c], w.arrived[c], w.noticed[c])
  {
    assert ChanOk(v.chans[c], v.arrived[c], v.noticed[c]);
    if v.chans[c].Unmanaged? {
      AddTwice(v.chans[c].seen, v.arrived[c] - v.noticed[c], |traffic(v.clock, c)|);
    }
  }

  lemma TickLater(v: View, traffic: Traffic)
    requires ViewOk(v)
    ensures Later(v, Ticked(v, traffic), traffic)
    ensures Loads(Ticked(v, traffic).chans) == Arrive(Loads(v.chans), Sizes(traffic), v.clock)
  {
    var w := Ticked(v, traffic);
    forall c | 0 <= c < |v.chans| ensures ChanOk(w.chans[c], w.arrived[c], w.noticed[c]) {
      TickKeepsChan(v, traffic, c);
    }
    assert ViewOk(w);
    forall c | 0 <= c < |v.chans| ensures ChanLater(v, w, traffic, c) {
      assert Sent(traffic, c, v.clock, v.clock) == [];
      assert Sent(traffic, c, v.clock, w.clock) == traffic(v.clock, c);
      if v.chans[c].Unmanaged? {
        AddTwice(v.chans[c].tx, 0, 0);
      }
    }
  }

  /** The view after the head of channel c was popped and delivered. */
  function Taken(v: View, c: nat): View
    requires ViewOk(v) && c < |v.chans| && v.chans[c].Managed? && v.chans[c].queue != []
  {
    var queue := v.chans[c].queue;
    v.(chans := v.chans[c := Managed(queue[1..])], delivered := v.delivered[c := v.delivered[c] + [queue[0]]])
  }

  lemma TakenLater(v: View, traffic: Traffic, c: nat)
    requires ViewOk(v) && c < |v.chans| && v.chans[c].Managed? && v.chans[c].queue != []
    ensures Later(v, Taken(v, c), traffic)
    ensures Loads(Taken(v, c).chans) == Loads(v.chans)[c := Queue(|v.chans[c].queue| - 1)]
  {
    LaterReflexive(v, traffic);
    hide U32, Sent;
    var w := Taken(v, c);
    assert Accepted(w, c) == Accepted(v, c);
    forall j | 0 <= j < |v.chans| ensures ChanLater(v, w, traffic, j) {
      assert ChanLater(v, v, traffic, j);
    }
  }

  /** The view after the receiver compared the counter of channel c, with the callback it caused, if any. */
  function Looked(v: View, c: nat): View
    requires ViewOk(v) && c < |v.chans| && v.chans[c].Unmanaged?
  {
    var w := v.(noticed := v.noticed[c := v.arrived[c]]);
    if Changed(v.chans[c]) then
      w.(chans := v.chans[c := Unmanaged(v.chans[c].tx, v.chans[c].tx)],
         callbacks := v.callbacks[c := v.callbacks[c] + 1])
    else w
  }

  lemma LookedLater(v: View, traffic: Traffic, c: nat)
    requires ViewOk(v) && c < |v.chans| && v.chans[c].Unmanaged?
    ensures Later(v, Looked(v, c), traffic)
  {
    LaterReflexive(v, traffic);
    AddTwice(v.chans[c].tx, 0, 0);
    hide U32, Sent;
    var w := Looked(v, c);
    assert ViewOk(w);
    forall j | 0 <= j < |v.chans| ensures ChanLater(v, w, traffic, j) {
      assert ChanLater(v, v, traffic, j);
    }
  }

  // ---------- Fair share and draining ----------

  /**
   The fair share of channel c: its pending messages up to the quota, or its callback if the counter had
   changed. Only a peer that bumps the counter all the way round meanwhile can hide the change.
   */
  predicate Served(v: View, w: View, quota: nat, c: nat)
    requires ViewOk(v) && ViewOk(w) && c < |v.chans| == |w.chans|
  {
    if v.chans[c].Managed? then |w.delivered[c]| >= |v.delivered[c]| + Min(|v.chans[c].queue|, quota)
    else
      Changed(v.chans[c]) && Gap(v.chans[c]) + w.arrived[c] < UINT32_RANGE + v.arrived[c] ==>
        w.callbacks[c] > v.callbacks[c]
  }

  /**
   All that was pending on channel c at `v` has been taken notice of at `w`: every queued message was delivered,
   or the receiver has looked at the Tx counter after the last send made before `v`.
   */
  predicate Drained(v: View, w: View, c: nat)
    requires ViewOk(v) && ViewOk(w) && c < |v.chans| == |w.chans|
  {
    if v.chans[c].Managed? then Accepted(v, c) <= w.delivered[c] else w.noticed[c] >= v.arrived[c]
  }

  lemma ServicePersists(v: View, x: View, w: View, traffic: Traffic, quota: nat, c: nat)
    requires Later(v, x, traffic) && Later(x, w, traffic) && c < |v.chans|
    ensures Served(v, x, quota, c) ==> Served(v, w, quota, c)
    ensures Drained(v, x, c) ==> Drained(v, w, c)
  {
    hide U32, Sent;
    assert ChanLater(v, x, traffic, c) && ChanLater(x, w, traffic, c);
  }

  /** What a channel scan reports, as a relation between the views before and after it. */
  ghost predicate Scanned(x: View, w: View, budget: nat, got: nat, c: nat) {
    && ViewOk(x) && ViewOk(w) && c < |x.chans| == |w.chans|
    && w.delivered == x.delivered[c := w.delivered[c]] && w.callbacks == x.callbacks[c := w.callbacks[c]]
    && (w.chans[c].Managed? ==>
          && w.callbacks == x.callbacks && got <= budget && |w.delivered[c]| == |x.delivered[c]| + got
          && (got < budget ==> w.chans[c].queue == []))
    && (w.chans[c].Unmanaged? ==>
          && w.delivered == x.delivered && w.chans[c].seen == w.chans[c].tx && w.noticed[c] == w.arrived[c]
          && x.chans[c].Unmanaged? && (w.callbacks == x.callbacks <==> w.chans[c].seen == x.chans[c].seen)
          && x.callbacks[c] <= w.callbacks[c] <= x.callbacks[c] + 1
          && got == (w.callbacks[c] - x.callbacks[c]) * budget)
  }

  lemma LookedAt(u: View, v: View, traffic: Traffic, c: nat, budget: nat)
    requires Later(u, v, traffic) && c < |v.chans| && u.chans[c].Unmanaged? && v.chans[c].Unmanaged?
    requires u.delivered == v.delivered && u.callbacks == v.callbacks
    ensures Later(u, Looked(v, c), traffic)
    ensures Scanned(u, Looked(v, c), budget, if Changed(v.chans[c]) then budget else 0, c)
  {
    hide U32, Sent;
    LookedLater(v, traffic, c);
    LaterTransitive(u, v, Looked(v, c), traffic);
    assert ChanLater(u, v, traffic, c);
  }

  /** A counter that did not move while fewer than 2^32 sends arrived cannot have gone past a difference. */
  lemma GapShows(tx: nat, seen: nat, gap: nat, more: nat)
    requires tx == U32(seen + gap) && 0 < gap && gap + more < UINT32_RANGE && seen < UINT32_RANGE
    ensures U32(tx + more) != seen
  {
    AddTwice(seen, gap, more);
  }

  /** What ipc_channel_rx reports about one channel is enough for its fair share since the round began. */
  lemma ScanServes(v: View, x: View, w: View, traffic: Traffic, budget: nat, got: nat, c: nat)
    requires Later(v, x, traffic) && Later(x, w, traffic)
    requires Scanned(x, w, budget, got, c)
    ensures Served(v, w, budget, c)
    ensures got < budget || v.chans[c].Unmanaged? ==> Drained(v, w, c)
  {
    hide U32, Sent;
    assert ChanLater(v, x, traffic, c) && ChanLater(x, w, traffic, c);
    ChanLaterTransitive(v, x, w, traffic, c);
    assert w.chans[c].Managed? && got < budget ==> Accepted(w, c) == w.delivered[c];
    var ch := v.chans[c];
    if Changed(ch) && Gap(ch) + w.arrived[c] < UINT32_RANGE + v.arrived[c] {
      GapShows(ch.tx, ch.seen, Gap(ch), w.arrived[c] - v.arrived[c]);
    }
  }

  predicate AllServed(v: View, w: View, quota: nat, n: nat) {
    && ViewOk(v) && ViewOk(w) && n <= |v.chans| == |w.chans|
    && forall c :: 0 <= c < n ==> Served(v, w, quota, c)
  }

  predicate AllDrained(v: View, w: View, n: nat) {
    && ViewOk(v) && ViewOk(w) && n <= |v.chans| == |w.chans|
    && forall c :: 0 <= c < n ==> Drained(v, w, c)
  }

  /** Every unmanaged channel was looked at once: its counter is noticed and it was called back at most once. */
  predicate AllLooked(v: View, w: View, n: nat) {
    && ViewOk(v) && ViewOk(w) && n <= |v.chans| == |w.chans|
    && forall c :: 0 <= c < |v.chans| && v.chans[c].Unmanaged? ==>
         if c < n then Drained(v, w, c) && w.callbacks[c] <= v.callbacks[c] + 1 else w.callbacks[c] == v.callbacks[c]
  }

  lemma RoundStep(v: View, x: View, w: View, traffic: Traffic, budget: nat, got: nat, c: nat)
    requires Later(v, x, traffic) && Later(x, w, traffic) && Scanned(x, w, budget, got, c)
    requires AllServed(v, x, budget, c) && AllLooked(v, x, c)
    ensures Later(v, w, traffic) && AllServed(v, w, budget, c + 1) && AllLooked(v, w, c + 1)
    ensures AllDrained(v, x, c) && got < budget ==> AllDrained(v, w, c + 1)
  {
    hide ChanOk, Served, Drained;
    LaterTransitive(v, x, w, traffic);
    LaterKeepsKinds(v, x, traffic);
    LaterKeepsKinds(x, w, traffic);
    ScanServes(v, x, w, traffic, budget, got, c);
    forall j | 0 <= j < c
      ensures Served(v, w, budget, j)
      ensures Drained(v, x, j) ==> Drained(v, w, j)
    {
      ServicePersists(v, x, w, traffic, budget, j);
    }
  }

  lemma AllDrainedExtends(v: View, x: View, w: View, traffic: Traffic)
    requires Later(v, x, traffic) && Later(x, w, traffic)
    ensures AllDrained(x, w, |v.chans|) ==> AllDrained(v, w, |v.chans|)
  {
    hide Sent;
    if AllDrained(x, w, |v.chans|) {
      forall c | 0 <= c < |v.chans| ensures Drained(v, w, c) {
        assert ChanLater(v, x, traffic, c) && Drained(x, w, c);
      }
    }
  }

  /**
   Fairness without reference to how the loop divides its budget: every channel gets any number of messages that all
   channels together can afford, and at least one.
   */
  ghost predicate Fair(v: View, w: View, budget: nat) {
    forall quota: nat :: Affordable(budget, |v.chans|, quota) ==> AllServed(v, w, quota, |v.chans|)
  }

  lemma ShareIsFair(v: View, w: View, budget: nat)
    requires ViewOk(v) && AllServed(v, w, Share(budget, |v.chans|), |v.chans|)
    ensures Fair(v, w, budget)
  {
    hide ChanOk;
    forall quota: nat | Affordable(budget, |v.chans|, quota) ensures AllServed(v, w, quota, |v.chans|) {
      ShareBound(budget, |v.chans|, quota);
      forall c | 0 <= c < |v.chans| ensures Served(v, w, quota, c) {
        assert Served(v, w, Share(budget, |v.chans|), c);
      }
    }
  }

  lemma FairPersists(v: View, x: View, w: View, traffic: Traffic, budget: nat)
    requires Later(v, x, traffic) && Later(x, w, traffic) && Fair(v, x, budget)
    ensures Fair(v, w, budget)
  {
    forall quota: nat | Affordable(budget, |v.chans|, quota) ensures AllServed(v, w, quota, |v.chans|) {
      assert AllServed(v, x, quota, |v.chans|);
      hide Served, Drained, Affordable;
      forall c | 0 <= c < |v.chans| ensures Served(v, w, quota, c) {
        ServicePersists(v, x, w, traffic, quota, c);
      }
    }
  }

  // ---------- Accounting ----------

  /** Messages delivered on the first n channels. */
  function Delivered(v: View, n: nat): nat
    requires n <= |v.delivered|
  {
    if n == 0 then 0 else Delivered(v, n - 1) + |v.delivered[n - 1]|
  }

  /** Callbacks made on the first n channels. */
  function Calls(v: View, n: nat): nat
    requires n <= |v.callbacks|
  {
    if n == 0 then 0 else Calls(v, n - 1) + v.callbacks[n - 1]
  }

  lemma {:induction false} TotalsChange(x: View, w: View, c: nat, n: nat)
    requires ViewOk(x) && ViewOk(w) && c < |x.chans| == |w.chans| && n <= |x.chans|
    requires w.delivered == x.delivered[c := w.delivered[c]] && w.callbacks == x.callbacks[c := w.callbacks[c]]
    ensures if c < n then Delivered(w, n) + |x.delivered[c]| == Delivered(x, n) + |w.delivered[c]|
            else Delivered(w, n) == Delivered(x, n)
    ensures if c < n then Calls(w, n) + x.callbacks[c] == Calls(x, n) + w.callbacks[c] else Calls(w, n) == Calls(x, n)
    decreases n
  {
    if n > 0 {
      TotalsChange(x, w, c, n - 1);
    }
  }

  lemma {:induction false} TotalsGrow(v: View, w: View, traffic: Traffic, n: nat)
    requires Later(v, w, traffic) && n <= |v.chans|
    ensures Delivered(v, n) <= Delivered(w, n) && Calls(v, n) <= Calls(w, n)
    decreases n
  {
    if n > 0 {
      TotalsGrow(v, w, traffic, n - 1);
      assert ChanLater(v, w, traffic, n - 1);
    }
  }

  /** The account of one round: each message counts as one, each callback as the whole quota. */
  predicate Charged(x: View, w: View, quota: nat, got: int) {
    && ViewOk(x) && ViewOk(w) && |x.chans| == |w.chans|
    && var n := |x.chans|;
    got == Delivered(w, n) - Delivered(x, n) + (Calls(w, n) - Calls(x, n)) * quota
  }

  lemma ChargedAdd(v: View, x: View, w: View, quota: nat, got: int, more: int)
    requires Charged(v, x, quota, got) && Charged(x, w, quota, more)
    ensures Charged(v, w, quota, got + more)
  {
    hide ChanOk, Delivered, Calls;
    var n := |v.chans|;
    var a, b := Calls(x, n) - Calls(v, n), Calls(w, n) - Calls(x, n);
    assert (a + b) * quota == a * quota + b * quota;
  }

  lemma ScanCharged(x: View, w: View, quota: nat, got: nat, c: nat)
    requires Scanned(x, w, quota, got, c)
    ensures Charged(x, w, quota, got) && got <= quota
  {
    hide ChanOk;
    TotalsChange(x, w, c, |x.chans|);
    if w.chans[c].Unmanaged? {
      assert w.callbacks[c] - x.callbacks[c] == 0 || w.callbacks[c] - x.callbacks[c] == 1;
    }
  }

  predicate NoneChanged(chans: seq<Chan>) {
    forall c :: 0 <= c < |chans| ==> !Changed(chans[c])
  }

  /** The unmanaged channels with a changed counter among the first n. */
  function ChangedCount(chans: seq<Chan>, n: nat): nat
    requires n <= |chans|
  {
    if n == 0 then 0 else ChangedCount(chans, n - 1) + if Changed(chans[n - 1]) then 1 else 0
  }

  lemma {:induction false} ChangedCountZero(chans: seq<Chan>, n: nat)
    requires n <= |chans|
    ensures ChangedCount(chans, n) == 0 <==> forall c :: 0 <= c < n ==> !Changed(chans[c])
  {
    if n > 0 {
      ChangedCountZero(chans, n - 1);
    }
  }

  /** With a silent peer a round calls every changed channel back once, and no counter is left changed. */
  lemma {:induction false} QuietCalls(x: View, w: View, traffic: Traffic, quota: nat, n: nat)
    requires Later(x, w, traffic) && Quiet(traffic, |x.chans|) && n <= |x.chans|
    requires AllServed(x, w, quota, |x.chans|) && AllLooked(x, w, |x.chans|)
    ensures Calls(w, n) - Calls(x, n) == ChangedCount(x.chans, n)
    ensures forall c :: 0 <= c < n ==> !Changed(w.chans[c])
    decreases n
  {
    if n > 0 {
      var c := n - 1;
      QuietCalls(x, w, traffic, quota, c);
      assert ChanLater(x, w, traffic, c) && QuietOn(traffic, c) && Served(x, w, quota, c);
      assert ChanOk(w.chans[c], w.arrived[c], w.noticed[c]);
      NothingSent(traffic, c, x.clock, w.clock);
      if x.chans[c].Unmanaged? {
        AddTwice(w.chans[c].seen, 0, 0);
      }
    }
  }

  lemma {:induction false} QuietStays(x: View, w: View, traffic: Traffic, n: nat)
    requires Later(x, w, traffic) && Quiet(traffic, |x.chans|) && NoneChanged(x.chans) && n <= |x.chans|
    ensures Calls(w, n) == Calls(x, n) && forall c :: 0 <= c < n ==> !Changed(w.chans[c])
    decreases n
  {
    if n > 0 {
      var c := n - 1;
      QuietStays(x, w, traffic, c);
      assert ChanLater(x, w, traffic, c) && QuietOn(traffic, c);
      assert ChanOk(x.chans[c], x.arrived[c], x.noticed[c]);
      NothingSent(traffic, c, x.clock, w.clock);
      if x.chans[c].Unmanaged? {
        AddTwice(x.chans[c].tx, 0, 0);
      }
    }
  }

  /** What one round reports, as a relation between the views before and after it. */
  ghost predicate RoundDone(x: View, w: View, traffic: Traffic, quota: nat, got: nat, more: bool) {
    && Later(x, w, traffic) && got <= |x.chans| * quota
    && AllServed(x, w, quota, |x.chans|) && AllLooked(x, w, |x.chans|) && (!more ==> AllDrained(x, w, |x.chans|))
    && Charged(x, w, quota, got)
  }

  /** The count covers what was handled, is exact without callbacks, and is known exactly with a silent peer. */
  ghost predicate Tallies(v: View, w: View, traffic: Traffic, budget: nat, work: nat) {
    && ViewOk(v) && ViewOk(w) && |v.chans| == |w.chans|
    && var n := |v.chans|;
    var messages, calls := Delivered(w, n) - Delivered(v, n), Calls(w, n) - Calls(v, n);
    && 0 <= messages && 0 <= calls && messages + calls <= work
    && (calls == 0 ==> work == messages)
    && (Quiet(traffic, n) ==>
          && calls == ChangedCount(v.chans, n) && NoneChanged(w.chans)
          && work == messages + calls * Share(budget, n))
  }

  /** What holds of ipc_shm_rx after each round, relative to its start. */
  ghost predicate RxProgress(v: View, w: View, traffic: Traffic, budget: nat, work: nat, more: bool) {
    && Later(v, w, traffic) && work <= budget + |v.chans| - 1
    && Fair(v, w, budget) && (!more ==> AllDrained(v, w, |v.chans|))
    && Tallies(v, w, traffic, budget, work)
  }

  lemma AtLeastOnce(calls: nat, quota: nat)
    requires quota >= 1
    ensures calls <= calls * quota && 0 * quota == 0
  {
  }

  lemma FirstTallies(v: View, w: View, traffic: Traffic, budget: nat, got: nat)
    requires Later(v, w, traffic) && AllServed(v, w, Share(budget, |v.chans|), |v.chans|) && AllLooked(v, w, |v.chans|)
    requires Charged(v, w, Share(budget, |v.chans|), got)
    ensures Tallies(v, w, traffic, budget, got)
  {
    hide ChanLater, Served, Delivered, Calls, Share, ChangedCount, ChanOk;
    var n := |v.chans|;
    TotalsGrow(v, w, traffic, n);
    AtLeastOnce(Calls(w, n) - Calls(v, n), Share(budget, n));
    if Quiet(traffic, n) {
      QuietCalls(v, w, traffic, Share(budget, n), n);
    }
  }

  lemma RxFirstRound(v: View, w: View, traffic: Traffic, budget: nat, got: nat, more: bool)
    requires budget >= 1 && ViewOk(v) && RoundDone(v, w, traffic, Share(budget, |v.chans|), got, more)
    ensures RxProgress(v, w, traffic, budget, got, more)
  {
    hide Later, AllServed, AllLooked, AllDrained, Charged, Tallies, Share, Fair;
    ShareBound(budget, |v.chans|, 0);
    ShareIsFair(v, w, budget);
    FirstTallies(v, w, traffic, budget, got);
  }

  lemma NextTallies(v: View, x: View, w: View, traffic: Traffic, budget: nat, work: nat, quota: nat, got: nat)
    requires quota >= 1 && Later(v, x, traffic) && Later(x, w, traffic)
    requires Tallies(v, x, traffic, budget, work) && Charged(x, w, quota, got)
    ensures Tallies(v, w, traffic, budget, work + got)
  {
    hide ChanLater, Delivered, Calls, Share, ChangedCount, ChanOk;
    var n := |v.chans|;
    TotalsGrow(x, w, traffic, n);
    AtLeastOnce(Calls(w, n) - Calls(x, n), quota);
    if Quiet(traffic, n) {
      QuietStays(x, w, traffic, n);
    }
  }

  lemma RxNextRound(v: View, x: View, w: View, traffic: Traffic, budget: nat, work: nat, got: nat, more: bool)
    requires work < budget && RxProgress(v, x, traffic, budget, work, true)
    requires RoundDone(x, w, traffic, Share(budget - work, |x.chans|), got, more)
    ensures RxProgress(v, w, traffic, budget, work + got, more)
  {
    assert |v.chans| == |x.chans|;
    hide Later, AllServed, AllLooked, AllDrained, Charged, Tallies, Share, Fair;
    ShareBound(budget - work, |v.chans|, 0);
    LaterTransitive(v, x, w, traffic);
    FairPersists(v, x, w, traffic, budget);
    AllDrainedExtends(v, x, w, traffic);
    NextTallies(v, x, w, traffic, budget, work, Share(budget - work, |x.chans|), got);
  }

  // ---------- The count of a poll ----------

  /** Messages queued on the first n channels. */
  function Pending(chans: seq<Chan>, n: nat): nat
    requires n <= |chans|
  {
    if n == 0 then 0 else Pending(chans, n - 1) + if chans[n - 1].Managed? then |chans[n - 1].queue| else 0
  }

  /** With a silent peer no more than what was queued is delivered, and all of it if drained. */
  lemma {:induction false} QuietCount(v: View, w: View, traffic: Traffic, n: nat)
    requires Later(v, w, traffic) && Quiet(traffic, |v.chans|) && n <= |v.chans|
    ensures Delivered(w, n) <= Delivered(v, n) + Pending(v.chans, n)
    ensures AllDrained(v, w, n) ==> Delivered(w, n) == Delivered(v, n) + Pending(v.chans, n)
    decreases n
  {
    if n > 0 {
      QuietCount(v, w, traffic, n - 1);
      assert ChanLater(v, w, traffic, n - 1) && QuietOn(traffic, n - 1);
      NothingSent(traffic, n - 1, v.clock, w.clock);
      assert v.chans[n - 1].Managed? ==> Accepted(v, n - 1) == Accepted(w, n - 1);
      assert AllDrained(v, w, n) ==> Drained(v, w, n - 1);
    }
  }

  const EOPNOTSUPP_CODE: int := 95
  const EINVAL_CODE: int := 22

  /** Conversion of a small count to int8_t. */
  function ToInt8(x: nat): (r: int)
    ensures r == x <==> x < 128
    ensures 128 <= x < 256 ==> r == x - 256
  {
    var low := x % 256;
    if low < 128 then low else low - 256
  }

  /** What the callbacks of a poll of n channels are charged. */
  function Charge(calls: nat, n: nat): nat
    requires n >= 1
  {
    calls * (IPC_SOFTIRQ_BUDGET / n)
  }

  /** What the int8_t result says about a call with a silent peer, for any mix of channels. */
  ghost predicate PollSays(v: View, w: View, r: int) {
    && ViewOk(v) && ViewOk(w) && |v.chans| == |w.chans|
    && var n := |v.chans|;
    var messages, calls, pending := Delivered(w, n) - Delivered(v, n), Calls(w, n) - Calls(v, n), Pending(v.chans, n);
    && 0 <= messages <= pending && calls == ChangedCount(v.chans, n)
    && r == ToInt8(messages + Charge(calls, n))
    && (r == messages + calls <==> pending < 128 && calls == 0)
    && (calls == 0 ==> if pending < 128 then r == messages == pending else r < 0)
  }

  lemma ShareOfBudget(n: nat, calls: nat)
    requires 1 <= n <= IPC_SHM_MAX_CHANNELS
    ensures Share(IPC_SOFTIRQ_BUDGET, n) == 128 / n >= 16 && Charge(calls, n) == calls * Share(IPC_SOFTIRQ_BUDGET, n)
    ensures if calls > 0 then Charge(calls, n) >= calls + 15 else Charge(calls, n) == 0
  {
    assert n * 16 <= 128;
    if calls > 0 {
      TimesMonotone(calls, 16, 128 / n);
    }
  }

  lemma PollResult(v: View, w: View, traffic: Traffic, work: nat)
    requires |v.chans| <= IPC_SHM_MAX_CHANNELS
    requires RxProgress(v, w, traffic, IPC_SOFTIRQ_BUDGET, work, work >= IPC_SOFTIRQ_BUDGET)
    ensures work <= 135 && (ToInt8(work) >= 0 ==> AllDrained(v, w, |v.chans|))
    ensures Quiet(traffic, |v.chans|) ==> PollSays(v, w, ToInt8(work))
  {
    hide ChanLater, Delivered, Calls, Share, ChangedCount, ChanOk, Pending, Fair, AllDrained, Charge;
    var n := |v.chans|;
    if Quiet(traffic, n) {
      QuietCount(v, w, traffic, n);
      ShareOfBudget(n, Calls(w, n) - Calls(v, n));
    }
  }

  class Instance {
    var used: bool
    var chans: seq<Chan>
    var delivered: seq<seq<Bd>>
    var callbacks: seq<nat>
    var arrived: seq<nat>
    var noticed: seq<nat>
    var clock: nat

    constructor (chans: seq<Chan>)
      requires |chans| >= 1 && forall c :: 0 <= c < |chans| ==> TxOk(chans[c])
      ensures used && ViewOk(Now()) && this.chans == chans && clock == 0
      ensures forall c :: 0 <= c < |chans| ==> delivered[c] == [] && callbacks[c] == 0
    {
      used, this.chans, clock := true, chans, 0;
      delivered := seq(|chans|, _ => []);
      callbacks := seq(|chans|, _ => 0);
      noticed := seq(|chans|, _ => 0);
      arrived := seq(|chans|, c requires 0 <= c < |chans| => if chans[c].Managed? then 0 else Gap(chans[c]));
    }

    function Now(): View
      reads this
    {
      View(chans, delivered, callbacks, arrived, noticed, clock)
    }

    /** What decides the course of the loop, with `work` counted so far. */
    function Counted(work: nat): (count: Count)
      reads this
      ensures |count.chans| == |chans|
    {
      Count(Loads(chans), clock, work)
    }

    /** Time passes on the peer's side. */
    method Tick(traffic: Traffic)
      requires ViewOk(Now())
      modifies this`chans, this`arrived, this`clock
      ensures Later(old(Now()), Now(), traffic) && clock == old(clock) + 1
      ensures Loads(chans) == Arrive(Loads(old(chans)), Sizes(traffic), old(clock))
    {
      TickLater(Now(), traffic);
      hide *;
      var after := Ticked(Now(), traffic);
      chans, arrived, clock := after.chans, after.arrived, after.clock;
    }

    /**
     Managed: delivers in order until the budget is used up or the queue is found empty.
     Unmanaged: one callback, charged as the whole budget, if the Tx counter is found changed.
     */
    method ChannelRx(traffic: Traffic, c: nat, budget: nat, ghost sofar: nat) returns (work: nat)
      requires ViewOk(Now()) && c < |chans|
      modifies this`chans, this`delivered, this`callbacks, this`arrived, this`noticed, this`clock
      ensures Later(old(Now()), Now(), traffic) && Scanned(old(Now()), Now(), budget, work, c)
      ensures Counted(sofar + work) == Serve(old(Counted(sofar)), Sizes(traffic), c, budget)
    {
      hide Scan, Look, Later, Scanned, ViewOk;
      if chans[c].Unmanaged? {
        work := UnmanagedRx(traffic, c, budget, sofar);
      } else {
        work := ManagedRx(traffic, c, budget, sofar);
      }
    }

    method UnmanagedRx(traffic: Traffic, c: nat, budget: nat, ghost sofar: nat) returns (work: nat)
      requires ViewOk(Now()) && c < |chans| && chans[c].Unmanaged?
      modifies this`chans, this`callbacks, this`arrived, this`noticed, this`clock
      ensures Later(old(Now()), Now(), traffic) && Scanned(old(Now()), Now(), budget, work, c)
      ensures Counted(sofar + work) == Look(old(Counted(sofar)), Sizes(traffic), c, budget)
    {
      hide ChanLater, ChanOk, Scanned;
      Tick(traffic);
      LaterKeepsKinds(old(Now()), Now(), traffic);
      label L:
      work := 0;
      var remote := chans[c].tx;
      if remote != chans[c].seen {
        chans := chans[c := Unmanaged(remote, remote)];
        callbacks := callbacks[c := callbacks[c] + 1];
        work := budget;
        assert Loads(chans) == Loads(old@L(chans))[c := Counter(remote, remote)];
      }
      noticed := noticed[c := arrived[c]];
      LookedAt(old(Now()), old@L(Now()), traffic, c, budget);
      assert Now() == Looked(old@L(Now()), c);
    }

    /** One turn of the loop for managed channels: a pop and, if it succeeds, the callback. */
    method PopOnce(traffic: Traffic, c: nat, ghost left: nat, ghost sofar: nat) returns (ok: bool)
      requires ViewOk(Now()) && c < |chans| && chans[c].Managed? && left >= 1
      modifies this`chans, this`delivered, this`arrived, this`clock
      ensures Later(old(Now()), Now(), traffic) && |chans| == old(|chans|) && chans[c].Managed?
      ensures ViewOk(Now()) && delivered == old(delivered)[c := delivered[c]]
      ensures |delivered[c]| == old(|delivered[c]|) + (if ok then 1 else 0) && (ok || chans[c].queue == [])
      ensures Scan(old(Counted(sofar)), Sizes(traffic), c, left) ==
              if ok then Scan(Counted(sofar + 1), Sizes(traffic), c, left - 1) else Counted(sofar)
    {
      hide ChanLater, ChanOk, Arrive, Sizes;
      Tick(traffic);
      LaterKeepsKinds(old(Now()), Now(), traffic);
      if chans[c].queue == [] {
        return false;
      }
      label L:
      TakenLater(Now(), traffic, c);
      var queue := chans[c].queue;
      chans := chans[c := Managed(queue[1..])];
      delivered := delivered[c := delivered[c] + [queue[0]]];
      assert Now() == Taken(old@L(Now()), c);
      LaterTransitive(old(Now()), old@L(Now()), Now(), traffic);
      ok := true;
    }

    method ManagedRx(traffic: Traffic, c: nat, budget: nat, ghost sofar: nat) returns (work: nat)
      requires ViewOk(Now()) && c < |chans| && chans[c].Managed?
      modifies this`chans, this`delivered, this`arrived, this`clock
      ensures Later(old(Now()), Now(), traffic) && Scanned(old(Now()), Now(), budget, work, c)
      ensures Counted(sofar + work) == Scan(old(Counted(sofar)), Sizes(traffic), c, budget)
    {
      hide Later, ChanOk, Scan;
      work := 0;
      LaterReflexive(Now(), traffic);
      while work < budget
        invariant work <= budget && Later(old(Now()), Now(), traffic) && ViewOk(Now())
        invariant c < |chans| == old(|chans|) == |delivered| == |callbacks| && chans[c].Managed?
        invariant delivered == old(delivered)[c := delivered[c]]
        invariant |delivered[c]| == old(|delivered[c]|) + work
        invariant Scan(Counted(sofar + work), Sizes(traffic), c, budget - work) ==
                  Scan(old(Counted(sofar)), Sizes(traffic), c, budget)
      {
        label L:
        var ok := PopOnce(traffic, c, budget - work, sofar + work);
        LaterTransitive(old(Now()), old@L(Now()), Now(), traffic);
        if !ok {
          return;
        }
        work := work + 1;
      }
      ScanNothing(Counted(sofar + work), Sizes(traffic), c);
    }

    /** One pass over all channels, the inner loop of ipc_shm_rx. */
    method Round(traffic: Traffic, budget: nat, ghost sofar: nat) returns (work: nat, more: bool)
      requires ViewOk(Now()) && budget >= 1
      modifies this`chans, this`delivered, this`callbacks, this`arrived, this`noticed, this`clock
      ensures Later(old(Now()), Now(), traffic) && ViewOk(Now()) && |chans| == old(|chans|)
      ensures RoundDone(old(Now()), Now(), traffic, budget, work, more)
      ensures more ==> work >= budget
      ensures (Counted(sofar + work), more) == RxCount.Round(old(Counted(sofar)), Sizes(traffic), budget, 0, false)
    {
      hide Serve, AllServed, AllDrained, AllLooked, ChanLater, Charged, Scanned, ChanOk;
      work, more := 0, false;
      LaterReflexive(Now(), traffic);
      RoundStart(Now(), budget);
      var c := 0;
      while c < |chans|
        invariant c <= |chans| == old(|chans|) && Later(old(Now()), Now(), traffic)
        invariant work <= c * budget && (more ==> work >= budget)
        invariant AllServed(old(Now()), Now(), budget, c) && AllLooked(old(Now()), Now(), c)
        invariant !more ==> AllDrained(old(Now()), Now(), c)
        invariant Charged(old(Now()), Now(), budget, work)
        invariant RxCount.Round(Counted(sofar + work), Sizes(traffic), budget, c, more) ==
                  RxCount.Round(old(Counted(sofar)), Sizes(traffic), budget, 0, false)
      {
        label L:
        var got := ChannelRx(traffic, c, budget, sofar + work);
        RoundStep(old(Now()), old@L(Now()), Now(), traffic, budget, got, c);
        ScanCharged(old@L(Now()), Now(), budget, got, c);
        ChargedAdd(old(Now()), old@L(Now()), Now(), budget, work, got);
        assert (c + 1) * budget == c * budget + budget;
        work := work + got;
        if got == budget {
          more := true;
        }
        c := c + 1;
      }
    }

    /**
     The fair loop. Every channel gets its share whatever the others have pending; the peer cannot keep the
     loop going, because each further round uses up budget; the overshoot is less than one message per
     channel; and a return below the budget means that all that was pending at the call was taken notice of.
     The return is exactly the count of RxCount.
     */
    method ShmRx(traffic: Traffic, budget: nat) returns (work: nat)
      requires ViewOk(Now())
      modifies this`chans, this`delivered, this`callbacks, this`arrived, this`noticed, this`clock
      ensures !used ==> work == 0 && unchanged(this)
      ensures Later(old(Now()), Now(), traffic) && ViewOk(Now()) && |chans| == old(|chans|)
      ensures budget == 0 ==> work == 0
      ensures used && budget >= 1 ==> RxProgress(old(Now()), Now(), traffic, budget, work, work >= budget)
      ensures used ==> Counted(work) == Rx(old(Counted(0)), Sizes(traffic), budget, true)
    {
      hide Later, Fair, AllDrained, Tallies, Share, RxCount.Round, ChanOk, Loads, Sizes;
      LaterReflexive(Now(), traffic);
      work := 0;
      if !used {
        return;
      }
      var more, first := true, true;
      while work < budget && more
        invariant used && ViewOk(Now()) && |chans| == old(|chans|)
        invariant first ==> more && work == 0 && Now() == old(Now())
        invariant budget == 0 ==> first
        invariant !first ==> RxProgress(old(Now()), Now(), traffic, budget, work, more)
        invariant Rx(Counted(work), Sizes(traffic), budget, more) == Rx(old(Counted(0)), Sizes(traffic), budget, true)
        decreases more, budget - work
      {
        label L:
        hide RxProgress, RoundDone;
        var chanBudget := Share(budget - work, |chans|);
        var got;
        got, more := Round(traffic, chanBudget, work);
        if first {
          RxFirstRound(old(Now()), Now(), traffic, budget, got, more);
        } else {
          RxNextRound(old(Now()), old@L(Now()), Now(), traffic, budget, work, got, more);
        }
        work, first := work + got, false;
      }
    }

    /**
     ipc_os_poll_channels; `registered` is: init has stored the receive handler. The work count is returned as an
     int8_t. With a silent peer the caller gets the number of messages and callbacks handled if and only if fewer
     than 128 messages are queued and no unmanaged channel has a changed counter, since a callback is counted as a
     whole share of the budget.
     */
    method PollChannels(traffic: Traffic, irqConfigured: bool, registered: bool) returns (r: int)
      requires ViewOk(Now()) && |chans| <= IPC_SHM_MAX_CHANNELS
      modifies this`chans, this`delivered, this`callbacks, this`arrived, this`noticed, this`clock
      ensures irqConfigured ==> r == -EOPNOTSUPP_CODE && unchanged(this)
      ensures !irqConfigured && !registered ==> r == -EINVAL_CODE && unchanged(this)
      ensures !irqConfigured && registered && !used ==> r == 0 && unchanged(this)
      ensures !irqConfigured && registered && used ==>
                && Counted(0).chans == Rx(old(Counted(0)), Sizes(traffic), IPC_SOFTIRQ_BUDGET, true).chans
                && r == ToInt8(Rx(old(Counted(0)), Sizes(traffic), IPC_SOFTIRQ_BUDGET, true).work)
                && (r >= 0 ==> AllDrained(old(Now()), Now(), |chans|))
                && (Quiet(traffic, |chans|) ==> PollSays(old(Now()), Now(), r))
    {
      if irqConfigured {
        return -EOPNOTSUPP_CODE;
      }
      if !registered {
        return -EINVAL_CODE;
      }
      var work := ShmRx(traffic, IPC_SOFTIRQ_BUDGET);
      if used {
        PollResult(old(Now()), Now(), traffic, work);
      }
      hide *;
      r := ToInt8(work);
    }
  }

  lemma ScanNothing(s: Count, arrivals: Arrivals, c: nat)
    requires c < |s.chans| && s.chans[c].Queue?
    ensures Scan(s, arrivals, c, 0) == s
  {
  }

  lemma RoundStart(v: View, budget: nat)
    requires ViewOk(v)
    ensures AllServed(v, v, budget, 0) && AllLooked(v, v, 0) && AllDrained(v, v, 0) && Charged(v, v, budget, 0)
  {
  }

  /** One message on an unmanaged channel among n, the others empty: the poll handles it and returns 128 / n. */
  method PollOneCallback(n: nat) returns (r: int)
    requires 1 <= n <= IPC_SHM_MAX_CHANNELS
    ensures r == if n == 1 then -128 else 128 / n
  {
    var chans := [Unmanaged(1, 0)] + seq(n - 1, _ => Managed([]));
    var inst := new Instance(chans);
    assert Quiet(SILENCE, n);
    ghost var before := inst.Now();
    r := inst.PollChannels(SILENCE, false, true);
    OneCallback(chans, n);
    PollOfOneCallback(before, inst.Now(), r);
  }

  lemma PollOfOneCallback(v: View, w: View, r: int)
    requires PollSays(v, w, r) && |v.chans| <= IPC_SHM_MAX_CHANNELS
    requires ChangedCount(v.chans, |v.chans|) == 1 && Pending(v.chans, |v.chans|) == 0
    ensures r == if |v.chans| == 1 then -128 else 128 / |v.chans|
  {
    hide ChanOk, Delivered, Calls, ChangedCount, Pending;
    ShareOfBudget(|v.chans|, 1);
  }

  lemma {:induction false} OneCallback(chans: seq<Chan>, n: nat)
    requires 1 <= n <= |chans| && chans[0] == Unmanaged(1, 0)
    requires forall c :: 1 <= c < |chans| ==> chans[c] == Managed([])
    ensures ChangedCount(chans, n) == 1 && Pending(chans, n) == 0
  {
    if n > 1 {
      OneCallback(chans, n - 1);
    } else {
      assert ChangedCount(chans, 0) == Pending(chans, 0) == 0;
    }
  }

  /**
   With the budget of the tasklet and eight managed channels every count from 128 to 135, the most ipc_shm_rx can
   return, occurs; for 135 a message arrives between the two rounds.
   */
  method CountBeyondBudget(want: nat) returns (work: nat)
    requires IPC_SOFTIRQ_BUDGET <= want <= IPC_SOFTIRQ_BUDGET + IPC_SHM_MAX_CHANNELS - 1
    ensures work == want
  {
    var m := want - 127;
    var loads := Queued(m);
    var chans := seq(8, c requires 0 <= c < 8 => Managed(seq(loads[c].length, _ => Bd(0, 0, 1))));
    var inst := new Instance(chans);
    var traffic := (t, c) => if t == 128 && c == 7 && m == 8 then [Bd(0, 0, 1)] else [];
    assert inst.Counted(0).chans == Queued(m);
    assert IsLate(Sizes(traffic), m);
    hide Rx, Queued;
    TwoRounds(m, Sizes(traffic));
    work := inst.ShmRx(traffic, IPC_SOFTIRQ_BUDGET);
  }
}
