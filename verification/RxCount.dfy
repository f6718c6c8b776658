/**
 The receive loop of ipc-shm.c reduced to what decides its course: queue lengths, Tx counters and what the peer adds
 at each moment. From these follow the count that ipc_shm_rx returns and how far it can exceed the budget.
 */
module RxCount {
  import opened Types

  /** The queue of a managed channel, or the remote Tx counter and its copy of an unmanaged one. */
  datatype Chan = Queue(length: nat) | Counter(tx: nat, seen: nat)

  /** How many messages or counter bumps the peer adds at moment t on channel c. */
  type Arrivals = (nat, nat) -> nat

  datatype Count = Count(chans: seq<Chan>, clock: nat, work: nat)

  // ---------- The share of a channel ----------

  /** The equal share of a channel in what is left of the budget, at least one message. */
  function Share(left: nat, n: nat): (share: nat)
    requires n >= 1
    ensures share >= 1
  {
    var quota := left / n;
    if quota == 0 then 1 else quota
  }

  /** What every one of n channels may have: one message, or as many as n times that number does not exceed `left`. */
  predicate Affordable(left: nat, n: nat, quota: nat) {
    quota <= 1 || n * quota <= left
  }

  /**
   The share is the largest number every channel may have, so a round hands out no more than what is left, or one
   message per channel when less than that is left.
   */
  lemma ShareIsLargest(left: nat, n: nat)
    requires n >= 1
    ensures forall quota: nat :: Affordable(left, n, quota) <==> quota <= Share(left, n)
    ensures n * Share(left, n) <= if left < n then n else left
  {
    forall quota: nat ensures Affordable(left, n, quota) <==> quota <= Share(left, n) {
      ShareBound(left, n, quota);
    }
    ShareBound(left, n, 0);
  }

  lemma Quotient(left: nat, n: nat)
    requires n >= 1
    ensures n * (left / n) <= left < n * (left / n) + n
  {
  }

  lemma TimesMonotone(n: nat, a: nat, b: nat)
    requires a <= b
    ensures n * a <= n * b
  {
  }

  lemma ShareBound(left: nat, n: nat, quota: nat)
    requires n >= 1
    ensures Affordable(left, n, quota) <==> quota <= Share(left, n)
    ensures n * Share(left, n) <= if left < n then n else left
  {
    var share := left / n;
    Quotient(left, n);
    if quota <= share {
      TimesMonotone(n, quota, share);
    } else {
      TimesMonotone(n, share + 1, quota);
      assert n * (share + 1) == n * share + n;
    }
    if share >= 1 {
      TimesMonotone(n, 1, share);
    }
  }

  // ---------- The loop ----------

  function Arrived(ch: Chan, more: nat): (ch': Chan)
    ensures ch'.Queue? <==> ch.Queue?
  {
    match ch
    case Queue(length) => Queue(length + more)
    case Counter(tx, seen) => Counter(U32(tx + more), seen)
  }

  function Arrive(chans: seq<Chan>, arrivals: Arrivals, t: nat): (chans': seq<Chan>)
    ensures |chans'| == |chans|
    ensures forall c :: 0 <= c < |chans| ==> chans'[c] == Arrived(chans[c], arrivals(t, c))
  {
    seq(|chans|, c requires 0 <= c < |chans| => Arrived(chans[c], arrivals(t, c)))
  }

  /** The pop loop of ipc_channel_rx on channel c with `left` of its budget. */
  function Scan(s: Count, arrivals: Arrivals, c: nat, left: nat): (s': Count)
    requires c < |s.chans| && s.chans[c].Queue?
    ensures |s'.chans| == |s.chans| && s.work <= s'.work <= s.work + left
    decreases left
  {
    if left == 0 then s
    else
      var chans := Arrive(s.chans, arrivals, s.clock);
      if chans[c].length == 0 then Count(chans, s.clock + 1, s.work)
      else Scan(Count(chans[c := Queue(chans[c].length - 1)], s.clock + 1, s.work + 1), arrivals, c, left - 1)
  }

  /** The unmanaged part of ipc_channel_rx: a changed counter is charged as the whole budget. */
  function Look(s: Count, arrivals: Arrivals, c: nat, budget: nat): (s': Count)
    requires c < |s.chans| && s.chans[c].Counter?
    ensures |s'.chans| == |s.chans| && s.work <= s'.work <= s.work + budget
  {
    var chans := Arrive(s.chans, arrivals, s.clock);
    if chans[c].tx == chans[c].seen then Count(chans, s.clock + 1, s.work)
    else Count(chans[c := Counter(chans[c].tx, chans[c].tx)], s.clock + 1, s.work + budget)
  }

  /** ipc_channel_rx. */
  function Serve(s: Count, arrivals: Arrivals, c: nat, budget: nat): (s': Count)
    requires c < |s.chans|
    ensures |s'.chans| == |s.chans| && s.work <= s'.work <= s.work + budget
  {
    if s.chans[c].Queue? then Scan(s, arrivals, c, budget) else Look(s, arrivals, c, budget)
  }

  /** The rest of a round from channel c on. */
  function Round(s: Count, arrivals: Arrivals, budget: nat, c: nat, more: bool): (res: (Count, bool))
    requires c <= |s.chans|
    ensures |res.0.chans| == |s.chans| && s.work <= res.0.work
    ensures res.1 ==> more || s.work + budget <= res.0.work
    decreases |s.chans| - c
  {
    if c == |s.chans| then (s, more)
    else
      var s' := Serve(s, arrivals, c, budget);
      Round(s', arrivals, budget, c + 1, more || s'.work - s.work == budget)
  }

  /** ipc_shm_rx from a moment between two rounds. */
  function Rx(s: Count, arrivals: Arrivals, budget: nat, more: bool): (s': Count)
    requires |s.chans| >= 1
    decreases more, if budget > s.work then budget - s.work else 0
  {
    if s.work < budget && more then
      var (s', more') := Round(s, arrivals, Share(budget - s.work, |s.chans|), 0, false);
      Rx(s', arrivals, budget, more')
    else s
  }

  // ---------- The overshoot really occurs ----------

  ghost predicate Silent(arrivals: Arrivals, from: nat, to: nat, n: nat) {
    forall t, c :: from <= t < to && 0 <= c < n ==> arrivals(t, c) == 0
  }

  predicate Queues(chans: seq<Chan>) {
    forall c :: 0 <= c < |chans| ==> chans[c].Queue?
  }

  /** Without arrivals a scan takes what is queued, up to its budget; finding the queue empty costs one more look. */
  lemma {:induction false} ScanSilent(s: Count, arrivals: Arrivals, c: nat, left: nat)
    requires c < |s.chans| && Queues(s.chans) && Silent(arrivals, s.clock, s.clock + left, |s.chans|)
    ensures var took := Min(s.chans[c].length, left);
            Scan(s, arrivals, c, left) ==
            Count(s.chans[c := Queue(s.chans[c].length - took)],
                  s.clock + took + (if took < left then 1 else 0), s.work + took)
    decreases left
  {
    if left > 0 {
      assert Arrive(s.chans, arrivals, s.clock) == s.chans;
      if s.chans[c].length > 0 {
        var rest := Count(s.chans[c := Queue(s.chans[c].length - 1)], s.clock + 1, s.work + 1);
        ScanSilent(rest, arrivals, c, left - 1);
      }
    }
    assert s.chans[c := s.chans[c]] == s.chans;
  }

  /** Eight channels: the last holds 15 messages, and of the others the first m hold 17 and the rest 16. */
  function Queued(m: nat): (chans: seq<Chan>)
    ensures |chans| == IPC_SHM_MAX_CHANNELS && Queues(chans)
  {
    seq(8, c => Queue(if c == 7 then 15 else if c < m then 17 else 16))
  }

  /** If all eight are to be served twice: one message for the last channel, as soon as the first round is over. */
  ghost predicate IsLate(arrivals: Arrivals, m: nat) {
    forall t, c :: arrivals(t, c) == if t == 128 && c == 7 && m == 8 then 1 else 0
  }

  /** Before channel c is scanned in the first round. */
  function InRoundOne(m: nat, c: nat): Count {
    Count(seq(8, j requires 0 <= j < 8 => if j >= c then Queued(m)[j] else Queue(if j < m && j < 7 then 1 else 0)),
          16 * c, if c == 8 then 127 else 16 * c)
  }

  lemma ServeInRoundOne(m: nat, arrivals: Arrivals, c: nat)
    requires IsLate(arrivals, m) && m <= 8 && c < 8
    ensures Serve(InRoundOne(m, c), arrivals, c, 16) == InRoundOne(m, c + 1)
  {
    hide Scan;
    var s := InRoundOne(m, c);
    assert s.chans[c] == Queued(m)[c];
    var took := Min(s.chans[c].length, 16);
    ScanSilent(s, arrivals, c, 16);
    var next := InRoundOne(m, c + 1).chans;
    forall j | 0 <= j < 8 ensures s.chans[c := Queue(s.chans[c].length - took)][j] == next[j] {
      assert j > c ==> next[j] == Queued(m)[j] == s.chans[j];
    }
    assert s.chans[c := Queue(s.chans[c].length - took)] == next;
  }

  lemma {:induction false} RoundOne(m: nat, arrivals: Arrivals, c: nat)
    requires IsLate(arrivals, m) && m <= 8 && c <= 8
    ensures Round(InRoundOne(m, c), arrivals, 16, c, c > 0) == (InRoundOne(m, 8), true)
    decreases 8 - c
  {
    hide Serve;
    if c < 8 {
      ServeInRoundOne(m, arrivals, c);
      RoundOne(m, arrivals, c + 1);
    }
  }

  /** Before channel c is scanned in the second round, with one message per channel to give. */
  function InRoundTwo(m: nat, c: nat): Count {
    Count(seq(8, j requires 0 <= j < 8 => Queue(if c <= j < m && (j < 7 || c > 0) then 1 else 0)),
          128 + c, 127 + Min(c, m))
  }

  lemma ServeInRoundTwo(m: nat, arrivals: Arrivals, c: nat)
    requires IsLate(arrivals, m) && m <= 8 && c < 8
    ensures Serve(InRoundTwo(m, c), arrivals, c, 1) == InRoundTwo(m, c + 1)
  {
    var s := InRoundTwo(m, c);
    var chans := Arrive(s.chans, arrivals, s.clock);
    assert chans[c := Queue(0)] == InRoundTwo(m, c + 1).chans;
    assert c >= m ==> chans == InRoundTwo(m, c + 1).chans;
  }

  lemma {:induction false} RoundTwo(m: nat, arrivals: Arrivals, c: nat, more: bool)
    requires IsLate(arrivals, m) && 1 <= m <= 8 && c <= 8 && (c > 0 ==> more)
    ensures Round(InRoundTwo(m, c), arrivals, 1, c, more) == (InRoundTwo(m, 8), true)
    decreases 8 - c
  {
    hide Serve;
    if c < 8 {
      ServeInRoundTwo(m, arrivals, c);
      RoundTwo(m, arrivals, c + 1, true);
    }
  }

  lemma RoundStates(m: nat)
    requires m <= 8
    ensures InRoundOne(m, 0) == Count(Queued(m), 0, 0) && InRoundOne(m, 8) == InRoundTwo(m, 0)
    ensures InRoundTwo(m, 0).work == 127 && InRoundTwo(m, 8).work == 127 + m
    ensures |InRoundTwo(m, 0).chans| == 8
  {
    assert InRoundOne(m, 0).chans == Queued(m);
    assert InRoundOne(m, 8).chans == InRoundTwo(m, 0).chans;
  }

  /** A first round of 127 and a second one of m: with eight channels the count overshoots the budget by m - 1. */
  lemma TwoRounds(m: nat, arrivals: Arrivals)
    requires IsLate(arrivals, m) && 1 <= m <= 8
    ensures Rx(Count(Queued(m), 0, 0), arrivals, IPC_SOFTIRQ_BUDGET, true).work == 127 + m
  {
    hide Round, InRoundOne, InRoundTwo;
    var one, two := InRoundOne(m, 0), InRoundTwo(m, 0);
    RoundStates(m);
    RoundOne(m, arrivals, 0);
    RoundTwo(m, arrivals, 0, false);
    assert Share(128, 8) == 16 && Share(1, 8) == 1;
    assert Rx(one, arrivals, 128, true) == Rx(two, arrivals, 128, true);
    assert Rx(two, arrivals, 128, true) == InRoundTwo(m, 8);
  }
}
