/**
 What a restarting side finds in its acquire ring. ipc_queue_sync_index points the read index of a pool
 queue one past the peer's write index, so the last N descriptors the peer pushed are offered again.
 One direction of one pool: `ring` is written by the releasing side and read by the acquiring side.
 */
module Resync {
  import opened Types
  import opened Fifo
  import opened Handshake

  /**
   `pushed` starts with the n - 1 ids the ring offered when the current epoch (since the last restart of
   either side) began and continues with the ids released since; `acquired` are the ids popped since.
   */
  datatype Pool = Pool(ring: Ring<nat>, pushed: seq<nat>, acquired: seq<nat>)

  datatype Action =
    | Acquire
    | Release(bufId: nat)
    | RestartAcquirer
    | RestartReleaser

  function Iota(n: nat): (s: seq<nat>)
    ensures |s| == n && forall i :: 0 <= i < n ==> s[i] == i
  {
    seq(n, i requires 0 <= i < n => i)
  }

  /** The ring as an acquirer restarting against a live releaser sees it. */
  function Resynced(r: Ring<nat>): Ring<nat>
    requires r.n > 0
  {
    r.(read := SyncIndex(CLEARED, Header(Done, r.write, 0), PoolQueue, r.n).0.read)
  }

  ghost predicate Permutation(s: seq<nat>, n: nat) {
    multiset(s) == multiset(Iota(n))
  }

  /** The ring after a releaser restarted against a live acquirer: synchronised, then populated. */
  function Repopulated(r: Ring<nat>): (r': Ring<nat>)
    requires |r.slots| == r.n > 0
    ensures |r'.slots| == r'.n == r.n
  {
    var head := SyncIndex(CLEARED, Header(Done, 0, r.read), PoolQueue, r.n).0;
    PushAll(r.(write := head.write), Iota(r.n - 1)).0
  }

  function Apply(p: Pool, act: Action): (p': Pool)
    requires |p.ring.slots| == p.ring.n > 0
    ensures |p'.ring.slots| == p'.ring.n == p.ring.n
  {
    match act
    case Acquire =>
      var (ring, e) := Fifo.Pop(p.ring);
      if e.Err? then p else p.(ring := ring, acquired := p.acquired + [e.value])
    case Release(bufId) =>
      var (ring, e) := Fifo.Push(p.ring, bufId);
      if e.Err? then p else p.(ring := ring, pushed := p.pushed + [bufId])
    case RestartAcquirer =>
      var ring := Resynced(p.ring);
      Pool(ring, if ring.read < ring.n && ring.write < ring.n then Contents(ring) else [], [])
    case RestartReleaser => Pool(Repopulated(p.ring), Iota(p.ring.n - 1), [])
  }

  function Exec(p: Pool, acts: seq<Action>): (p': Pool)
    requires |p.ring.slots| == p.ring.n > 0
    ensures |p'.ring.slots| == p'.ring.n == p.ring.n
  {
    if acts == [] then p else Apply(Exec(p, acts[..|acts| - 1]), acts[|acts| - 1])
  }

  /** A pool of n - 1 buffers just populated by its releaser. */
  ghost predicate Fresh(p: Pool) {
    && Valid(p.ring) && p.ring.n >= 2
    && p.pushed == Iota(p.ring.n - 1) && p.acquired == []
    && Contents(p.ring) == p.pushed
  }

  ghost predicate Inv(p: Pool) {
    && Valid(p.ring) && p.ring.n >= 2 && 0 <= Released(p) <= |p.acquired| <= |p.pushed|
    && p.acquired == p.pushed[..|p.acquired|]
    && Contents(p.ring) == p.pushed[|p.acquired|..]
    && Offered(p) == p.pushed[Released(p)..]
  }

  /** How many releases the epoch has seen. */
  function Released(p: Pool): int { |p.pushed| - (p.ring.n - 1) }

  /** What a restart of the acquirer would put in its acquire ring now. */
  function Offered(p: Pool): (s: seq<nat>)
    requires Valid(p.ring)
    ensures |s| == p.ring.n - 1
  {
    NextWraps(p.ring.write, p.ring.n);
    Contents(Resynced(p.ring))
  }

  /** A release is in order when it returns the oldest acquired buffer that is still out, or is refused. */
  predicate InOrder(p: Pool, act: Action) {
    act.Release? ==>
      Released(p) == |p.acquired| || (0 <= Released(p) < |p.acquired| && act.bufId == p.acquired[Released(p)])
  }

  lemma FreshIsInv(p: Pool)
    requires Fresh(p)
    ensures Inv(p) && Offered(p) == p.pushed
  {
    NextWraps(p.ring.write, p.ring.n);
    assert Resynced(p.ring) == p.ring;
  }

  /** Pushing slides the offered window by one, whether or not anything was acquired. */
  lemma PushSlides(r: Ring<nat>, x: nat)
    requires Valid(r) && r.n >= 2 && Fifo.Push(r, x).1.Ok?
    ensures Valid(Resynced(r)) && Valid(Resynced(Fifo.Push(r, x).0))
    ensures |Contents(Resynced(r))| == r.n - 1
    ensures Contents(Resynced(Fifo.Push(r, x).0)) == Contents(Resynced(r))[1..] + [x]
  {
    NextWraps(r.write, r.n);
    NextWraps(Next(r.write, r.n), r.n);
    WindowSlides(r.slots, r.n, r.write, x);
  }

  /** The slots behind a write index, oldest first. */
  function Behind(slots: seq<nat>, write: nat): (s: seq<nat>)
    requires write < |slots|
    ensures |s| == |slots| - 1
  {
    slots[write + 1..] + slots[..write]
  }

  lemma WindowSlides(slots: seq<nat>, n: nat, w: nat, x: nat)
    requires |slots| == n >= 2 && w < n
    ensures Behind(slots[w := x], Next(w, n)) == Behind(slots, w)[1..] + [x]
    ensures Contents(Ring(n, slots, w, Next(w, n))) == Behind(slots, w)
    ensures Contents(Ring(n, slots[w := x], Next(w, n), Next(Next(w, n), n))) == Behind(slots[w := x], Next(w, n))
  {
    if w + 1 == n {
      assert slots[w := x][..w] == slots[..w];
    }
  }

  /** Appending to a log appends to each of its tails. */
  lemma TailOfAppend(s: seq<nat>, x: nat, k: nat)
    requires k <= |s|
    ensures (s + [x])[k..] == s[k..] + [x] && (s + [x])[..k] == s[..k]
    ensures k < |s| ==> (s + [x])[k + 1..] == s[k..][1..] + [x]
  {
  }

  lemma ReleaseKeepsInv(p: Pool, bufId: nat)
    requires Inv(p)
    ensures Inv(Apply(p, Release(bufId)))
    ensures Apply(p, Release(bufId)) == p <==> Released(p) == |p.acquired|
    ensures Released(p) < |p.acquired| ==>
              Offered(Apply(p, Release(bufId))) == Offered(p)[1..] + [bufId]
  {
    hide Contents;
    PushAppends(p.ring, bufId);
    if Released(p) < |p.acquired| {
      PushSlides(p.ring, bufId);
      TailOfAppend(p.pushed, bufId, |p.acquired|);
      TailOfAppend(p.pushed, bufId, Released(p));
    }
  }

  lemma SplitAt(s: seq<nat>, k: nat)
    requires k < |s|
    ensures s[..k + 1] == s[..k] + [s[k]]
    ensures s[k..] == [s[k]] + s[k + 1..]
  {
  }

  lemma AcquireKeepsInv(p: Pool)
    requires Inv(p)
    ensures Inv(Apply(p, Acquire)) && Offered(Apply(p, Acquire)) == Offered(p)
    ensures Apply(p, Acquire).pushed == p.pushed
    ensures |Apply(p, Acquire).acquired| == Min(|p.acquired| + 1, |p.pushed|)
  {
    hide Contents;
    PopTakesHead(p.ring);
    if |p.acquired| < |p.pushed| {
      SplitAt(p.pushed, |p.acquired|);
      assert Resynced(Fifo.Pop(p.ring).0) == Resynced(p.ring);
    }
  }

  lemma RestartsKeepInv(p: Pool, act: Action)
    requires Inv(p) && (act.RestartAcquirer? || act.RestartReleaser?)
    ensures Inv(Apply(p, act))
    ensures act.RestartAcquirer? ==> Contents(Apply(p, act).ring) == Offered(Apply(p, act)) == Offered(p)
    ensures act.RestartReleaser? ==> Offered(Apply(p, act)) == Iota(p.ring.n - 1)
  {
    NextWraps(p.ring.write, p.ring.n);
    if act.RestartAcquirer? {
      assert Resynced(Resynced(p.ring)) == Resynced(p.ring);
    } else {
      var start := p.ring.(write := p.ring.read);
      assert Contents(start) == [];
      PushAllAppends(start, Iota(p.ring.n - 1));
      assert [] + Iota(p.ring.n - 1) == Iota(p.ring.n - 1);
      FreshIsInv(Apply(p, act));
    }
  }

  lemma ApplyKeepsInv(p: Pool, act: Action)
    requires Inv(p)
    ensures Inv(Apply(p, act))
  {
    match act
    case Acquire => AcquireKeepsInv(p);
    case Release(bufId) => ReleaseKeepsInv(p, bufId);
    case RestartAcquirer => RestartsKeepInv(p, act);
    case RestartReleaser => RestartsKeepInv(p, act);
  }

  lemma SlideIsPermutationIffHead(s: seq<nat>, x: nat, n: nat)
    requires s != [] && Permutation(s, n)
    ensures Permutation(s[1..] + [x], n) <==> x == s[0]
  {
    assert s == [s[0]] + s[1..];
    var rest := multiset(s[1..]);
    assert multiset(s) == rest + multiset{s[0]} && multiset(s[1..] + [x]) == rest + multiset{x};
    if multiset(s[1..] + [x]) == multiset(s) {
      assert multiset(s[1..] + [x])[x] == rest[x] + 1;
    }
  }

  lemma ReleaseIsSafeIffInOrder(p: Pool, bufId: nat)
    requires Safe(p)
    ensures Safe(Apply(p, Release(bufId))) <==> InOrder(p, Release(bufId))
  {
    hide Contents, Apply, Offered, Permutation;
    ReleaseKeepsInv(p, bufId);
    if Released(p) < |p.acquired| {
      SlideIsPermutationIffHead(Offered(p), bufId, p.ring.n - 1);
      assert Offered(p)[0] == p.pushed[Released(p)] == p.acquired[Released(p)];
    }
  }

  /** From a good state one action leads to a good state exactly when it is in order. */
  lemma StepIsSafeIffInOrder(p: Pool, act: Action)
    requires Safe(p)
    ensures Safe(Apply(p, act)) <==> InOrder(p, act)
  {
    hide Inv, Apply, Offered;
    match act
    case Acquire => AcquireKeepsInv(p);
    case Release(bufId) => ReleaseIsSafeIffInOrder(p, bufId);
    case RestartAcquirer => RestartsKeepInv(p, act);
    case RestartReleaser => RestartsKeepInv(p, act);
  }

  lemma {:induction false} ExecKeepsInv(p: Pool, acts: seq<Action>)
    requires Fresh(p)
    ensures Inv(Exec(p, acts))
  {
    if acts == [] {
      FreshIsInv(p);
    } else {
      ExecKeepsInv(p, acts[..|acts| - 1]);
      ApplyKeepsInv(Exec(p, acts[..|acts| - 1]), acts[|acts| - 1]);
    }
  }

  /** The state after `i` actions is safe: a restart of the acquirer would recover every buffer exactly once. */
  ghost predicate SafeAt(p: Pool, acts: seq<Action>, i: nat)
    requires Fresh(p) && i <= |acts|
  {
    Safe(Exec(p, acts[..i]))
  }

  ghost predicate Safe(p: Pool) {
    Inv(p) && Permutation(Offered(p), p.ring.n - 1)
  }

  ghost predicate InOrderAt(p: Pool, acts: seq<Action>, i: nat)
    requires Fresh(p) && i < |acts|
  {
    InOrder(Exec(p, acts[..i]), acts[i])
  }

  lemma SafeStep(p: Pool, acts: seq<Action>, i: nat)
    requires Fresh(p) && i < |acts| && SafeAt(p, acts, i)
    ensures SafeAt(p, acts, i + 1) <==> InOrderAt(p, acts, i)
  {
    assert acts[..i + 1][..i] == acts[..i];
    StepIsSafeIffInOrder(Exec(p, acts[..i]), acts[i]);
  }

  lemma {:induction false} SafeWhileInOrder(p: Pool, acts: seq<Action>, k: nat)
    requires Fresh(p) && k <= |acts| && forall i :: 0 <= i < k ==> InOrderAt(p, acts, i)
    ensures SafeAt(p, acts, k)
  {
    if k == 0 {
      SafeAtFirst(p, acts);
    } else {
      SafeWhileInOrder(p, acts, k - 1);
      SafeStep(p, acts, k - 1);
    }
  }

  lemma SafeAtFirst(p: Pool, acts: seq<Action>)
    requires Fresh(p)
    ensures SafeAt(p, acts, 0)
  {
    hide Inv, Offered, Apply;
    FreshIsInv(p);
    assert acts[..0] == [];
  }

  /**
   Over every run of acquires, releases and restarts of either side: the resynchronisation offers every
   buffer exactly once in all states of the run if and only if every release returned the oldest buffer
   still out. Releasing in another order is allowed by the API, so this is a condition on the peer.
   */
  lemma ResyncSafeIffReleasedInOrder(p: Pool, acts: seq<Action>)
    requires Fresh(p)
    ensures (forall i :: 0 <= i <= |acts| ==> SafeAt(p, acts, i))
       <==> (forall i :: 0 <= i < |acts| ==> InOrderAt(p, acts, i))
  {
    if forall i :: 0 <= i < |acts| ==> InOrderAt(p, acts, i) {
      forall i | 0 <= i <= |acts| ensures SafeAt(p, acts, i) {
        SafeWhileInOrder(p, acts, i);
      }
    }
    if forall i :: 0 <= i <= |acts| ==> SafeAt(p, acts, i) {
      forall i | 0 <= i < |acts| ensures InOrderAt(p, acts, i) {
        assert SafeAt(p, acts, i) && SafeAt(p, acts, i + 1);
        SafeStep(p, acts, i);
      }
    }
  }

  /** Two buffers, the later one released first: a restart would be offered buffer 1 twice and buffer 0 never. */
  lemma OutOfOrderReleaseLosesABuffer(p: Pool)
    requires Fresh(p) && p.ring.n == 3
    ensures Inv(Apply(Apply(Apply(p, Acquire), Acquire), Release(1)))
    ensures Offered(Apply(Apply(Apply(p, Acquire), Acquire), Release(1))) == [1, 1]
  {
    hide Contents, Apply, Offered, Inv;
    FreshIsInv(p);
    AcquireKeepsInv(p);
    AcquireKeepsInv(Apply(p, Acquire));
    ReleaseKeepsInv(Apply(Apply(p, Acquire), Acquire), 1);
  }
}
