/**
 The lock-free claim of ipc-queue.h: one pusher and one popper, interleaved at the level of
 single loads, single word copies and index stores, under sequential consistency.
 */
module Spsc {
  import opened Types
  import opened Fifo

  /** Program counter and locals of ipc_queue_push; `wasFull` records the truth at the load of `read`. */
  datatype Producer<W> =
    | PIdle
    | PHaveWrite(elem: seq<W>, w: nat)
    | PHaveRead(elem: seq<W>, w: nat, r: nat, wasFull: bool)
    | PCopying(elem: seq<W>, w: nat, r: nat, k: nat)

  /** Program counter and locals of ipc_queue_pop; `wasEmpty` records the truth at the load of `write`. */
  datatype Consumer<W> =
    | CIdle
    | CHaveWrite(w: nat, wasEmpty: bool)
    | CHaveRead(w: nat, r: nat, wasEmpty: bool)
    | CCopying(w: nat, r: nat, buf: seq<W>)

  /** What the last finished call returned, with the truth recorded while it ran. */
  datatype Reply = NoReply | Success | Refused(errno: Errno, justified: bool)

  /** `pushed` and `popped` are histories of the successful calls. */
  datatype State<W> = State(
    size: nat, ring: Ring<seq<W>>, prod: Producer<W>, cons: Consumer<W>,
    pushed: seq<seq<W>>, popped: seq<seq<W>>, pushReply: Reply, popReply: Reply)

  ghost predicate Shaped<W>(s: State<W>) {
    && Valid(s.ring) && s.ring.n >= 2
    && forall i :: 0 <= i < s.ring.n ==> |s.ring.slots[i]| == s.size
  }

  /** Nobody is inside a call; whatever a first init or a restart left queued counts as pushed. */
  ghost predicate Start<W>(s: State<W>) {
    && Shaped(s)
    && s.prod == PIdle && s.cons == CIdle
    && s.pushed == Contents(s.ring) && s.popped == []
    && s.pushReply == NoReply && s.popReply == NoReply
  }

  predicate IsFull<W>(r: Ring<seq<W>>)
    requires r.write < r.n
  {
    Next(r.write, r.n) == r.read
  }

  /** What the two threads' own checks guarantee about their locals: the copied slots are in bounds. */
  ghost predicate LocalsShaped<W>(s: State<W>) {
    && (s.prod.PCopying? ==> s.prod.w < s.ring.n && |s.prod.elem| == s.size && s.prod.k <= s.size)
    && (s.cons.CCopying? ==> s.cons.r < s.ring.n && |s.cons.buf| <= s.size)
  }

  /** One step of the pushing thread; `x` is the element of a call that starts here. */
  function PushStep<W>(s: State<W>, x: seq<W>): State<W>
    requires Shaped(s) && LocalsShaped(s) && |x| == s.size
  {
    match s.prod
    case PIdle => s.(prod := PHaveWrite(x, s.ring.write))
    case PHaveWrite(elem, w) => s.(prod := PHaveRead(elem, w, s.ring.read, IsFull(s.ring)))
    case PHaveRead(elem, w, r, wasFull) =>
      if r >= s.ring.n || w >= s.ring.n then s.(prod := PIdle, pushReply := Refused(EINVAL, false))
      else if (w + 1) % s.ring.n == r then s.(prod := PIdle, pushReply := Refused(ENOMEM, wasFull))
      else s.(prod := PCopying(elem, w, r, 0))
    case PCopying(elem, w, r, k) =>
      if k < s.size then
        var slot := s.ring.slots[w][k := elem[k]];
        s.(ring := s.ring.(slots := s.ring.slots[w := slot]), prod := PCopying(elem, w, r, k + 1))
      else
        s.(ring := s.ring.(write := (w + 1) % s.ring.n), prod := PIdle,
           pushed := s.pushed + [elem], pushReply := Success)
  }

  /** One step of the popping thread. */
  function PopStep<W>(s: State<W>): State<W>
    requires Shaped(s) && LocalsShaped(s)
  {
    match s.cons
    case CIdle => s.(cons := CHaveWrite(s.ring.write, s.ring.read == s.ring.write))
    case CHaveWrite(w, wasEmpty) => s.(cons := CHaveRead(w, s.ring.read, wasEmpty))
    case CHaveRead(w, r, wasEmpty) =>
      if r >= s.ring.n || w >= s.ring.n then s.(cons := CIdle, popReply := Refused(EINVAL, false))
      else if r == w then s.(cons := CIdle, popReply := Refused(ENOBUFS, wasEmpty))
      else s.(cons := CCopying(w, r, []))
    case CCopying(w, r, buf) =>
      if |buf| < s.size then s.(cons := CCopying(w, r, buf + [s.ring.slots[r][|buf|]]))
      else
        s.(ring := s.ring.(read := (r + 1) % s.ring.n), cons := CIdle,
           popped := s.popped + [buf], popReply := Success)
  }

  /** The producer's cached indexes: its own write index is exact, the cached read index may be stale. */
  ghost predicate ProducerOk<W>(s: State<W>)
    requires Shaped(s)
  {
    var n := s.ring.n;
    match s.prod
    case PIdle => true
    case PHaveWrite(elem, w) => |elem| == s.size && w == s.ring.write
    case PHaveRead(elem, w, r, wasFull) =>
      && |elem| == s.size && w == s.ring.write && r < n
      && Dist(s.ring.read, w, n) <= Dist(r, w, n)
      && (wasFull <==> Next(w, n) == r)
    case PCopying(elem, w, r, k) =>
      && |elem| == s.size && w == s.ring.write && r < n
      && Dist(s.ring.read, w, n) <= Dist(r, w, n) <= n - 2
      && k <= s.size && s.ring.slots[w][..k] == elem[..k]
  }

  /** The consumer's cached indexes: its own read index is exact, the cached write index may be stale. */
  ghost predicate ConsumerOk<W>(s: State<W>)
    requires Shaped(s)
  {
    var n := s.ring.n;
    match s.cons
    case CIdle => true
    case CHaveWrite(w, wasEmpty) =>
      && w < n && Dist(s.ring.read, w, n) <= Dist(s.ring.read, s.ring.write, n)
      && (wasEmpty <==> s.ring.read == w)
    case CHaveRead(w, r, wasEmpty) =>
      && w < n && r == s.ring.read && Dist(r, w, n) <= Dist(r, s.ring.write, n)
      && (wasEmpty <==> r == w)
    case CCopying(w, r, buf) =>
      && w < n && r == s.ring.read && 1 <= Dist(r, w, n) <= Dist(r, s.ring.write, n)
      && |buf| <= s.size && buf == s.ring.slots[r][..|buf|]
  }

  ghost predicate RepliesOk<W>(s: State<W>) {
    && (s.pushReply.Refused? ==> s.pushReply == Refused(ENOMEM, true))
    && (s.popReply.Refused? ==> s.popReply == Refused(ENOBUFS, true))
  }

  ghost predicate Inv<W>(s: State<W>) {
    && Shaped(s) && LocalsShaped(s) && ProducerOk(s) && ConsumerOk(s) && RepliesOk(s)
    && s.popped + Contents(s.ring) == s.pushed
  }

  // ---------- Distances on the ring ----------

  lemma DistZero(r: nat, w: nat, n: nat)
    requires r < n && w < n
    ensures Dist(r, w, n) < n && (Dist(r, w, n) == 0 <==> r == w)
  {
  }

  lemma DistAdvanceRead(r: nat, w: nat, n: nat)
    requires r < n && w < n && r != w
    ensures Dist(Next(r, n), w, n) == Dist(r, w, n) - 1
  {
  }

  lemma DistAdvanceWrite(r: nat, w: nat, n: nat)
    requires r < n && w < n
    ensures if Next(w, n) == r then Dist(r, w, n) == n - 1
            else Dist(r, w, n) <= n - 2 && Dist(r, Next(w, n), n) == Dist(r, w, n) + 1
  {
  }

  // ---------- The steps of push ----------

  /** The slot behind the write index is not part of what is queued. */
  lemma WriteSlotIsNotQueued<T>(r: Ring<T>, x: T)
    requires Valid(r)
    ensures Contents(r.(slots := r.slots[r.write := x])) == Contents(r)
  {
  }

  lemma CopyWordKeeps<W>(s: State<W>, x: seq<W>)
    requires Inv(s) && |x| == s.size
    requires s.prod.PCopying? && s.prod.k < s.size
    ensures Inv(PushStep(s, x)) && Contents(PushStep(s, x).ring) == Contents(s.ring)
  {
    hide Contents, Dist;
    var s', w, k, elem := PushStep(s, x), s.prod.w, s.prod.k, s.prod.elem;
    WriteSlotIsNotQueued(s.ring, s'.ring.slots[w]);
    assert s'.ring.slots[w][..k + 1] == s.ring.slots[w][..k] + [elem[k]] == elem[..k + 1];
    if s.cons.CCopying? {
      DistZero(s.cons.r, s.ring.write, s.ring.n);
      DistZero(s.cons.r, s.cons.w, s.ring.n);
      assert s'.ring.slots[s.cons.r] == s.ring.slots[s.cons.r];
    }
  }

  /** What a stale write index allows the popper stays allowed when the write index advances. */
  lemma ConsumerSurvivesPublish<W>(s: State<W>, x: seq<W>)
    requires Inv(s) && |x| == s.size
    requires s.prod.PCopying? && s.prod.k == s.size
    ensures Shaped(PushStep(s, x)) && ConsumerOk(PushStep(s, x))
  {
    hide Contents, Dist;
    NextWraps(s.prod.w, s.ring.n);
    DistAdvanceWrite(s.ring.read, s.prod.w, s.ring.n);
    DistZero(s.ring.read, s.prod.w, s.ring.n);
  }

  lemma PublishKeeps<W>(s: State<W>, x: seq<W>)
    requires Inv(s) && |x| == s.size
    requires s.prod.PCopying? && s.prod.k == s.size
    ensures Inv(PushStep(s, x))
    ensures Contents(PushStep(s, x).ring) == Contents(s.ring) + [s.prod.elem]
  {
    hide Contents, Dist, ConsumerOk;
    var s', w, elem := PushStep(s, x), s.prod.w, s.prod.elem;
    ConsumerSurvivesPublish(s, x);
    DistAdvanceWrite(s.ring.read, w, s.ring.n);
    DistZero(s.ring.read, w, s.ring.n);
    assert s.ring.slots[w] == s.ring.slots[w][..s.size] == elem[..s.size] == elem;
    assert s.ring.slots[w := elem] == s.ring.slots;
    PushAppends(s.ring, elem);
    assert s'.ring == Push(s.ring, elem).0;
    assert s.popped + (Contents(s.ring) + [elem]) == s.pushed + [elem];
  }

  lemma PushLoadsKeep<W>(s: State<W>, x: seq<W>)
    requires Inv(s) && |x| == s.size && !s.prod.PCopying?
    ensures Inv(PushStep(s, x)) && PushStep(s, x).ring == s.ring
  {
    hide Contents, Dist, ConsumerOk;
    if s.prod.PHaveRead? {
      NextWraps(s.prod.w, s.ring.n);
      DistAdvanceWrite(s.prod.r, s.prod.w, s.ring.n);
    }
    assert ConsumerOk(PushStep(s, x)) by {
      assert PushStep(s, x).cons == s.cons && PushStep(s, x).ring == s.ring && PushStep(s, x).size == s.size;
      ConsumerDependsOn(s, PushStep(s, x));
    }
  }

  lemma ConsumerDependsOn<W>(s: State<W>, s': State<W>)
    requires Shaped(s) && ConsumerOk(s) && s'.cons == s.cons && s'.ring == s.ring && s'.size == s.size
    ensures Shaped(s') && ConsumerOk(s')
  {
  }

  lemma PushStepKeeps<W>(s: State<W>, x: seq<W>)
    requires Inv(s) && |x| == s.size
    ensures Inv(PushStep(s, x))
    ensures PushStep(s, x).popped == s.popped && s.pushed <= PushStep(s, x).pushed
  {
    if !s.prod.PCopying? {
      PushLoadsKeep(s, x);
    } else if s.prod.k < s.size {
      CopyWordKeeps(s, x);
    } else {
      PublishKeeps(s, x);
    }
    hide Inv;
  }

  // ---------- The steps of pop ----------

  /** What a stale read index allows the pusher stays allowed when the read index advances. */
  lemma ProducerSurvivesTake<W>(s: State<W>)
    requires Inv(s) && s.cons.CCopying? && |s.cons.buf| == s.size
    ensures Shaped(PopStep(s)) && ProducerOk(PopStep(s))
  {
    hide Contents, Dist;
    NextWraps(s.cons.r, s.ring.n);
    DistZero(s.cons.r, s.ring.write, s.ring.n);
    DistAdvanceRead(s.cons.r, s.ring.write, s.ring.n);
  }

  lemma TakeKeeps<W>(s: State<W>)
    requires Inv(s) && s.cons.CCopying? && |s.cons.buf| == s.size
    ensures Inv(PopStep(s))
    ensures Contents(s.ring) == [s.cons.buf] + Contents(PopStep(s).ring)
  {
    hide Contents, Dist, ProducerOk;
    var s', r, buf := PopStep(s), s.cons.r, s.cons.buf;
    ProducerSurvivesTake(s);
    DistZero(r, s.ring.write, s.ring.n);
    assert s.ring.slots[r] == s.ring.slots[r][..s.size] == buf;
    PopTakesHead(s.ring);
    assert s'.ring == Pop(s.ring).0;
    assert s'.popped + Contents(s'.ring) == s.popped + ([buf] + Contents(s'.ring));
  }

  lemma ProducerDependsOn<W>(s: State<W>, s': State<W>)
    requires Shaped(s) && ProducerOk(s) && s'.prod == s.prod && s'.ring == s.ring && s'.size == s.size
    ensures Shaped(s') && ProducerOk(s')
  {
  }

  lemma PopLoadsKeep<W>(s: State<W>)
    requires Inv(s) && !(s.cons.CCopying? && |s.cons.buf| == s.size)
    ensures Inv(PopStep(s)) && PopStep(s).ring == s.ring
  {
    hide Contents, Dist, ProducerOk;
    if s.cons.CHaveRead? {
      DistZero(s.cons.r, s.cons.w, s.ring.n);
    }
    ProducerDependsOn(s, PopStep(s));
  }

  lemma PopStepKeeps<W>(s: State<W>)
    requires Inv(s)
    ensures Inv(PopStep(s))
    ensures PopStep(s).pushed == s.pushed && s.popped <= PopStep(s).popped
  {
    if s.cons.CCopying? && |s.cons.buf| == s.size {
      TakeKeeps(s);
    } else {
      PopLoadsKeep(s);
    }
    hide Inv;
  }

  ghost predicate Step<W(!new)>(s: State<W>, s': State<W>) {
    && Shaped(s) && LocalsShaped(s)
    && (s' == PopStep(s) || exists x :: |x| == s.size && s' == PushStep(s, x))
  }

  ghost predicate IsRun<W(!new)>(run: seq<State<W>>) {
    && |run| > 0 && Start(run[0])
    && forall i :: 0 < i < |run| ==> Step(run[i - 1], run[i])
  }

  /** The slot being written is outside the live window and the slot being read is inside it. */
  ghost predicate NoOverlap<W>(s: State<W>) {
    && (s.prod.PCopying? ==> !Live(s.ring.read, s.ring.write, s.prod.w))
    && (s.cons.CCopying? ==> Live(s.ring.read, s.ring.write, s.cons.r))
  }

  lemma {:induction false} RunKeepsInv<W(!new)>(run: seq<State<W>>, i: nat)
    requires IsRun(run) && i < |run|
    ensures Inv(run[i])
  {
    if i > 0 {
      RunKeepsInv(run, i - 1);
      var s, s' := run[i - 1], run[i];
      if s' == PopStep(s) {
        PopStepKeeps(s);
      } else {
        var x :| |x| == s.size && s' == PushStep(s, x);
        PushStepKeeps(s, x);
      }
    }
  }

  /**
   In every state of every run: nothing is lost, duplicated, torn or reordered; at most n - 1 elements
   are queued; no slot is written while it can be read; a refusal is always justified by what was true
   at some moment of the refused call; and no index is ever found invalid.
   */
  lemma SpscIsFifo<W(!new)>(run: seq<State<W>>, i: nat)
    requires IsRun(run) && i < |run|
    ensures Shaped(run[i]) && LocalsShaped(run[i])
    ensures run[i].popped + Contents(run[i].ring) == run[i].pushed
    ensures |Contents(run[i].ring)| <= run[i].ring.n - 1
    ensures NoOverlap(run[i])
    ensures RepliesOk(run[i])
  {
    RunKeepsInv(run, i);
    hide RepliesOk;
  }

  /** A call of ipc_queue_push that nobody interrupts, step by step. */
  ghost predicate PushesAlone<W>(run: seq<State<W>>, x: seq<W>) {
    forall i :: 0 < i < |run| ==> PushesOnce(run[i - 1], x, run[i])
  }

  ghost predicate PushesOnce<W>(s: State<W>, x: seq<W>, s': State<W>) {
    Shaped(s) && LocalsShaped(s) && |x| == s.size && s' == PushStep(s, x)
  }

  lemma {:induction false} SoloCopy<W>(s: State<W>, x: seq<W>) returns (run: seq<State<W>>)
    requires Inv(s) && |x| == s.size
    requires s.prod.PCopying? && s.prod.elem == x
    ensures |run| > 1 && run[0] == s && PushesAlone(run, x)
    ensures run[|run| - 1].prod == PIdle && run[|run| - 1].pushReply == Success
    ensures run[|run| - 1].ring ==
            s.ring.(slots := s.ring.slots[s.prod.w := x], write := (s.prod.w + 1) % s.ring.n)
    decreases s.size - s.prod.k
  {
    hide Contents, Dist, ConsumerOk;
    var s' := PushStep(s, x);
    if s.prod.k < s.size {
      CopyWordKeeps(s, x);
      var rest := SoloCopy(s', x);
      run := [s] + rest;
      assert s'.ring.slots[s.prod.w := x] == s.ring.slots[s.prod.w := x];
    } else {
      assert s.ring.slots[s.prod.w] == s.ring.slots[s.prod.w][..s.size] == x;
      run := [s, s'];
    }
  }

  /** An uninterrupted call has exactly the effect and the reply of the atomic Fifo.Push. */
  lemma SoloPushIsAtomic<W>(s: State<W>, x: seq<W>) returns (run: seq<State<W>>)
    requires Inv(s) && s.prod == PIdle && |x| == s.size
    ensures |run| > 1 && run[0] == s && PushesAlone(run, x)
    ensures run[|run| - 1].prod == PIdle
    ensures run[|run| - 1].ring == Push(s.ring, x).0
    ensures run[|run| - 1].pushReply ==
            if Push(s.ring, x).1.Ok? then Success else Refused(Push(s.ring, x).1.errno, true)
  {
    hide Contents, Dist, ConsumerOk;
    NextWraps(s.ring.write, s.ring.n);
    var s1 := PushStep(s, x);
    PushLoadsKeep(s, x);
    var s2 := PushStep(s1, x);
    PushLoadsKeep(s1, x);
    var s3 := PushStep(s2, x);
    PushLoadsKeep(s2, x);
    run := [s, s1, s2, s3];
    if s3.prod.PCopying? {
      var rest := SoloCopy(s3, x);
      run := [s, s1, s2] + rest;
    }
  }

  ghost predicate PopsOnce<W>(s: State<W>, s': State<W>) {
    Shaped(s) && LocalsShaped(s) && s' == PopStep(s)
  }

  /** A call of ipc_queue_pop that nobody interrupts, step by step. */
  ghost predicate PopsAlone<W>(run: seq<State<W>>) {
    forall i :: 0 < i < |run| ==> PopsOnce(run[i - 1], run[i])
  }

  lemma {:induction false} SoloTake<W>(s: State<W>) returns (run: seq<State<W>>)
    requires Inv(s) && s.cons.CCopying?
    ensures |run| > 1 && run[0] == s && PopsAlone(run)
    ensures run[|run| - 1].cons == CIdle && run[|run| - 1].popReply == Success
    ensures run[|run| - 1].ring == s.ring.(read := (s.cons.r + 1) % s.ring.n)
    ensures run[|run| - 1].popped == s.popped + [s.ring.slots[s.cons.r]]
    decreases s.size - |s.cons.buf|
  {
    hide Contents, Dist, ProducerOk;
    var s' := PopStep(s);
    PopStepKeeps(s);
    if |s.cons.buf| < s.size {
      var rest := SoloTake(s');
      run := [s] + rest;
    } else {
      assert s.ring.slots[s.cons.r] == s.ring.slots[s.cons.r][..s.size];
      run := [s, s'];
    }
  }

  /** An uninterrupted call has exactly the effect, the element and the reply of the atomic Fifo.Pop. */
  lemma SoloPopIsAtomic<W>(s: State<W>) returns (run: seq<State<W>>)
    requires Inv(s) && s.cons == CIdle
    ensures |run| > 1 && run[0] == s && PopsAlone(run)
    ensures run[|run| - 1].cons == CIdle
    ensures run[|run| - 1].ring == Pop(s.ring).0
    ensures run[|run| - 1].popReply ==
            if Pop(s.ring).1.Ok? then Success else Refused(Pop(s.ring).1.errno, true)
    ensures Pop(s.ring).1.Ok? ==> run[|run| - 1].popped == s.popped + [Pop(s.ring).1.value]
  {
    hide Contents, Dist, ProducerOk;
    var s1 := PopStep(s);
    PopStepKeeps(s);
    var s2 := PopStep(s1);
    PopStepKeeps(s1);
    var s3 := PopStep(s2);
    PopStepKeeps(s2);
    run := [s, s1, s2, s3];
    if s3.cons.CCopying? {
      var rest := SoloTake(s3);
      run := [s, s1, s2] + rest;
    }
  }
}
