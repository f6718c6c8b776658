/**
 One direction of the dual-ring queue as a value: the producer's slots and write index,
 and the consumer's read index (which lives in the consumer's own ring).
 */
module Fifo {
  import opened Types

  datatype Ring<T> = Ring(n: nat, slots: seq<T>, write: nat, read: nat)

  ghost predicate Valid<T>(r: Ring<T>) {
    |r.slots| == r.n && r.write < r.n && r.read < r.n
  }

  /** Index increment with wrap-around. */
  function Next(i: nat, n: nat): (j: nat)
    requires i < n
    ensures j < n
  {
    if i + 1 == n then 0 else i + 1
  }

  lemma NextWraps(i: nat, n: nat)
    requires i < n
    ensures (i + 1) % n == Next(i, n) == if i + 1 == n then 0 else i + 1
  {
    if i + 1 < n {
      assert (i + 1) / n == 0;
    }
  }

  /** Number of filled slots walking from `read` up to `write`. */
  function Dist(read: nat, write: nat, n: nat): nat
    requires read < n && write < n
  {
    if read <= write then write - read else write + n - read
  }

  /** The elements a consumer will pop, in order. */
  function Contents<T>(r: Ring<T>): (s: seq<T>)
    requires Valid(r)
    ensures |s| == Dist(r.read, r.write, r.n)
  {
    if r.read <= r.write then r.slots[r.read..r.write]
    else r.slots[r.read..] + r.slots[..r.write]
  }

  /** True of the slots between `read` and `write`. */
  predicate Live(read: nat, write: nat, i: nat) {
    if read <= write then read <= i < write else read <= i || i < write
  }

  /** ipc_queue_push on one direction. */
  function Push<T>(r: Ring<T>, x: T): (res: (Ring<T>, Result<()>))
    requires |r.slots| == r.n
  {
    if r.read >= r.n || r.write >= r.n then (r, Err(EINVAL))
    else if (r.write + 1) % r.n == r.read then (r, Err(ENOMEM))
    else (r.(slots := r.slots[r.write := x], write := (r.write + 1) % r.n), Ok(()))
  }

  /** ipc_queue_pop on one direction, once both sentinels have been seen to be Done. */
  function Pop<T>(r: Ring<T>): (res: (Ring<T>, Result<T>))
    requires |r.slots| == r.n
  {
    if r.read >= r.n || r.write >= r.n then (r, Err(EINVAL))
    else if r.read == r.write then (r, Err(ENOBUFS))
    else (r.(read := (r.read + 1) % r.n), Ok(r.slots[r.read]))
  }

  /** The slot of the i-th queued element. */
  function SlotOf<T>(r: Ring<T>, i: nat): (j: nat)
    requires Valid(r) && i < Dist(r.read, r.write, r.n)
    ensures j < r.n && Live(r.read, r.write, j)
  {
    if r.read + i < r.n then r.read + i else r.read + i - r.n
  }

  lemma ContentsAt<T>(r: Ring<T>, i: nat)
    requires Valid(r) && i < |Contents(r)|
    ensures Contents(r)[i] == r.slots[SlotOf(r, i)]
  {
  }

  /** Writing the free slot and moving the write index past it appends one element. */
  lemma AdvanceWrite<T>(r: Ring<T>, x: T)
    requires Valid(r) && Next(r.write, r.n) != r.read
    ensures Contents(r.(slots := r.slots[r.write := x], write := Next(r.write, r.n))) == Contents(r) + [x]
  {
    hide Contents;
    var r' := r.(slots := r.slots[r.write := x], write := Next(r.write, r.n));
    forall i | 0 <= i < |Contents(r')| ensures Contents(r')[i] == (Contents(r) + [x])[i] {
      ContentsAt(r', i);
      if i < |Contents(r)| {
        ContentsAt(r, i);
      }
    }
  }

  /** Moving the read index over a filled slot takes away the head. */
  lemma AdvanceRead<T>(r: Ring<T>)
    requires Valid(r) && r.read != r.write
    ensures Contents(r) == [r.slots[r.read]] + Contents(r.(read := Next(r.read, r.n)))
  {
    hide Contents;
    var r' := r.(read := Next(r.read, r.n));
    forall i | 0 <= i < |Contents(r)| ensures Contents(r)[i] == ([r.slots[r.read]] + Contents(r'))[i] {
      ContentsAt(r, i);
      if i > 0 {
        ContentsAt(r', i - 1);
      }
    }
  }

  /** Push appends at the tail and fails exactly when n - 1 elements are queued: the sentinel slot. */
  lemma PushAppends<T>(r: Ring<T>, x: T)
    requires Valid(r)
    ensures Valid(Push(r, x).0) && Push(r, x).0.n == r.n && Push(r, x).0.read == r.read
    ensures Push(r, x).1.Ok? <==> |Contents(r)| < r.n - 1
    ensures Push(r, x).1.Ok? ==> Contents(Push(r, x).0) == Contents(r) + [x]
    ensures !Push(r, x).1.Ok? ==> Push(r, x) == (r, Err(ENOMEM))
  {
    hide Contents;
    NextWraps(r.write, r.n);
    if Next(r.write, r.n) != r.read {
      AdvanceWrite(r, x);
    }
  }

  /** Pop takes the head and fails exactly when nothing is queued. */
  lemma PopTakesHead<T>(r: Ring<T>)
    requires Valid(r)
    ensures Valid(Pop(r).0) && Pop(r).0 == r.(read := Pop(r).0.read)
    ensures Pop(r).1.Ok? <==> Contents(r) != []
    ensures Pop(r).1.Ok? ==> Contents(r) == [Pop(r).1.value] + Contents(Pop(r).0)
    ensures !Pop(r).1.Ok? ==> Pop(r) == (r, Err(ENOBUFS))
  {
    hide Contents;
    NextWraps(r.read, r.n);
    if r.read != r.write {
      AdvanceRead(r);
    } else {
      assert |Contents(r)| == 0;
    }
  }

  /** An index outside the ring is refused with -EINVAL and nothing changes. */
  lemma BadIndexIsRefused<T>(r: Ring<T>, x: T)
    requires |r.slots| == r.n
    ensures Push(r, x).1 == Err(EINVAL) <==> !Valid(r)
    ensures Pop(r).1 == Err(EINVAL) <==> !Valid(r)
    ensures !Valid(r) ==> Push(r, x).0 == Pop(r).0 == r
  {
  }

  /** Pushes a whole sequence, stopping at the first failure. */
  function PushAll<T>(r: Ring<T>, xs: seq<T>): (res: (Ring<T>, Result<()>))
    requires |r.slots| == r.n
    ensures |res.0.slots| == res.0.n == r.n
    decreases |xs|
  {
    if xs == [] then (r, Ok(()))
    else
      var (r', e) := Push(r, xs[0]);
      if e.Err? then (r', e) else PushAll(r', xs[1..])
  }

  /** If the sequence fits beside what is queued, all of it is queued behind it; the read index stays. */
  lemma {:induction false} PushAllAppends<T>(r: Ring<T>, xs: seq<T>)
    requires Valid(r) && |Contents(r)| + |xs| < r.n
    ensures PushAll(r, xs).1 == Ok(())
    ensures Valid(PushAll(r, xs).0) && PushAll(r, xs).0.read == r.read
    ensures Contents(PushAll(r, xs).0) == Contents(r) + xs
    decreases |xs|
  {
    hide Contents, Push;
    if xs != [] {
      PushAppends(r, xs[0]);
      PushAllAppends(Push(r, xs[0]).0, xs[1..]);
      assert Contents(r) + [xs[0]] + xs[1..] == Contents(r) + xs;
    }
  }

  /** Pushing one more after a prefix is pushing the longer prefix. */
  lemma {:induction false} PushAllSnoc<T>(r: Ring<T>, xs: seq<T>, x: T)
    requires |r.slots| == r.n && PushAll(r, xs).1.Ok?
    ensures PushAll(r, xs + [x]) == Push(PushAll(r, xs).0, x)
    decreases |xs|
  {
    if xs == [] {
      assert (xs + [x])[1..] == [];
    } else {
      assert (xs + [x])[1..] == xs[1..] + [x];
      PushAllSnoc(Push(r, xs[0]).0, xs[1..], x);
    }
  }

  /** A failed prefix makes the whole sequence fail in the same state. */
  lemma {:induction false} PushAllFails<T>(r: Ring<T>, xs: seq<T>, ys: seq<T>)
    requires |r.slots| == r.n && PushAll(r, xs).1.Err?
    ensures PushAll(r, xs + ys) == PushAll(r, xs)
    decreases |xs|
  {
    assert xs != [] && (xs + ys)[0] == xs[0] && (xs + ys)[1..] == xs[1..] + ys;
    if Push(r, xs[0]).1.Ok? {
      PushAllFails(Push(r, xs[0]).0, xs[1..], ys);
    }
  }
}
