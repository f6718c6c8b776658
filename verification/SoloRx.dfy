/**
 The single steps of the tasklet's receive loop, taken without interruption, have exactly the course, the effect and
 the count of the loop as the receive modules describe it.
 */
module SoloRx {
  import opened Types
  import opened RxCount
  import opened Wakeup

  const NOTHING: Arrivals := (t, c) => 0

  /** k steps of the tasklet and of nobody else. */
  function Run(s: System, k: nat): (s': System)
    requires Shaped(s)
    ensures Shaped(s')
    decreases k
  {
    if k == 0 then s else Run(SoftStep(s), k - 1)
  }

  lemma {:induction false} RunOn(s: System, k: nat, more: nat)
    requires Shaped(s)
    ensures Run(Run(s, k), more) == Run(s, k + more)
    decreases k
  {
    hide SoftStep, Shaped;
    if k > 0 {
      RunOn(SoftStep(s), k - 1, more);
    }
  }

  lemma RunTwo(s: System)
    requires Shaped(s)
    ensures Run(s, 1) == SoftStep(s) && Run(s, 2) == SoftStep(SoftStep(s))
  {
    hide SoftStep, Shaped;
    assert Run(SoftStep(s), 1) == SoftStep(SoftStep(s));
  }

  /** The system with the channels of instance i replaced and its receive loop at `rx`. */
  function At(s: System, i: nat, chans: seq<Chan>, rx: Rx): System
    requires i < |s.insts|
  {
    SetInst(s, i, s.insts[i].(chans := chans)).(soft := SRx(i, rx))
  }

  /** Receiving on instance i, all counters holding 32-bit values. */
  ghost predicate Receiving(s: System, i: nat, chans: seq<Chan>) {
    Shaped(s) && i < |s.insts| && |chans| == |s.insts[i].chans| && forall c :: 0 <= c < |chans| ==> FitsUint32(chans[c])
  }

  lemma NothingArrives(chans: seq<Chan>, t: nat)
    requires forall c :: 0 <= c < |chans| ==> FitsUint32(chans[c])
    ensures Arrive(chans, NOTHING, t) == chans
  {
    forall c | 0 <= c < |chans| ensures Arrive(chans, NOTHING, t)[c] == chans[c] {
      if chans[c].Counter? {
        AddTwice(chans[c].tx, 0, 0);
      }
    }
  }

  lemma AtTwice(s: System, i: nat, chans: seq<Chan>, rx: Rx, chans': seq<Chan>, rx': Rx)
    requires i < |s.insts|
    ensures At(At(s, i, chans, rx), i, chans', rx') == At(s, i, chans', rx')
  {
  }

  /** One pop, or the end of the scan of a queue. */
  lemma QueueStep(s: System, i: nat, chans: seq<Chan>, work: nat, budget: nat, c: nat, done: nat, more: bool)
    requires Receiving(s, i, chans) && c < |chans| && chans[c].Queue?
    ensures var s0 := At(s, i, chans, Scan(work, budget, c, done, more));
            && Shaped(s0)
            && (done >= budget ==> SoftStep(s0) == At(s, i, chans, Scan(work + done, budget, c + 1, 0, true)))
            && (done < budget ==>
                  SoftStep(SoftStep(s0)) ==
                  if chans[c].length == 0 then At(s, i, chans, Scan(work + done, budget, c + 1, 0, more))
                  else At(s, i, chans[c := Queue(chans[c].length - 1)], Scan(work, budget, c, done + 1, more)))
  {
  }

  lemma {:induction false} ScanAlone(
    s: System, i: nat, chans: seq<Chan>, work: nat, budget: nat, c: nat, done: nat, more: bool, t: nat)
    returns (k: nat)
    requires Receiving(s, i, chans) && c < |chans| && chans[c].Queue? && done <= budget
    ensures var r := RxCount.Scan(Count(chans, t, work + done), NOTHING, c, budget - done);
            && Receiving(s, i, r.chans) && Shaped(At(s, i, chans, Scan(work, budget, c, done, more)))
            && Run(At(s, i, chans, Scan(work, budget, c, done, more)), k) ==
               At(s, i, r.chans, Scan(r.work, budget, c + 1, 0, more || r.work - work == budget))
    decreases budget - done
  {
    hide SoftStep, Arrive, Run;
    var s0 := At(s, i, chans, Scan(work, budget, c, done, more));
    QueueStep(s, i, chans, work, budget, c, done, more);
    RunTwo(s0);
    NothingArrives(chans, t);
    if done == budget {
      k := 1;
    } else if chans[c].length == 0 {
      k := 2;
    } else {
      var chans' := chans[c := Queue(chans[c].length - 1)];
      var rest := ScanAlone(s, i, chans', work, budget, c, done + 1, more, t + 1);
      RunOn(s0, 2, rest);
      k := 2 + rest;
    }
  }
  lemma LookAlone(s: System, i: nat, chans: seq<Chan>, work: nat, budget: nat, c: nat, more: bool, t: nat)
    requires Receiving(s, i, chans) && c < |chans| && chans[c].Counter? && budget >= 1
    ensures var r := Look(Count(chans, t, work), NOTHING, c, budget);
            && Receiving(s, i, r.chans) && Shaped(At(s, i, chans, Scan(work, budget, c, 0, more)))
            && Run(At(s, i, chans, Scan(work, budget, c, 0, more)), 2) ==
               At(s, i, r.chans, Scan(r.work, budget, c + 1, 0, more || r.work - work == budget))
  {
    hide Arrive, Run;
    RunTwo(At(s, i, chans, Scan(work, budget, c, 0, more)));
    NothingArrives(chans, t);
  }

  lemma ServeAlone(s: System, i: nat, chans: seq<Chan>, work: nat, budget: nat, c: nat, more: bool, t: nat)
    returns (k: nat)
    requires Receiving(s, i, chans) && c < |chans| && budget >= 1
    ensures var r := Serve(Count(chans, t, work), NOTHING, c, budget);
            && Receiving(s, i, r.chans) && Shaped(At(s, i, chans, Scan(work, budget, c, 0, more)))
            && Run(At(s, i, chans, Scan(work, budget, c, 0, more)), k) ==
               At(s, i, r.chans, Scan(r.work, budget, c + 1, 0, more || r.work - work == budget))
  {
    hide RxCount.Scan, Look, Run, Receiving;
    if chans[c].Queue? {
      k := ScanAlone(s, i, chans, work, budget, c, 0, more, t);
    } else {
      LookAlone(s, i, chans, work, budget, c, more, t);
      k := 2;
    }
  }

  lemma RoundEnds(s: System, i: nat, chans: seq<Chan>, work: nat, budget: nat, more: bool)
    requires Receiving(s, i, chans)
    ensures var s0 := At(s, i, chans, Scan(work, budget, |chans|, 0, more));
            Shaped(s0) && Run(s0, 1) == At(s, i, chans, Round(work, more))
  {
    hide Run;
    RunTwo(At(s, i, chans, Scan(work, budget, |chans|, 0, more)));
  }

  lemma {:induction false} RoundAlone(
    s: System, i: nat, chans: seq<Chan>, work: nat, budget: nat, c: nat, more: bool, t: nat)
    returns (k: nat)
    requires Receiving(s, i, chans) && c <= |chans| && budget >= 1
    ensures var (r, more') := RxCount.Round(Count(chans, t, work), NOTHING, budget, c, more);
            && Receiving(s, i, r.chans) && Shaped(At(s, i, chans, Scan(work, budget, c, 0, more)))
            && Run(At(s, i, chans, Scan(work, budget, c, 0, more)), k) == At(s, i, r.chans, Round(r.work, more'))
    decreases |chans| - c
  {
    assert i < |s.insts|;
    hide Serve, Run, Receiving, Shaped, At;
    if c == |chans| {
      RoundEnds(s, i, chans, work, budget, more);
      k := 1;
    } else {
      var r := Serve(Count(chans, t, work), NOTHING, c, budget);
      k := ServeAlone(s, i, chans, work, budget, c, more, t);
      var rest := RoundAlone(s, i, r.chans, r.work, budget, c + 1, more || r.work - work == budget, r.clock);
      RunOn(At(s, i, chans, Scan(work, budget, c, 0, more)), k, rest);
      k := k + rest;
    }
  }

  lemma RoundBegins(s: System, i: nat, chans: seq<Chan>, work: nat, more: bool)
    requires Receiving(s, i, chans)
    ensures var s0 := At(s, i, chans, Round(work, more));
            && Shaped(s0) && |chans| >= 1
            && Run(s0, 1) ==
               if work < IPC_SOFTIRQ_BUDGET && more then
                 At(s, i, chans, Scan(work, Share(IPC_SOFTIRQ_BUDGET - work, |chans|), 0, 0, false))
               else At(s, i, chans, Round(work, more)).(soft := SAfter(i, work))
  {
    hide Run, Share;
    assert InstShaped(s.insts[i]);
    RunTwo(At(s, i, chans, Round(work, more)));
  }

  /**
   Left alone, the tasklet takes its receive loop on instance i from any moment between two rounds to its end, with the
   channels and the count of ipc_shm_rx for a silent peer, whatever the mix of channels.
   */
  lemma {:induction false} RxAlone(s: System, i: nat, chans: seq<Chan>, work: nat, more: bool, t: nat) returns (k: nat)
    requires Receiving(s, i, chans)
    ensures |chans| >= 1 && Shaped(At(s, i, chans, Round(work, more)))
    ensures var r := RxCount.Rx(Count(chans, t, work), NOTHING, IPC_SOFTIRQ_BUDGET, more);
            Run(At(s, i, chans, Round(work, more)), k) ==
            SetInst(s, i, s.insts[i].(chans := r.chans)).(soft := SAfter(i, r.work))
    decreases more, if IPC_SOFTIRQ_BUDGET > work then IPC_SOFTIRQ_BUDGET - work else 0
  {
    assert i < |s.insts|;
    hide Run, Receiving, Shaped, RxCount.Round, Share;
    RoundBegins(s, i, chans, work, more);
    k := 1;
    if work < IPC_SOFTIRQ_BUDGET && more {
      var budget := Share(IPC_SOFTIRQ_BUDGET - work, |chans|);
      var (r, more') := RxCount.Round(Count(chans, t, work), NOTHING, budget, 0, false);
      var round := RoundAlone(s, i, chans, work, budget, 0, false, t);
      var rest := RxAlone(s, i, r.chans, r.work, more', r.clock);
      var s0 := At(s, i, chans, Round(work, more));
      RunOn(s0, 1, round);
      RunOn(s0, 1 + round, rest);
      k := 1 + round + rest;
    }
  }
}
