/**
 Two sides that keep retrying cannot refuse each other forever. The side that refused the other is ahead of it, and
 it can only be refused itself at a later ring; so the lead changes at most once per ring, and each turn of the
 leading side uses up part of what it has left to do.
 */
module InitCompletes {
  import opened Types
  import opened ConcurrentInit

  function Me(s: System, who: Who): Side { if who == A then s.a else s.b }
  function Other(who: Who): Who { if who == A then B else A }

  /** `me` is not rolling back and has claimed the first f rings for good. */
  predicate Leads(me: Side, f: nat) {
    !me.status.RollingBack? && (f > 0 ==> Holds(me, f - 1))
  }

  lemma {:induction false} RestFalls(kinds: seq<Kind>, j: nat)
    ensures j > 0 ==> Rest(kinds, j) <= Rest(kinds, 0)
    decreases j
  {
    if j > 1 {
      RestFalls(kinds, j - 1);
    }
  }

  lemma RankBound(kinds: seq<Kind>, me: Side)
    requires SideOk(kinds, me) && kinds != []
    ensures 0 <= Rank(kinds, me) <= Rest(kinds, 0) + 3 * |kinds| + 3
    ensures me.status.Running? ==> Rank(kinds, me) <= Rest(kinds, 0)
  {
    assert RingOk(kinds, me, 0);
    RestFalls(kinds, me.pos);
    if me.pos < |kinds| {
      assert RingOk(kinds, me, me.pos);
    }
  }

  /** A leading side that is refused is refused at a later ring, by a peer that leads from then on. */
  lemma RefusalPassesTheLead(kinds: seq<Kind>, me: Side, peer: Side, f: nat)
    requires SideOk(kinds, me) && SideOk(kinds, peer) && Leads(me, f) && Refused(me, peer)
    ensures Step(kinds, me, peer.rings).status == RollingBack(me.pos)
    ensures f <= me.pos < |kinds| && Leads(peer, me.pos + 1) && peer.status.Running?
  {
    assert RingOk(kinds, peer, me.pos);
  }

  lemma LeaderAdvances(kinds: seq<Kind>, me: Side, peer: Side, f: nat)
    requires kinds != [] && SideOk(kinds, me) && SideOk(kinds, peer) && CrossOk(me, peer)
    requires Leads(me, f) && !Refused(me, peer) && me.status.Running?
    ensures Leads(Step(kinds, me, peer.rings), f)
  {
    assert RingOk(kinds, me, me.pos);
    if Busy(me.phase) && !me.phase.MarkDone? {
      VisitKeeps(kinds, me, peer);
    }
  }

  // ---------- A bound on what is left to do ----------

  /** What the side that does not lead may still have to do once the other has finished. */
  function Tail(kinds: seq<Kind>): nat { Rest(kinds, 0) + 3 * |kinds| + 3 }

  /** k times one more than r. */
  function Shares(k: nat, r: nat): nat {
    if k == 0 then 0 else Shares(k - 1, r) + r + 1
  }

  lemma {:induction false} SharesFall(k: nat, k': nat, r: nat)
    requires k' < k
    ensures Shares(k', r) + r + 1 <= Shares(k, r)
    decreases k
  {
    if k' < k - 1 {
      SharesFall(k - 1, k', r);
    }
  }

  /** Turns left to the leader with f rings claimed for good: a full visit for each ring the lead can be lost at. */
  function Potential(kinds: seq<Kind>, me: Side, peer: Side, f: nat): int
    requires Shaped(kinds, me) && Shaped(kinds, peer) && f <= |kinds|
  {
    if me.status.Finished? then Rank(kinds, peer)
    else Tail(kinds) + Shares(|kinds| - f, Rest(kinds, 0)) + Rank(kinds, me)
  }

  ghost predicate SidesOk(kinds: seq<Kind>, me: Side, peer: Side) {
    kinds != [] && SideOk(kinds, me) && SideOk(kinds, peer) && CrossOk(me, peer) && CrossOk(peer, me)
  }

  lemma RefusedPotential(kinds: seq<Kind>, me: Side, peer: Side, f: nat)
    requires SidesOk(kinds, me, peer) && f <= |kinds| && Leads(me, f) && Refused(me, peer)
    ensures var me' := Step(kinds, me, peer.rings);
            && me.pos < |kinds| && Leads(peer, me.pos + 1) && SidesOk(kinds, me', peer)
            && Potential(kinds, peer, me', me.pos + 1) < Potential(kinds, me, peer, f)
  {
    RefusalPassesTheLead(kinds, me, peer, f);
    StepKeeps(kinds, me, peer);
    RankBound(kinds, me);
    RankBound(kinds, peer);
    SharesFall(|kinds| - f, |kinds| - (me.pos + 1), Rest(kinds, 0));
    hide Step, SideOk, CrossOk, Rank, Rest, Shares;
  }

  lemma AdvancePotential(kinds: seq<Kind>, me: Side, peer: Side, f: nat)
    requires SidesOk(kinds, me, peer) && f <= |kinds| && Leads(me, f) && !Refused(me, peer) && !me.status.Finished?
    ensures var me' := Step(kinds, me, peer.rings);
            && Leads(me', f) && SidesOk(kinds, me', peer)
            && Potential(kinds, me', peer, f) < Potential(kinds, me, peer, f)
  {
    assert RingOk(kinds, me, 0);
    StepKeeps(kinds, me, peer);
    RankBound(kinds, peer);
    RankFalls(kinds, me, peer);
    LeaderAdvances(kinds, me, peer, f);
    hide Step, SideOk, CrossOk, Rank, Rest, Shares;
  }

  lemma FollowerPotential(kinds: seq<Kind>, me: Side, peer: Side, f: nat)
    requires SidesOk(kinds, me, peer) && f <= |kinds| && me.status.Finished? && !peer.status.Finished?
    ensures var peer' := Step(kinds, peer, me.rings);
            && SidesOk(kinds, me, peer') && Potential(kinds, me, peer', f) < Potential(kinds, me, peer, f)
  {
    FinishedNeverRefuses(kinds, peer, me);
    StepKeeps(kinds, peer, me);
    RankFalls(kinds, peer, me);
    hide Step, SideOk, CrossOk, Rank;
  }

  // ---------- Schedules ----------

  ghost predicate LeadsWithin(s: System, who: Who, f: nat, q: int) {
    && SidesOk(s.kinds, Me(s, who), Me(s, Other(who))) && f <= |s.kinds| && Leads(Me(s, who), f)
    && Potential(s.kinds, Me(s, who), Me(s, Other(who)), f) <= q
  }

  /** Some side leads, and at most q counted turns are left. */
  ghost predicate Within(s: System, q: int) {
    exists who, f :: LeadsWithin(s, who, f, q)
  }

  /** The side whose turns count: the leader, or the other one when the leader has finished. */
  function Counts(s: System, who: Who): Who {
    if Me(s, who).status.Finished? then Other(who) else who
  }

  /** A counted turn brings the end closer, whoever leads afterwards. */
  lemma CountedTurn(s: System, who: Who, f: nat, q: int)
    requires LeadsWithin(s, who, f, q) && !AllFinished(s)
    ensures Within(Next(s, Counts(s, who)), q - 1)
  {
    var me, peer := Me(s, who), Me(s, Other(who));
    SidesSwap(s.kinds, me, peer);
    hide SidesOk, Step, Potential, Refused, Leads;
    if me.status.Finished? {
      FollowerPotential(s.kinds, me, peer, f);
      assert LeadsWithin(Next(s, Other(who)), who, f, q - 1);
    } else if Refused(me, peer) {
      RefusedPotential(s.kinds, me, peer, f);
      SidesSwap(s.kinds, Step(s.kinds, me, peer.rings), peer);
      assert LeadsWithin(Next(s, who), Other(who), me.pos + 1, q - 1);
    } else {
      AdvancePotential(s.kinds, me, peer, f);
      assert LeadsWithin(Next(s, who), who, f, q - 1);
    }
  }

  lemma SidesSwap(kinds: seq<Kind>, me: Side, peer: Side)
    requires SidesOk(kinds, me, peer)
    ensures SidesOk(kinds, peer, me) && Shaped(kinds, me) && Shaped(kinds, peer)
  {
  }

  /** Any other turn leaves the lead and what is left of it alone. */
  lemma OtherTurn(s: System, who: Who, f: nat, q: int)
    requires LeadsWithin(s, who, f, q)
    ensures var s' := Next(s, Other(Counts(s, who)));
            LeadsWithin(s', who, f, q) && Counts(s', who) == Counts(s, who)
  {
    var me, peer := Me(s, who), Me(s, Other(who));
    StepKeeps(s.kinds, me, peer);
    StepKeeps(s.kinds, peer, me);
    assert me.status.Finished? ==> Step(s.kinds, me, peer.rings) == me;
    hide SideOk, CrossOk, Rank;
  }
  lemma FinishedStays(s: System, turn: Who)
    requires Shaped(s.kinds, s.a) && Shaped(s.kinds, s.b) && AllFinished(s)
    ensures Next(s, turn) == s
  {
  }

  lemma AnyTurn(s: System, turn: Who, q: int)
    requires Within(s, q) && Shaped(s.kinds, s.a) && Shaped(s.kinds, s.b)
    ensures Within(Next(s, turn), q)
  {
    var who, f :| LeadsWithin(s, who, f, q);
    hide LeadsWithin;
    if AllFinished(s) {
      FinishedStays(s, turn);
    } else if turn == Counts(s, who) {
      CountedTurn(s, who, f, q);
      WithinMore(Next(s, turn), q - 1);
    } else {
      OtherTurn(s, who, f, q);
    }
  }

  lemma WithinMore(s: System, q: int)
    requires Within(s, q)
    ensures Within(s, q + 1)
  {
    var who, f :| LeadsWithin(s, who, f, q);
    assert LeadsWithin(s, who, f, q + 1);
  }

  /** After a schedule: closer to the end, or at the end, or the counted side has had no turn. */
  ghost predicate Progress(s: System, e: System, schedule: seq<Who>, who: Who, f: nat, q: int) {
    || AllFinished(e) || Within(e, q - 1)
    || (Counts(s, who) !in schedule && LeadsWithin(e, who, f, q) && Counts(e, who) == Counts(s, who))
  }

  lemma {:induction false} ScheduleProgress(s: System, schedule: seq<Who>, who: Who, f: nat, q: int)
    requires LeadsWithin(s, who, f, q) && Shaped(s.kinds, s.a) && Shaped(s.kinds, s.b)
    ensures Progress(s, Exec(s, schedule), schedule, who, f, q)
  {
    if schedule != [] {
      var rest, turn := schedule[..|schedule| - 1], schedule[|schedule| - 1];
      var e := Exec(s, rest);
      ScheduleProgress(s, rest, who, f, q);
      hide LeadsWithin, Within, Counts;
      assert schedule == rest + [turn];
      if AllFinished(e) {
        FinishedStays(e, turn);
      } else if Within(e, q - 1) {
        AnyTurn(e, turn, q - 1);
      } else if turn == Counts(e, who) {
        CountedTurn(e, who, f, q);
      } else {
        OnlyTwo(turn, Counts(e, who));
        OtherTurn(e, who, f, q);
      }
    }
  }

  lemma OnlyTwo(turn: Who, who: Who)
    requires turn != who
    ensures turn == Other(who)
  {
  }

  /** A round in which both sides get a turn brings the end closer. */
  lemma RoundProgress(s: System, round: seq<Who>, q: int)
    requires Shaped(s.kinds, s.a) && Shaped(s.kinds, s.b) && A in round && B in round
    requires AllFinished(s) || Within(s, q)
    ensures AllFinished(Exec(s, round)) || Within(Exec(s, round), q - 1)
  {
    if AllFinished(s) {
      FinishedForGood(s, round);
    } else {
      var who, f :| LeadsWithin(s, who, f, q);
      ScheduleProgress(s, round, who, f, q);
    }
  }

  lemma {:induction false} FinishedForGood(s: System, schedule: seq<Who>)
    requires Shaped(s.kinds, s.a) && Shaped(s.kinds, s.b) && AllFinished(s)
    ensures Exec(s, schedule) == s
  {
    if schedule != [] {
      FinishedForGood(s, schedule[..|schedule| - 1]);
      FinishedStays(s, schedule[|schedule| - 1]);
    }
  }

  lemma NothingLeft(s: System, q: int)
    requires Within(s, q) && q <= 0
    ensures AllFinished(s)
  {
    var who, f :| LeadsWithin(s, who, f, q);
    var me, peer := Me(s, who), Me(s, Other(who));
    RankBound(s.kinds, me);
    if me.status.Finished? && !peer.status.Finished? {
      FinishedNeverRefuses(s.kinds, peer, me);
      RankFalls(s.kinds, peer, me);
    }
  }

  function Flatten(rounds: seq<seq<Who>>): seq<Who> {
    if rounds == [] then [] else Flatten(rounds[..|rounds| - 1]) + rounds[|rounds| - 1]
  }

  lemma {:induction false} ExecConcat(s: System, a: seq<Who>, b: seq<Who>)
    requires Shaped(s.kinds, s.a) && Shaped(s.kinds, s.b)
    ensures Exec(s, a + b) == Exec(Exec(s, a), b)
  {
    if b == [] {
      assert a + b == a;
    } else {
      assert (a + b)[..|a + b| - 1] == a + b[..|b| - 1];
      ExecConcat(s, a, b[..|b| - 1]);
    }
  }

  predicate BothMove(rounds: seq<seq<Who>>) {
    forall i :: 0 <= i < |rounds| ==> A in rounds[i] && B in rounds[i]
  }

  /** Enough rounds for both sides, from the layout alone. */
  function Enough(kinds: seq<Kind>): nat {
    Tail(kinds) + Shares(|kinds|, Rest(kinds, 0)) + Rest(kinds, 0)
  }

  lemma ColdWithin(s: System)
    requires Cold(s)
    ensures Within(s, Enough(s.kinds)) && Exec(s, []) == s && Shaped(s.kinds, s.a) && Shaped(s.kinds, s.b)
  {
    ExecKeepsInv(s, []);
    RankBound(s.kinds, s.a);
    hide SideOk, CrossOk, Rank, Rest, Shares;
    assert LeadsWithin(s, A, 0, Enough(s.kinds));
  }

  lemma {:induction false} RoundsProgress(s: System, rounds: seq<seq<Who>>)
    requires Cold(s) && BothMove(rounds)
    ensures var e := Exec(s, Flatten(rounds)); AllFinished(e) || Within(e, Enough(s.kinds) - |rounds|)
  {
    hide Exec, Within, Enough, Shaped;
    ColdWithin(s);
    if rounds != [] {
      var rest, last := rounds[..|rounds| - 1], rounds[|rounds| - 1];
      RoundsProgress(s, rest);
      ExecConcat(s, Flatten(rest), last);
      hide Cold;
      RoundProgress(Exec(s, Flatten(rest)), last, Enough(s.kinds) - |rest|);
    }
  }

  /**
   Whatever the interleaving from cleared memory, however often attempts were refused and rolled back: after
   enough rounds in which each side gets a turn, both sides have finished.
   */
  lemma BothFinish(s: System, rounds: seq<seq<Who>>)
    requires Cold(s) && BothMove(rounds) && |rounds| >= Enough(s.kinds)
    ensures AllFinished(Exec(s, Flatten(rounds)))
  {
    hide Exec, Within, Enough, Flatten;
    RoundsProgress(s, rounds);
    if !AllFinished(Exec(s, Flatten(rounds))) {
      NothingLeft(Exec(s, Flatten(rounds)), Enough(s.kinds) - |rounds|);
    }
  }
}
