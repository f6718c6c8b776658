/** The interrupt and tasklet routines of os_kernel/ipc-os.c, each as one uninterrupted call. */
module Kernel {
  import opened Types
  import opened RxCount
  import opened RxLoop

  /** Driver state the two routines touch; `active[i]` is: instance enabled and interrupt configured. */
  class Os {
    const insts: seq<Instance>
    const active: seq<bool>
    var enabled: seq<bool>
    var pending: seq<bool>
    var scheduled: bool

    constructor (insts: seq<Instance>, active: seq<bool>)
      requires |insts| == |active|
      ensures this.insts == insts && this.active == active && Shaped() && !scheduled
    {
      this.insts, this.active, scheduled := insts, active, false;
      enabled, pending := seq(|insts|, _ => true), seq(|insts|, _ => false);
    }

    predicate Shaped()
      reads this
    {
      |insts| == |active| == |enabled| == |pending|
    }

    ghost predicate Valid()
      reads this, insts
    {
      && Shaped() && (forall i, j :: 0 <= i < j < |insts| ==> insts[i] != insts[j])
      && forall i :: 0 <= i < |insts| ==> ViewOk(insts[i].Now())
    }

    /** Every active instance is silenced and acknowledged before the tasklet is scheduled. */
    method Hardirq()
      requires Shaped()
      modifies this
      ensures Shaped() && scheduled
      ensures forall i :: 0 <= i < |insts| ==>
                && enabled[i] == (!active[i] && old(enabled[i]))
                && pending[i] == (!active[i] && old(pending[i]))
    {
      var i := 0;
      while i < |insts|
        invariant i <= |insts| && Shaped()
        invariant forall j :: 0 <= j < i ==>
                    && enabled[j] == (!active[j] && old(enabled[j]))
                    && pending[j] == (!active[j] && old(pending[j]))
        invariant forall j :: i <= j < |insts| ==> enabled[j] == old(enabled[j]) && pending[j] == old(pending[j])
      {
        if active[i] {
          enabled := enabled[i := false];
          pending := pending[i := false];
        }
        i := i + 1;
      }
      scheduled := true;
    }

    /** What the tasklet has done for an instance since its view was `v`; `work` is what its receive loop counted. */
    static ghost predicate Visited(v: View, w: View, traffic: Traffic, isUsed: bool, work: nat) {
      && Later(v, w, traffic)
      && if isUsed then RxProgress(v, w, traffic, IPC_SOFTIRQ_BUDGET, work, work >= IPC_SOFTIRQ_BUDGET) else work == 0
    }

    /** One turn of the tasklet's loop: scheduled again exactly when the budget was used up, enabled in any case. */
    method Visit(i: nat, traffic: Traffic) returns (ghost work: nat)
      requires Valid() && i < |insts| && active[i]
      modifies this`enabled, this`scheduled, insts[i]
      ensures Valid() && enabled == old(enabled)[i := true] && insts[i].used == old(insts[i].used)
      ensures scheduled <==> old(scheduled) || work >= IPC_SOFTIRQ_BUDGET
      ensures Visited(old(insts[i].Now()), insts[i].Now(), traffic, insts[i].used, work)
    {
      hide Later, RxProgress, ChanOk, Rx;
      var got := insts[i].ShmRx(traffic, IPC_SOFTIRQ_BUDGET);
      if got >= IPC_SOFTIRQ_BUDGET {
        scheduled := true;
      } else {
        enabled := enabled[i := true];
      }
      enabled := enabled[i := true];
      work := got;
    }

    /**
     Every active instance is served fairly and gets its interrupt back; the tasklet is scheduled again exactly when
     some instance used up its budget, and where one did not, everything that was pending on it has been handed over.
     */
    method Softirq(traffic: seq<Traffic>) returns (ghost works: seq<nat>)
      requires Valid() && |traffic| == |insts|
      modifies this, insts
      ensures Valid() && pending == old(pending) && |works| == |insts|
      ensures forall i :: 0 <= i < |insts| ==> enabled[i] == (active[i] || old(enabled[i]))
      ensures scheduled <==> old(scheduled) || exists i :: 0 <= i < |insts| && works[i] >= IPC_SOFTIRQ_BUDGET
      ensures forall i :: 0 <= i < |insts| ==>
                if active[i] then Visited(old(insts[i].Now()), insts[i].Now(), traffic[i], insts[i].used, works[i])
                else insts[i].Now() == old(insts[i].Now()) && works[i] == 0
    {
      hide Visited, ViewOk;
      works := [];
      var i := 0;
      while i < |insts|
        invariant i <= |insts| && |works| == i && Valid() && pending == old(pending)
        invariant forall j :: 0 <= j < |insts| ==> enabled[j] == ((j < i && active[j]) || old(enabled[j]))
        invariant scheduled <==> old(scheduled) || exists j :: 0 <= j < i && works[j] >= IPC_SOFTIRQ_BUDGET
        invariant forall j :: 0 <= j < i && active[j] ==>
                    Visited(old(insts[j].Now()), insts[j].Now(), traffic[j], insts[j].used, works[j])
        invariant forall j :: 0 <= j < |insts| && (i <= j || !active[j]) ==> insts[j].Now() == old(insts[j].Now())
        invariant forall j :: 0 <= j < i && !active[j] ==> works[j] == 0
      {
        ghost var work := 0;
        if active[i] {
          work := Visit(i, traffic[i]);
        }
        ghost var before := works;
        works := works + [work];
        assert works[i] == work && forall j :: 0 <= j < i ==> works[j] == before[j];
        i := i + 1;
      }
    }
  }
}
