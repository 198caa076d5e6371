/**
 * The promises that are still pending: each belongs to one `process()` call in flight, and to one
 * batch, open or detached (apps/worker/src/batch/accumulator.ts, apps/worker/src/consumer/events.consumer.ts).
 */
module Waiters {
  import opened Prelude
  import opened Sums
  import opened Flush
  import opened Pipeline
  import opened PipelineInvariant
  import opened PipelineTheorems
  import opened DrainMeasure
  import opened Drain

  function WaitersAt(tasks: map<string, Task>): string -> nat {
    b => if b in tasks then |tasks[b].waiters| else 0
  }

  function OpenWaiters(open: map<nat, OpenEvents>, pid: nat): nat {
    if pid in open then |open[pid].waiters| else 0
  }

  /** The calls of the process that await one of these batches. */
  function AwaitingAny(calls: map<nat, Call>, pid: nat, bases: set<string>): set<nat> {
    set c | c in calls && calls[c].pid == pid && calls[c].state.Awaiting? && calls[c].state.base in bases
  }

  lemma {:induction false} NoDupSize<T(!new)>(xs: seq<T>, s: set<T>)
    requires NoDup(xs) && forall x :: x in xs <==> x in s
    ensures |xs| == |s|
  {
    if xs != [] {
      assert xs == [xs[0]] + xs[1..];
      NoDupSize(xs[1..], s - {xs[0]});
    } else {
      assert s == {};
    }
  }

  /** The waiters of a batch are exactly the calls that await it. */
  lemma WaitersAwait(calls: map<nat, Call>, pid: nat, base: string, events: seq<CaptureEvent>, waiters: seq<nat>)
    requires HeldBy(calls, pid, base, events, waiters)
    requires forall c :: c in AwaitingAny(calls, pid, {base}) ==> c in waiters
    ensures |AwaitingAny(calls, pid, {base})| == |waiters|
  {
    forall c | c in waiters ensures c in AwaitingAny(calls, pid, {base}) {
      var i :| 0 <= i < |waiters| && waiters[i] == c;
    }
    NoDupSize(waiters, AwaitingAny(calls, pid, {base}));
  }

  lemma TaskWaiters(s: State, base: string)
    requires Inv(s) && base in s.tasks
    ensures |AwaitingAny(s.calls, s.tasks[base].pid, {base})| == |s.tasks[base].waiters|
  {
    hide PhaseOk, ProgressOk, StoresOk, WriteOk;
    var pid := s.tasks[base].pid;
    assert TaskOk(s, base) && OpenOk(s, pid);
    forall c | c in AwaitingAny(s.calls, pid, {base}) ensures c in s.tasks[base].waiters { assert CallOk(s, c); }
    WaitersAwait(s.calls, pid, base, s.batches[base], s.tasks[base].waiters);
  }

  lemma OpenBatchWaiters(s: State, pid: nat)
    requires Inv(s) && pid in s.open
    ensures |AwaitingAny(s.calls, pid, {s.open[pid].batchId})| == |s.open[pid].waiters|
    ensures s.open[pid].batchId !in s.tasks
  {
    hide PhaseOk, ProgressOk, StoresOk, WriteOk;
    var b := s.open[pid];
    assert OpenOk(s, pid) && TaskOk(s, b.batchId);
    forall c | c in AwaitingAny(s.calls, pid, {b.batchId}) ensures c in b.waiters { assert CallOk(s, c); }
    WaitersAwait(s.calls, pid, b.batchId, b.events, b.waiters);
  }

  lemma AwaitingSplits(calls: map<nat, Call>, pid: nat, bases: set<string>, base: string)
    requires base in bases
    ensures |AwaitingAny(calls, pid, bases)| ==
            |AwaitingAny(calls, pid, {base})| + |AwaitingAny(calls, pid, bases - {base})|
  {
    var a, b := AwaitingAny(calls, pid, {base}), AwaitingAny(calls, pid, bases - {base});
    assert AwaitingAny(calls, pid, bases) == a + b && a !! b;
  }

  /** Different batches have different waiters, so they add up. */
  lemma {:induction false} TasksWaiters(s: State, pid: nat, bases: set<string>)
    requires Inv(s) && bases <= TasksOf(s.tasks, pid)
    ensures |AwaitingAny(s.calls, pid, bases)| == SumOver(bases, WaitersAt(s.tasks))
    decreases |bases|
  {
    hide Inv;
    if bases == {} {
      assert AwaitingAny(s.calls, pid, bases) == {};
    } else {
      var b :| b in bases;
      TaskWaiters(s, b);
      AwaitingSplits(s.calls, pid, bases, b);
      SumWithout(bases, WaitersAt(s.tasks), b);
      TasksWaiters(s, pid, bases - {b});
    }
  }

  /** Every batch the process still has to settle: the detached ones, and the open one. */
  function BasesOf(s: State, pid: nat): set<string> {
    TasksOf(s.tasks, pid) + if pid in s.open then {s.open[pid].batchId} else {}
  }

  lemma EveryAwaitedBatchIsThere(s: State, pid: nat)
    requires Inv(s)
    ensures AwaitingAny(s.calls, pid, BasesOf(s, pid)) == Unsettled(s.calls, pid)
  {
    hide PhaseOk, ProgressOk, StoresOk, WriteOk, HeldBy;
    forall c | c in Unsettled(s.calls, pid)
      ensures c in AwaitingAny(s.calls, pid, BasesOf(s, pid))
    {
      assert CallOk(s, c);
    }
  }

  /**
   * The pending waiters of the open batch and of all detached ones together are exactly as many as the
   * process has calls that await a batch, and so never more than its `process()` calls in flight.
   */
  lemma WaitersWithinCalls(s: State, pid: nat)
    requires Inv(s)
    ensures OpenWaiters(s.open, pid) + SumOver(TasksOf(s.tasks, pid), WaitersAt(s.tasks)) == |Unsettled(s.calls, pid)|
    ensures |Unsettled(s.calls, pid)| <= |InFlight(s.calls, pid)|
  {
    hide Inv;
    EveryAwaitedBatchIsThere(s, pid);
    TasksWaiters(s, pid, TasksOf(s.tasks, pid));
    if pid in s.open {
      var b := s.open[pid].batchId;
      OpenBatchWaiters(s, pid);
      AwaitingSplits(s.calls, pid, BasesOf(s, pid), b);
      assert BasesOf(s, pid) - {b} == TasksOf(s.tasks, pid);
    } else {
      assert BasesOf(s, pid) == TasksOf(s.tasks, pid);
    }
    SubsetSize(Unsettled(s.calls, pid), InFlight(s.calls, pid));
  }
}
