/**
 * apps/worker/src/consumer/shutdown.ts: pause the consumer, then flush and wait until no
 * `process()` call is in flight and the accumulator is empty.
 */
module Drain {
  import opened Prelude
  import opened ClassifyFlushError
  import opened Flush
  import opened FlushTheorems
  import opened Pipeline
  import opened PipelineInvariant
  import opened PipelineSteps
  import opened DrainMeasure

  // ---------------------------------------------------------------------------------------------
  // Nothing else adds work to a paused process
  // ---------------------------------------------------------------------------------------------

  ghost predicate SameFor(s: State, t: State, pid: nat) {
    && (forall c :: (c in s.calls && s.calls[c].pid == pid) <==> (c in t.calls && t.calls[c].pid == pid))
    && (forall c :: c in s.calls && s.calls[c].pid == pid ==> t.calls[c] == s.calls[c])
    && (forall b :: (b in s.tasks && s.tasks[b].pid == pid) <==> (b in t.tasks && t.tasks[b].pid == pid))
    && (forall b :: b in s.tasks && s.tasks[b].pid == pid ==> t.tasks[b] == s.tasks[b])
    && (pid in s.open <==> pid in t.open) && (pid in s.open ==> t.open[pid] == s.open[pid])
    && HandlersOf(s.onFailed, pid) == HandlersOf(t.onFailed, pid)
  }

  lemma SameRemaining(s: State, t: State, pid: nat)
    requires Inv(s) && SameFor(s, t, pid) && forall b :: b in s.batches ==>
      b in t.batches && t.batches[b] == s.batches[b]
    ensures Remaining(t, pid) == Remaining(s, pid)
  {
    CallsElsewhere(s, t, pid);
    forall b | b in s.tasks ensures b in s.batches { assert TaskOk(s, b); }
    TasksElsewhere(s, t, pid);
  }

  lemma DetachElsewhere(s: State, q: nat, pid: nat)
    requires Inv(s) && q in s.open && q != pid
    ensures SameFor(s, DetachOpen(s, q, s.open[q]), pid)
  {
    assert OpenOk(s, q);
    assert TaskOk(s, s.open[q].batchId);
  }

  lemma JoinElsewhere(s: State, c: nat, freshId: string, pid: nat)
    requires CanJoin(s, c, freshId) && s.calls[c].pid != pid
    ensures SameFor(s, Joined(s, c, freshId), pid)
  {
  }

  lemma SameForTransitive(s: State, t: State, u: State, pid: nat)
    requires SameFor(s, t, pid) && SameFor(t, u, pid)
    ensures SameFor(s, u, pid)
  {
  }

  /** A call of another process comes, changes or goes. */
  lemma OtherCallChanges(s: State, t: State, c: nat, pid: nat)
    requires t.tasks == s.tasks && t.open == s.open && HandlersOf(t.onFailed, pid) == HandlersOf(s.onFailed, pid)
    requires forall d :: d != c ==> (d in s.calls <==> d in t.calls) && (d in s.calls ==> t.calls[d] == s.calls[d])
    requires (c in s.calls ==> s.calls[c].pid != pid) && (c in t.calls ==> t.calls[c].pid != pid)
    ensures SameFor(s, t, pid)
  {
  }

  lemma NothingOfIt(s: State, t: State, pid: nat)
    requires t.calls == s.calls && t.tasks == s.tasks && t.open == s.open
      && HandlersOf(t.onFailed, pid) == HandlersOf(s.onFailed, pid)
    ensures SameFor(s, t, pid)
  {
  }

  lemma ProcessElsewhere(cfg: Config, s: State, c: nat, freshId: string, pid: nat)
    requires Inv(s) && Enabled(cfg, s, Process(c, freshId)) && s.calls[c].pid != pid
    ensures SameFor(s, Processed(cfg, s, c, freshId), pid)
  {
    hide Inv, SameFor;
    if s.calls[c].data.Malformed? {
      OtherCallChanges(s, Processed(cfg, s, c, freshId), c, pid);
    } else {
      assert CanJoin(s, c, freshId);
      ProcessIsJoin(cfg, s, c, freshId);
      hide Enabled, Processed;
      JoinedElsewhere(cfg, s, c, freshId, pid);
    }
  }

  lemma JoinedElsewhere(cfg: Config, s: State, c: nat, freshId: string, pid: nat)
    requires Inv(s) && CanJoin(s, c, freshId) && s.calls[c].pid != pid
    ensures var t, b := Joined(s, c, freshId), Grown(s, c, freshId);
            SameFor(s, t, pid) && SameFor(s, DetachOpen(t, s.calls[c].pid, b), pid)
  {
    hide Inv, SameFor;
    JoinElsewhere(s, c, freshId, pid);
    JoinKeeps(s, c, freshId);
    var t := Joined(s, c, freshId);
    DetachElsewhere(t, s.calls[c].pid, pid);
    SameForTransitive(s, t, DetachOpen(t, s.calls[c].pid, Grown(s, c, freshId)), pid);
  }

  lemma SettleElsewhere(s: State, base: string, pid: nat)
    requires Inv(s) && base in s.tasks && s.tasks[base].phase.Done? && s.tasks[base].pid != pid
    ensures SameFor(s, s.(calls := SettleWaiters(s.calls, s.tasks[base].waiters, s.tasks[base].phase.ok),
      tasks := s.tasks - {base}), pid)
  {
    assert TaskOk(s, base);
    hide Inv, PhaseOk, ProgressOk;
    forall w | w in s.tasks[base].waiters ensures w in s.calls && s.calls[w].pid != pid {
      var i :| 0 <= i < |s.tasks[base].waiters| && s.tasks[base].waiters[i] == w;
    }
  }

  lemma AckElsewhere(s: State, c: nat, pid: nat)
    requires Inv(s) && c in s.calls && s.calls[c].state.Returned? && s.calls[c].job in s.jobs && s.calls[c].pid != pid
    ensures SameFor(s, Acked(s, c), pid) && SameFor(s, s.(calls := s.calls - {c}), pid)
  {
    hide Inv, SameFor;
    AckedFrame(s, c);
    hide Acked;
    assert HandlersOf(s.onFailed + {(s.calls[c].pid, s.calls[c].job)}, pid) == HandlersOf(s.onFailed, pid);
    OtherCallChanges(s, Acked(s, c), c, pid);
    OtherCallChanges(s, s.(calls := s.calls - {c}), c, pid);
  }

  lemma KillElsewhere(s: State, q: nat, pid: nat)
    requires q != pid
    ensures SameFor(s, Killed(s, q), pid)
  {
  }

  lemma FlushElsewhere(cfg: Config, s: State, step: Step, pid: nat)
    requires IsTaskStep(step) && Enabled(cfg, s, step) && s.tasks[step.base].pid != pid
    ensures SameFor(s, Apply(cfg, s, step), pid)
  {
    TaskStepFrame(cfg, s, step);
  }

  lemma RouteElsewhere(cfg: Config, s: State, call: nat, a: Answer<Thrown>, pid: nat)
    requires Enabled(cfg, s, Route(call, a)) && s.calls[call].pid != pid
    ensures SameFor(s, Apply(cfg, s, Route(call, a)), pid)
  {
    hide SameFor;
    AfterWriteFrame(s, Send(SchemaValidationFailed(s.calls[call].data.raw)), a);
    OtherCallChanges(s, Apply(cfg, s, Route(call, a)), call, pid);
  }

  lemma NotifyElsewhere(cfg: Config, s: State, q: nat, job: nat, a: Answer<Thrown>, pid: nat)
    requires Enabled(cfg, s, NotifyFailed(q, job, a)) && q != pid
    ensures SameFor(s, Apply(cfg, s, NotifyFailed(q, job, a)), pid)
  {
    hide SameFor;
    AfterWriteFrame(s, Send(FinalEntry(s.jobs[job].data)), a);
    assert HandlersOf(s.onFailed - {(q, job)}, pid) == HandlersOf(s.onFailed, pid);
    NothingOfIt(s, Apply(cfg, s, NotifyFailed(q, job, a)), pid);
  }

  lemma CallElsewhere(cfg: Config, s: State, step: Step, pid: nat)
    requires Enabled(cfg, s, step) && Owner(s, step) != Some(pid) && pid in s.paused && (step.Fetch? || step.Return?)
    ensures SameFor(s, Apply(cfg, s, step), pid)
  {
    hide SameFor;
    OtherCallChanges(s, Apply(cfg, s, step), step.call, pid);
  }

  lemma RestElsewhere(cfg: Config, s: State, step: Step, pid: nat)
    requires Enabled(cfg, s, step) && (step.Enqueue? || step.Pause? || step.Stall? || step.Sweep? || step.Land?)
    ensures SameFor(s, Apply(cfg, s, step), pid)
  {
    hide SameFor;
    NothingOfIt(s, Apply(cfg, s, step), pid);
  }

  /** Steps of others, and of the queue and the stores, leave a paused process as it was. */
  lemma OtherStepsKeep(cfg: Config, s: State, step: Step, pid: nat)
    requires Inv(s) && Enabled(cfg, s, step) && Owner(s, step) != Some(pid) && step != Kill(pid) && pid in s.paused
    ensures Remaining(Apply(cfg, s, step), pid) == Remaining(s, pid)
  {
    hide Inv, SameFor, Remaining, Enabled, Apply;
    StepKeeps(cfg, s, step);
    OtherStepsAreElsewhere(cfg, s, step, pid);
    SameRemaining(s, Apply(cfg, s, step), pid);
  }

  lemma OtherStepsAreElsewhere(cfg: Config, s: State, step: Step, pid: nat)
    requires Inv(s) && Enabled(cfg, s, step) && Owner(s, step) != Some(pid) && step != Kill(pid) && pid in s.paused
    ensures SameFor(s, Apply(cfg, s, step), pid)
  {
    hide Inv, SameFor, FlushBatchFailed, AfterPut, AfterAnswer, AfterSelect, AfterWrite, SettleWaiters;
    if IsTaskStep(step) {
      FlushElsewhere(cfg, s, step, pid);
    } else if step.Fetch? || step.Return? {
      CallElsewhere(cfg, s, step, pid);
    } else {
      match step
      case Route(c, a) => RouteElsewhere(cfg, s, c, a, pid);
      case NotifyFailed(q, job, a) => NotifyElsewhere(cfg, s, q, job, a, pid);
      case Process(c, freshId) => ProcessElsewhere(cfg, s, c, freshId, pid);
      case Trigger(q) => DetachElsewhere(s, q, pid);
      case Settle(base) => SettleElsewhere(s, base, pid);
      case Ack(c, _) => AckElsewhere(s, c, pid);
      case Kill(q) => KillElsewhere(s, q, pid);
      case _ => RestElsewhere(cfg, s, step, pid);
    }
  }

  lemma StaysPaused(cfg: Config, s: State, step: Step, pid: nat)
    requires Enabled(cfg, s, step) && pid in s.paused && step != Kill(pid)
    ensures pid in Apply(cfg, s, step).paused
  {
    hide FlushBatchFailed, AfterPut, AfterAnswer, AfterSelect, SettleWaiters;
    if IsTaskStep(step) {
      TaskStepFrame(cfg, s, step);
    } else if step.Process? && s.calls[step.call].data.Decoded? {
      ProcessIsJoin(cfg, s, step.call, step.freshId);
    }
  }

  /** The process's own steps. */
  function TakenBy(pid: nat): Kind { (s, step) => Owner(s, step) == Some(pid) }

  /** How many steps of the run are the process's own. */
  function OwnSteps(cfg: Config, s: State, steps: seq<Step>, pid: nat): nat
    requires Run(cfg, s, steps).Some?
  {
    CountSteps(cfg, s, steps, TakenBy(pid))
  }

  /**
   * After `pause`, a process comes to rest: over every run in which it is not killed, the steps it
   * takes are bounded by a number known at the pause, whatever the stores answer and whatever the
   * other processes do.
   */
  lemma {:induction false} PausedProcessComesToRest(cfg: Config, s: State, steps: seq<Step>, pid: nat)
    requires Inv(s) && Run(cfg, s, steps).Some? && pid in s.paused && Kill(pid) !in steps
    ensures OwnSteps(cfg, s, steps, pid) + Remaining(Run(cfg, s, steps).value, pid) <= Remaining(s, pid)
    ensures pid in Run(cfg, s, steps).value.paused && Inv(Run(cfg, s, steps).value)
    decreases |steps|
  {
    if steps != [] {
      var step := steps[0];
      assert step in steps;
      StepKeeps(cfg, s, step);
      StaysPaused(cfg, s, step, pid);
      if Owner(s, step) == Some(pid) { OwnStepLowers(cfg, s, step, pid); } else { OtherStepsKeep(cfg, s, step, pid); }
      PausedProcessComesToRest(cfg, Apply(cfg, s, step), steps[1..], pid);
    }
  }

  // ---------------------------------------------------------------------------------------------
  // While a call is in flight, the process can take a step
  // ---------------------------------------------------------------------------------------------

  /** `pendingJobCount` counts these: entered and not yet returned. */
  function InFlight(calls: map<nat, Call>, pid: nat): set<nat> {
    set c | c in calls && calls[c].pid == pid
      && (calls[c].state.Awaiting? || calls[c].state.Routing? || calls[c].state.Settled?)
  }

  ghost predicate CanMove(cfg: Config, s: State, pid: nat) {
    exists step :: Enabled(cfg, s, step) && Owner(s, step) == Some(pid) && !step.Trigger?
  }

  lemma FlushCanMove(cfg: Config, s: State, base: string)
    requires Inv(s) && base in s.tasks
    ensures CanMove(cfg, s, s.tasks[base].pid)
  {
    assert TaskOk(s, base);
    var t := s.tasks[base];
    var step :=
      match t.phase
      case Selecting => Selected(base, map[])
      case Putting(_, _) => PutAnswered(base, Good)
      case Done(_) => Settle(base)
      case _ => Answered(base, Good);
    assert Enabled(cfg, s, step) && Owner(s, step) == Some(t.pid);
  }

  /**
   * No deadlock: with a call in flight, either `flushNow` has a batch to flush or something else of the
   * process can go on.
   */
  lemma CallsCanMove(cfg: Config, s: State, pid: nat)
    requires Inv(s) && InFlight(s.calls, pid) != {}
    ensures pid in s.open || CanMove(cfg, s, pid)
  {
    var c :| c in InFlight(s.calls, pid);
    assert CallOk(s, c);
    match s.calls[c].state
    case Awaiting(base) => if pid !in s.open { FlushCanMove(cfg, s, base); }
    case Routing => assert Enabled(cfg, s, Route(c, Good)) && Owner(s, Route(c, Good)) == Some(pid);
    case Settled(_) => assert Enabled(cfg, s, Return(c)) && Owner(s, Return(c)) == Some(pid);
  }

  /**
   * Why `drain` flushes while it waits. Once every call of a process waits in its open batch, a
   * trigger is the only step the process can take: waiting for the calls first would never end but
   * for the timer.
   */
  lemma OnlyAFlushHelps(cfg: Config, s: State, step: Step, pid: nat)
    requires Inv(s) && pid in s.open && HandlersOf(s.onFailed, pid) == {}
    requires forall c :: c in s.calls && s.calls[c].pid == pid ==> c in s.open[pid].waiters
    requires Enabled(cfg, s, step) && Owner(s, step) == Some(pid)
    ensures step == Trigger(pid)
  {
    assert OpenOk(s, pid);
    forall c | c in s.calls && s.calls[c].pid == pid ensures s.calls[c].state == Awaiting(s.open[pid].batchId) {
      var i :| 0 <= i < |s.open[pid].waiters| && s.open[pid].waiters[i] == c;
    }
    forall b | b in s.tasks ensures s.tasks[b].pid != pid {
      assert TaskOk(s, b);
      assert s.tasks[b].waiters[0] in s.calls;
    }
    assert forall h :: h in s.onFailed && h.0 == pid ==> h in HandlersOf(s.onFailed, pid);
  }

  lemma OpenHasCall(s: State, pid: nat)
    requires Inv(s) && pid in s.open
    ensures InFlight(s.calls, pid) != {}
  {
    assert OpenOk(s, pid);
    assert s.open[pid].waiters[0] in InFlight(s.calls, pid);
  }

  lemma TaskHasCall(s: State, base: string)
    requires Inv(s) && base in s.tasks
    ensures InFlight(s.calls, s.tasks[base].pid) != {}
  {
    assert TaskOk(s, base);
    assert s.tasks[base].waiters[0] in InFlight(s.calls, s.tasks[base].pid);
  }

  /** With no call in flight, nothing added is unsettled: no open batch and no running flush. */
  lemma QuietMeansSettled(s: State, pid: nat)
    requires Inv(s) && InFlight(s.calls, pid) == {}
    ensures pid !in s.open
    ensures forall b :: b in s.tasks ==> s.tasks[b].pid != pid
  {
    if pid in s.open { OpenHasCall(s, pid); }
    forall b | b in s.tasks ensures s.tasks[b].pid != pid { TaskHasCall(s, b); }
  }

  // ---------------------------------------------------------------------------------------------
  // drain()
  // ---------------------------------------------------------------------------------------------

  /** A flush that is still running keeps running until it settles. */
  lemma FlushStays(cfg: Config, s: State, step: Step, base: string)
    requires Inv(s) && Enabled(cfg, s, step) && base in s.tasks && step != Settle(base)
      && step != Kill(s.tasks[base].pid)
    ensures base in Apply(cfg, s, step).tasks && Apply(cfg, s, step).tasks[base].pid == s.tasks[base].pid
  {
    hide Inv, FlushBatchFailed, AfterPut, AfterAnswer, AfterSelect, SettleWaiters, AfterWrite;
    if IsTaskStep(step) {
      TaskStepFrame(cfg, s, step);
    } else if step.Process? {
      FlushStaysProcess(cfg, s, step.call, step.freshId, base);
    } else if step.Trigger? {
      OpenBatchIsNew(s, step.pid);
    } else if step.Route? {
      AfterWriteFrame(s, Send(SchemaValidationFailed(s.calls[step.call].data.raw)), step.answer);
    } else if step.NotifyFailed? {
      AfterWriteFrame(s, Send(FinalEntry(s.jobs[step.job].data)), step.answer);
    } else if step.Ack? {
      AckedFrame(s, step.call);
    }
  }

  lemma FlushStaysProcess(cfg: Config, s: State, c: nat, freshId: string, base: string)
    requires Inv(s) && Enabled(cfg, s, Process(c, freshId)) && base in s.tasks
    ensures base in Processed(cfg, s, c, freshId).tasks && Processed(cfg, s, c, freshId).tasks[base] == s.tasks[base]
  {
    hide Inv;
    if s.calls[c].data.Decoded? {
      ProcessIsJoin(cfg, s, c, freshId);
      JoinedIsFresh(s, c, freshId, base);
    }
  }

  lemma JoinedIsFresh(s: State, c: nat, freshId: string, base: string)
    requires Inv(s) && CanJoin(s, c, freshId) && base in s.tasks
    ensures Grown(s, c, freshId).batchId != base
  {
    assert TaskOk(s, base) && OpenOk(s, s.calls[c].pid);
  }

  /**
   * What happens around a draining process: `schedule(s, k)` is what takes place in the `k`-th period
   * between two looks of the loop, by anyone. The process itself is scheduled fairly: period
   * `turn(k)`, the next one that counts, holds a step of the process if one is possible. This is
   * where every started call eventually settles; nothing bounds when.
   */
  datatype Surroundings = Surroundings(schedule: (State, nat) -> seq<Step>, turn: nat -> nat) {
    ghost predicate Fair(cfg: Config, pid: nat) {
      && (forall k: nat :: turn(k) >= k && (turn(k) > k ==> turn(k + 1) == turn(k)))
      && forall s, k: nat :: Inv(s) && pid in s.paused ==>
           var steps := schedule(s, k);
           && Run(cfg, s, steps).Some? && Kill(pid) !in steps
           && (turn(k) == k && CanMove(cfg, s, pid) ==> OwnSteps(cfg, s, steps, pid) > 0)
    }
  }

  ghost function SomeMove(cfg: Config, s: State, pid: nat): (step: Step)
    requires CanMove(cfg, s, pid)
    ensures Enabled(cfg, s, step) && Owner(s, step) == Some(pid) && !step.Trigger?
  {
    var step :| Enabled(cfg, s, step) && Owner(s, step) == Some(pid) && !step.Trigger?;
    step
  }

  /** Such surroundings exist for every process: let it take a step whenever it can. */
  lemma FairSurroundingsExist(cfg: Config, pid: nat)
    ensures exists around: Surroundings :: around.Fair(cfg, pid)
  {
    var schedule := (s: State, k: nat) => if CanMove(cfg, s, pid) then [SomeMove(cfg, s, pid)] else [];
    var around := Surroundings(schedule, k => k);
    forall s, k: nat | Inv(s) && pid in s.paused
      ensures Run(cfg, s, schedule(s, k)).Some? && Kill(pid) !in schedule(s, k)
      ensures CanMove(cfg, s, pid) ==> OwnSteps(cfg, s, schedule(s, k), pid) > 0
    {
      if CanMove(cfg, s, pid) { OneMove(cfg, s, SomeMove(cfg, s, pid), pid); }
    }
    assert around.Fair(cfg, pid);
  }

  lemma OneMove(cfg: Config, s: State, step: Step, pid: nat)
    requires Enabled(cfg, s, step) && Owner(s, step) == Some(pid)
    ensures Run(cfg, s, [step]).Some? && Kill(pid) !in [step] && OwnSteps(cfg, s, [step], pid) == 1
  {
    hide Enabled, Apply;
    var t := Apply(cfg, s, step);
    assert [step][1..] == [] && Run(cfg, t, []) == Some(t);
    assert CountSteps(cfg, t, [], TakenBy(pid)) == 0;
  }

  lemma SettledIsDurable(cfg: Config, s: State, base: string)
    requires Inv(s) && Enabled(cfg, s, Settle(base))
    ensures base in s.tasks && s.tasks[base].phase.Done? && base in s.batches
    ensures s.tasks[base].phase.ok ==> AllDurable(Ever(s), s.batches[base])
  {
    assert TaskOk(s, base);
    DoneIsDurable(Ever(s), s.batches[base], s.tasks[base]);
  }

  /** Every flush that settled well has its batch durable. */
  ghost predicate FlushesDurable(s: State, flushes: map<string, bool>) {
    forall b :: b in flushes && flushes[b] ==> b in s.batches && AllDurable(Ever(s), s.batches[b])
  }

  lemma FlushesStayDurable(s: State, t: State, flushes: map<string, bool>)
    requires FlushesDurable(s, flushes) && Grows(s, t)
    ensures FlushesDurable(t, flushes)
  {
    forall b | b in flushes && flushes[b] ensures b in t.batches && AllDurable(Ever(t), t.batches[b]) {
      StayDurable(Ever(s), Ever(t), s.batches[b]);
    }
  }

  lemma GrowsSelf(s: State)
    ensures Grows(s, s)
  {
    ExtendsSelf(Ever(s));
  }

  lemma BatchStays(s: State, t: State, base: string)
    requires Grows(s, t) && base in s.batches
    ensures base in t.batches && t.batches[base] == s.batches[base]
  {
  }

  lemma PauseTakes(cfg: Config, s: State, pid: nat)
    ensures Enabled(cfg, s, Pause(pid)) && pid in Apply(cfg, s, Pause(pid)).paused
  {
  }

  lemma TriggerDetaches(cfg: Config, s: State, pid: nat)
    requires pid in s.open
    ensures Enabled(cfg, s, Trigger(pid)) && Owner(s, Trigger(pid)) == Some(pid)
    ensures var t, b := Apply(cfg, s, Trigger(pid)), s.open[pid];
            && b.batchId in t.tasks && t.tasks[b.batchId].pid == pid
            && b.batchId in t.batches && t.batches[b.batchId] == b.events
  {
  }

  class ShutdownService {
    const cfg: Config
    const pid: nat
    const around: Surroundings
    var s: State
    var period: nat
    /** How the flushes that this process started have settled. */
    var flushes: map<string, bool>

    constructor (cfg: Config, pid: nat, around: Surroundings, s: State)
      ensures this.cfg == cfg && this.pid == pid && this.around == around && this.s == s && flushes == map[]
    {
      this.cfg := cfg;
      this.pid := pid;
      this.around := around;
      this.s := s;
      period := 0;
      flushes := map[];
    }

    ghost predicate Ready()
      reads this
    {
      around.Fair(cfg, pid) && Inv(s) && pid in s.paused && FlushesDurable(s, flushes)
    }

    ghost function Patience(): nat
      reads this
      requires around.Fair(cfg, pid)
    {
      around.turn(period) - period
    }

    /** One period. Something of the process happens in it, or patience runs down, if anything can. */
    method Period(ghost base: string)
      requires Ready()
      modifies this
      ensures Ready() && Grows(old(s), s)
      ensures Remaining(s, pid) <= Remaining(old(s), pid)
      ensures CanMove(cfg, old(s), pid) && Remaining(s, pid) == Remaining(old(s), pid) ==> Patience() < old(Patience())
      ensures base in old(s).tasks && old(s).tasks[base].pid == pid ==>
                (base in s.tasks && s.tasks[base].pid == pid) || base in flushes
      ensures forall b :: b in old(flushes) ==> b in flushes
    {
      hide Inv, Grows, Enabled, Run, OwnSteps;
      var steps := around.schedule(s, period);
      PausedProcessComesToRest(cfg, s, steps, pid);
      TakeAll(steps, base);
      period := period + 1;
    }

    method TakeAll(steps: seq<Step>, ghost base: string)
      requires Ready() && Run(cfg, s, steps).Some? && Kill(pid) !in steps
      modifies this`s, this`flushes
      ensures Ready() && Grows(old(s), s) && s == Run(cfg, old(s), steps).value
      ensures base in old(s).tasks && old(s).tasks[base].pid == pid ==>
        (base in s.tasks && s.tasks[base].pid == pid) || base in flushes
      ensures forall b :: b in old(flushes) ==> b in flushes
    {
      hide Inv, Grows, Enabled, Apply, AllDurable, Surroundings.Fair;
      ghost var start := s;
      GrowsSelf(s);
      var i := 0;
      while i < |steps|
        invariant 0 <= i <= |steps|
        invariant Ready() && Grows(start, s)
        invariant Run(cfg, s, steps[i..]) == Run(cfg, start, steps)
        invariant base in start.tasks && start.tasks[base].pid == pid ==>
          (base in s.tasks && s.tasks[base].pid == pid) || base in flushes
        invariant forall b :: b in old(flushes) ==> b in flushes
      {
        assert steps[i..][0] == steps[i] && steps[i..][1..] == steps[i + 1..];
        ghost var here := s;
        Take(steps[i], base);
        GrowsTransitive(start, here, s);
        i := i + 1;
      }
      assert steps[i..] == [];
    }

    /** One step happens; the promise of a flush that settles with it is fulfilled or rejected. */
    method Take(step: Step, ghost base: string)
      requires Ready() && Enabled(cfg, s, step) && step != Kill(pid)
      modifies this`s, this`flushes
      ensures Ready() && s == Apply(cfg, old(s), step) && Grows(old(s), s)
      ensures base in old(s).tasks && old(s).tasks[base].pid == pid ==>
        (base in s.tasks && s.tasks[base].pid == pid) || base in flushes
      ensures forall b :: b in old(flushes) ==> b in flushes
    {
      hide Inv, Grows, Enabled, Apply, AllDurable, Surroundings.Fair;
      StepKeeps(cfg, s, step);
      StaysPaused(cfg, s, step, pid);
      ghost var before := s;
      if base in s.tasks && step != Settle(base) && s.tasks[base].pid == pid { FlushStays(cfg, s, step, base); }
      if step.Settle? { SettledIsDurable(cfg, s, step.base); }
      if step.Settle? && s.tasks[step.base].pid == pid {
        flushes := flushes[step.base := s.tasks[step.base].phase.ok];
      }
      s := Apply(cfg, s, step);
      FlushesStayDurable(before, s, flushes);
    }

    /** Awaiting the promise of one flush. */
    method AwaitFlush(base: string) returns (ok: bool)
      requires Ready() && ((base in s.tasks && s.tasks[base].pid == pid) || base in flushes)
      modifies this
      ensures Ready() && Grows(old(s), s) && Remaining(s, pid) <= Remaining(old(s), pid)
      ensures base in flushes && ok == flushes[base]
    {
      hide Inv, Grows, Enabled, Apply, AllDurable, Surroundings.Fair, Remaining;
      ghost var start := s;
      GrowsSelf(s);
      while base !in flushes
        invariant Ready() && Grows(start, s) && Remaining(s, pid) <= Remaining(start, pid)
        invariant (base in s.tasks && s.tasks[base].pid == pid) || base in flushes
        decreases Remaining(s, pid), Patience()
      {
        FlushCanMove(cfg, s, base);
        ghost var here := s;
        Period(base);
        GrowsTransitive(start, here, s);
      }
      ok := flushes[base];
    }

    /** `flushNow()`: nothing to do without an open batch, else detach it and await its outcome. */
    method FlushNow() returns (ok: bool)
      requires Ready()
      modifies this
      ensures Ready() && Grows(old(s), s)
      ensures if pid in old(s).open then Remaining(s, pid) < Remaining(old(s), pid)
              else s == old(s) && period == old(period)
      ensures ok && pid in old(s).open ==> AllDurable(Ever(s), old(s).open[pid].events)
      ensures !ok ==> exists b :: b in flushes && !flushes[b]
    {
      hide Inv, Grows, Enabled, Apply, AllDurable, Surroundings.Fair, Remaining;
      GrowsSelf(s);
      if pid !in s.open {
        return true;
      }
      ghost var start := s;
      var base := s.open[pid].batchId;
      TriggerDetaches(cfg, s, pid);
      OwnStepLowers(cfg, s, Trigger(pid), pid);
      Take(Trigger(pid), base);
      ghost var detached := s;
      ok := AwaitFlush(base);
      GrowsTransitive(start, detached, s);
      BatchStays(detached, s, base);
    }

    /**
     * `drain()` ends, with no assumption on how any flush turns out. When it returns normally, every
     * event handed to `add` has had its batch settled; it rejects only when a final flush did.
     */
    method Drain() returns (ok: bool)
      requires around.Fair(cfg, pid) && Inv(s) && flushes == map[]
      modifies this
      ensures Inv(s) && Grows(old(s), s)
      ensures ok ==> InFlight(s.calls, pid) == {} && pid !in s.open && forall b :: b in s.tasks ==>
        s.tasks[b].pid != pid
      ensures !ok ==> exists b :: b in flushes && !flushes[b]
    {
      ghost var start := s;
      PauseTakes(cfg, s, pid);
      hide Inv, Grows, Enabled, Apply, Surroundings.Fair, Remaining;
      StepKeeps(cfg, s, Pause(pid));
      s := Apply(cfg, s, Pause(pid));
      while InFlight(s.calls, pid) != {} || pid in s.open
        invariant Ready() && Grows(start, s)
        decreases Remaining(s, pid), Patience()
      {
        ghost var here, hadBatch := s, pid in s.open;
        ok := FlushNow();
        GrowsTransitive(start, here, s);
        if !ok {
          return false;
        }
        if InFlight(s.calls, pid) != {} {
          ghost var flushed := s;
          if !hadBatch { CallsCanMove(cfg, s, pid); }
          Period("");
          GrowsTransitive(start, flushed, s);
        }
      }
      QuietMeansSettled(s, pid);
      return true;
    }
  }
}
