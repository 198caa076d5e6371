/**
 * What the queue learns: a flush settles exactly the calls that wait for it, and each of their jobs is
 * completed, or fails once, as the flush turned out.
 */
module Delivery {
  import opened Prelude
  import opened ClassifyFlushError
  import SplitMachine
  import opened Flush
  import opened Pipeline
  import opened PipelineInvariant
  import PipelineTheorems
  import opened FlushInPipeline

  // ---------------------------------------------------------------------------------------------
  // Settling
  // ---------------------------------------------------------------------------------------------

  lemma AwaitingMeansWaiter(s: State, base: string, c: nat)
    requires Inv(s) && base in s.tasks
    ensures c in s.tasks[base].waiters <==> c in s.calls && s.calls[c].state == Awaiting(base)
  {
    assert TaskOk(s, base) && CallOk(s, c);
    if c in s.calls && s.calls[c].state == Awaiting(base) { assert OpenOk(s, s.calls[c].pid); }
  }

  /**
   * A flush that is over settles exactly the calls that wait for its batch, well if it resolved and badly
   * if it rejected; nothing else changes.
   */
  lemma SettlesItsWaiters(cfg: Config, s: State, base: string)
    requires Inv(s) && Enabled(cfg, s, Settle(base))
    ensures var t := Apply(cfg, s, Settle(base));
            && t == s.(calls := t.calls, tasks := s.tasks - {base}) && t.calls.Keys == s.calls.Keys
            && forall c :: c in s.calls ==>
                 t.calls[c] == if s.calls[c].state == Awaiting(base)
                   then s.calls[c].(state := Settled(s.tasks[base].phase == Done(true))) else s.calls[c]
  {
    forall c | c in s.calls ensures c in s.tasks[base].waiters <==> s.calls[c].state == Awaiting(base) {
      AwaitingMeansWaiter(s, base, c);
    }
  }

  // ---------------------------------------------------------------------------------------------
  // One call reports to the queue
  // ---------------------------------------------------------------------------------------------

  /** One of these calls has the lock on the job. */
  predicate LockedBy(s: State, j: nat, calls: seq<nat>) {
    && j in s.jobs && s.jobs[j].state.Active? && s.jobs[j].state.call in calls
    && s.jobs[j].state.call in s.calls && s.calls[s.jobs[j].state.call].job == j
  }

  /** Done for good, or one attempt more: back in the queue, or failed for good with the fifth. */
  predicate Turned(before: Job, after: Job, ok: bool) {
    && after.data == before.data
    && if ok then after.state == Completed && after.attemptsMade == before.attemptsMade
       else
         && after.attemptsMade == before.attemptsMade + 1
         && after.state == if before.attemptsMade + 1 >= 5 then Failed else Waiting
  }

  /** The job as these calls' reports leave it. */
  predicate JobReported(s: State, t: State, j: nat, calls: seq<nat>, ok: bool)
    requires j in s.jobs && j in t.jobs
  {
    if LockedBy(s, j, calls) then Turned(s.jobs[j], t.jobs[j], ok) else t.jobs[j] == s.jobs[j]
  }

  /** The process of the call that failed the job for good is to file it. */
  predicate NewlyDue(s: State, t: State, pid: nat, j: nat, calls: seq<nat>) {
    LockedBy(s, j, calls) && pid == s.calls[s.jobs[j].state.call].pid && j in t.jobs && t.jobs[j].state == Failed
  }

  /** These calls have reported how they ended; nothing else has happened. */
  ghost predicate Reported(s: State, t: State, calls: seq<nat>, ok: bool) {
    && t == s.(calls := t.calls, jobs := t.jobs, onFailed := t.onFailed)
    && t.calls == (map c | c in s.calls && c !in calls :: s.calls[c])
    && t.jobs.Keys == s.jobs.Keys
    && (forall j :: j in s.jobs ==> JobReported(s, t, j, calls, ok))
    && (forall h :: h in t.onFailed <==> h in s.onFailed || NewlyDue(s, t, h.0, h.1, calls))
  }

  /** A call that can report: it is settled, and its job is there. */
  predicate Ready(s: State, c: nat, ok: bool) {
    c in s.calls && s.calls[c].state == Settled(ok) && s.calls[c].job in s.jobs
  }

  function Report(c: nat): seq<Step> { [Return(c), Ack(c, true)] }

  lemma CallReports(cfg: Config, s: State, c: nat, ok: bool) returns (t: State)
    requires Ready(s, c, ok)
    ensures Run(cfg, s, Report(c)) == Some(t) && Reported(s, t, [c], ok)
  {
    hide Enabled, Apply, Run;
    var u := CallReturns(cfg, s, c, ok);
    t := AckReports(cfg, u, c, ok);
    TwoSteps(cfg, s, Return(c), Ack(c, true));
    ReportedSame(s, u, t, c, ok);
  }

  lemma CallReturns(cfg: Config, s: State, c: nat, ok: bool) returns (u: State)
    requires Ready(s, c, ok)
    ensures Enabled(cfg, s, Return(c)) && u == Apply(cfg, s, Return(c))
    ensures u == s.(calls := s.calls[c := s.calls[c].(state := Returned(ok))])
  {
    u := Apply(cfg, s, Return(c));
  }

  lemma ReportedSame(s: State, u: State, t: State, c: nat, ok: bool)
    requires c in s.calls && u == s.(calls := s.calls[c := s.calls[c].(state := Returned(ok))])
    requires t == u.(calls := u.calls - {c}, jobs := t.jobs, onFailed := t.onFailed) && t.jobs.Keys == u.jobs.Keys
    requires forall j :: j in u.jobs ==> JobReported(u, t, j, [c], ok)
    requires forall h :: h in t.onFailed <==> h in u.onFailed || NewlyDue(u, t, h.0, h.1, [c])
    ensures Reported(s, t, [c], ok)
  {
    hide Turned;
    assert u.calls - {c} == (map d | d in s.calls && d !in [c] :: s.calls[d]);
    assert forall j :: LockedBy(u, j, [c]) <==> LockedBy(s, j, [c]);
    forall j | j in s.jobs ensures JobReported(s, t, j, [c], ok) { assert JobReported(u, t, j, [c], ok); }
    forall h ensures h in t.onFailed <==> h in s.onFailed || NewlyDue(s, t, h.0, h.1, [c]) {
      assert NewlyDue(u, t, h.0, h.1, [c]) <==> NewlyDue(s, t, h.0, h.1, [c]);
    }
  }

  lemma AckReports(cfg: Config, s: State, c: nat, ok: bool) returns (t: State)
    requires c in s.calls && s.calls[c].state == Returned(ok) && s.calls[c].job in s.jobs
    ensures Enabled(cfg, s, Ack(c, true)) && t == Apply(cfg, s, Ack(c, true))
    ensures t == s.(calls := s.calls - {c}, jobs := t.jobs, onFailed := t.onFailed) && t.jobs.Keys == s.jobs.Keys
    ensures forall j :: j in s.jobs ==> JobReported(s, t, j, [c], ok)
    ensures forall h :: h in t.onFailed <==> h in s.onFailed || NewlyDue(s, t, h.0, h.1, [c])
  {
    t := Apply(cfg, s, Ack(c, true));
    assert t == Acked(s, c);
  }

  lemma TwoSteps(cfg: Config, s: State, a: Step, b: Step)
    requires Enabled(cfg, s, a) && Enabled(cfg, Apply(cfg, s, a), b)
    ensures Run(cfg, s, [a, b]) == Some(Apply(cfg, Apply(cfg, s, a), b))
  {
    hide Enabled, Apply;
    assert [a, b][1..] == [b] && [b][1..] == [];
    assert Run(cfg, Apply(cfg, Apply(cfg, s, a), b), []) == Some(Apply(cfg, Apply(cfg, s, a), b));
    assert Run(cfg, Apply(cfg, s, a), [b]) == Some(Apply(cfg, Apply(cfg, s, a), b));
  }

  predicate ReportsOf(steps: seq<Step>, calls: seq<nat>) {
    forall i :: 0 <= i < |steps| ==>
      (steps[i].Return? && steps[i].call in calls) || (steps[i].Ack? && steps[i].reached && steps[i].call in calls)
  }

  lemma {:induction false} CallsReport(cfg: Config, s: State, calls: seq<nat>, ok: bool)
    returns (steps: seq<Step>, t: State)
    requires NoDup(calls) && forall i :: 0 <= i < |calls| ==> Ready(s, calls[i], ok)
    ensures Run(cfg, s, steps) == Some(t) && Reported(s, t, calls, ok) && ReportsOf(steps, calls)
    decreases |calls|
  {
    hide Enabled, Apply, Run, Reported, Ready;
    if calls == [] {
      steps, t := [], s;
      NobodyReports(cfg, s, ok);
    } else {
      var c, rest := calls[0], calls[1..];
      var u := CallReports(cfg, s, c, ok);
      forall i | 0 <= i < |rest| ensures Ready(u, rest[i], ok) { StillReady(s, u, c, rest[i], ok); }
      var more;
      more, t := CallsReport(cfg, u, rest, ok);
      steps := Report(c) + more;
      PipelineTheorems.RunJoins(cfg, s, Report(c), more);
      OneThenOthers(s, u, t, c, rest, ok);
      assert calls == [c] + rest;
    }
  }

  lemma NobodyReports(cfg: Config, s: State, ok: bool)
    ensures Run(cfg, s, []) == Some(s) && Reported(s, s, [], ok)
  {
    assert s.calls == (map c | c in s.calls && c !in [] :: s.calls[c]);
  }

  lemma StillReady(s: State, u: State, c: nat, d: nat, ok: bool)
    requires Reported(s, u, [c], ok) && c != d && Ready(s, d, ok)
    ensures Ready(u, d, ok)
  {
  }

  /** A lock is one call's only, so what one call reports leaves the others' jobs alone. */
  lemma OneThenOthers(s: State, u: State, t: State, c: nat, rest: seq<nat>, ok: bool)
    requires Reported(s, u, [c], ok) && Reported(u, t, rest, ok) && c !in rest
    ensures Reported(s, t, [c] + rest, ok)
  {
    assert t.calls == (map d | d in s.calls && d !in [c] + rest :: s.calls[d]);
    hide JobReported, NewlyDue;
    forall j | j in s.jobs ensures JobReported(s, t, j, [c] + rest, ok) { JobThenOthers(s, u, t, c, rest, ok, j); }
    forall h ensures h in t.onFailed <==> h in s.onFailed || NewlyDue(s, t, h.0, h.1, [c] + rest) {
      DueThenOthers(s, u, t, c, rest, ok, h.0, h.1);
    }
  }

  lemma JobThenOthers(s: State, u: State, t: State, c: nat, rest: seq<nat>, ok: bool, j: nat)
    requires Reported(s, u, [c], ok) && Reported(u, t, rest, ok) && c !in rest && j in s.jobs
    ensures JobReported(s, t, j, [c] + rest, ok)
    ensures LockedBy(s, j, [c]) ==> t.jobs[j] == u.jobs[j] && !LockedBy(u, j, rest)
    ensures !LockedBy(s, j, [c]) ==> (LockedBy(u, j, rest) <==> LockedBy(s, j, rest)) && u.jobs[j] == s.jobs[j]
  {
    assert JobReported(s, u, j, [c], ok) && JobReported(u, t, j, rest, ok);
  }

  lemma DueThenOthers(s: State, u: State, t: State, c: nat, rest: seq<nat>, ok: bool, pid: nat, j: nat)
    requires Reported(s, u, [c], ok) && Reported(u, t, rest, ok) && c !in rest
    ensures NewlyDue(s, t, pid, j, [c] + rest) <==> NewlyDue(s, u, pid, j, [c]) || NewlyDue(u, t, pid, j, rest)
  {
    if j in s.jobs { JobThenOthers(s, u, t, c, rest, ok, j); }
  }

  // ---------------------------------------------------------------------------------------------
  // A batch from its flush to its jobs
  // ---------------------------------------------------------------------------------------------

  /** A batch has been flushed and its waiters have reported: its jobs are done, or have failed once. */
  ghost predicate BatchReported(s: State, t: State, base: string, stores: Stores, ok: bool) {
    && t == s.(calls := t.calls, jobs := t.jobs, onFailed := t.onFailed, tasks := s.tasks - {base}, stores := stores)
    && (forall c :: c in t.calls <==> c in s.calls && s.calls[c].state != Awaiting(base))
    && (forall c :: c in t.calls ==> t.calls[c] == s.calls[c])
    && t.jobs.Keys == s.jobs.Keys
    && forall j :: j in s.jobs ==>
         if AwaitedBy(s, j, base) then Turned(s.jobs[j], t.jobs[j], ok) else t.jobs[j] == s.jobs[j]
  }

  /** The job is under the lock of a call that waits for this batch. */
  predicate AwaitedBy(s: State, j: nat, base: string) {
    && j in s.jobs && s.jobs[j].state.Active? && s.jobs[j].state.call in s.calls
    && s.calls[s.jobs[j].state.call].job == j && s.calls[s.jobs[j].state.call].state == Awaiting(base)
  }

  lemma ReportAfterSettle(cfg: Config, s: State, base: string) returns (steps: seq<Step>, t: State)
    requires Inv(s) && Enabled(cfg, s, Settle(base))
    ensures Run(cfg, s, [Settle(base)] + steps) == Some(t) && ReportsOf(steps, s.tasks[base].waiters)
    ensures BatchReported(s, t, base, s.stores, s.tasks[base].phase == Done(true))
  {
    var waiters, ok := s.tasks[base].waiters, s.tasks[base].phase == Done(true);
    hide Inv, Enabled, Apply, Run;
    var u := Apply(cfg, s, Settle(base));
    SettlesItsWaiters(cfg, s, base);
    OnATask(cfg, s, base);
    forall c ensures c in waiters <==> c in s.calls && s.calls[c].state == Awaiting(base) {
      AwaitingMeansWaiter(s, base, c);
    }
    WaitersReady(s, u, base, ok);
    steps, t := CallsReport(cfg, u, waiters, ok);
    StepThen(cfg, s, Settle(base), steps);
    WaitersReported(s, u, t, base, ok);
  }

  lemma OnATask(cfg: Config, s: State, base: string)
    requires Enabled(cfg, s, Settle(base))
    ensures base in s.tasks
  {
  }

  lemma WaitersReported(s: State, u: State, t: State, base: string, ok: bool)
    requires base in s.tasks && u == s.(calls := u.calls, tasks := s.tasks - {base}) && u.calls.Keys == s.calls.Keys
    requires Reported(u, t, s.tasks[base].waiters, ok)
    requires forall c :: c in s.tasks[base].waiters <==> c in s.calls && s.calls[c].state == Awaiting(base)
    requires forall c :: c in s.calls ==>
      u.calls[c] == if s.calls[c].state == Awaiting(base) then s.calls[c].(state := Settled(ok)) else s.calls[c]
    ensures BatchReported(s, t, base, s.stores, ok)
  {
    hide Turned;
    forall j | j in s.jobs
      ensures if AwaitedBy(s, j, base) then Turned(s.jobs[j], t.jobs[j], ok) else t.jobs[j] == s.jobs[j]
    {
      assert JobReported(u, t, j, s.tasks[base].waiters, ok);
    }
  }

  lemma WaitersReady(s: State, u: State, base: string, ok: bool)
    requires Inv(s) && base in s.tasks && u.jobs == s.jobs && u.calls.Keys == s.calls.Keys
    requires forall c :: c in s.calls && s.calls[c].state == Awaiting(base) ==>
      u.calls[c] == s.calls[c].(state := Settled(ok))
    ensures NoDup(s.tasks[base].waiters)
    ensures forall i :: 0 <= i < |s.tasks[base].waiters| ==> Ready(u, s.tasks[base].waiters[i], ok)
  {
    assert TaskOk(s, base);
    forall i | 0 <= i < |s.tasks[base].waiters| ensures Ready(u, s.tasks[base].waiters[i], ok) {
      var c := s.tasks[base].waiters[i];
      AwaitingMeansWaiter(s, base, c);
      assert CallOk(s, c);
    }
  }

  lemma StepThen(cfg: Config, s: State, step: Step, steps: seq<Step>)
    requires Enabled(cfg, s, step)
    ensures Run(cfg, s, [step] + steps) == Run(cfg, Apply(cfg, s, step), steps)
  {
    assert ([step] + steps)[1..] == steps;
  }

  /** The steps of a batch and of the calls that wait for it. */
  predicate OfBatch(steps: seq<Step>, base: string) {
    forall i :: 0 <= i < |steps| ==>
      OwnStep(steps[i], base) || steps[i] == Settle(base) || steps[i].Return? || (steps[i].Ack? && steps[i].reached)
  }

  /**
   * From the detached batch to the queue, for all answers of the stores. If the production flush resolves,
   * a run of the batch's own steps and its calls' reports leaves every job that was under the lock of a
   * waiting call completed, with no attempt counted; if it rejects, each of them has failed exactly one
   * attempt. No other call or job is touched, and the stores are those of the production flush.
   */
  lemma FlushReachesTheQueue(cfg: Config, env: Env, s: State, base: string, now: nat)
    returns (steps: seq<Step>, t: State)
    requires Inv(s) && env.Honest() && cfg.enrich == env.enrich
    requires TaskAt(s, base) && s.tasks[base].phase == Selecting && s.tasks[base].progress == SplitMachine.Start()
    ensures Run(cfg, s, steps) == Some(t) && OfBatch(steps, base)
    ensures var (w, error) := ProductionFlushRun(env, World(s.stores, now), s.batches[base], base);
            BatchReported(s, t, base, w.stores, error.None?)
  {
    hide Run, Goes, Inv, Enabled, Apply, BatchReported, ProductionFlushRun;
    var (w, error) := ProductionFlushRun(env, World(s.stores, now), s.batches[base], base);
    var flush, done := FlushRuns(cfg, env, s, base, now);
    var u := At(s, base, w.stores, done);
    PipelineTheorems.RunKeeps(cfg, s, flush);
    SettlesWhenDone(cfg, u, base);
    var more;
    more, t := ReportAfterSettle(cfg, u, base);
    PipelineTheorems.RunJoins(cfg, s, flush, [Settle(base)] + more);
    steps := flush + ([Settle(base)] + more);
    SameButFlush(s, u, t, base, w.stores, done, error.None?);
  }

  lemma SettlesWhenDone(cfg: Config, s: State, base: string)
    requires base in s.tasks && s.tasks[base].phase.Done?
    ensures Enabled(cfg, s, Settle(base))
  {
  }

  lemma FlushRuns(cfg: Config, env: Env, s: State, base: string, now: nat) returns (steps: seq<Step>, done: Task)
    requires Inv(s) && env.Honest() && cfg.enrich == env.enrich
    requires TaskAt(s, base) && s.tasks[base].phase == Selecting && s.tasks[base].progress == SplitMachine.Start()
    ensures var (w, error) := ProductionFlushRun(env, World(s.stores, now), s.batches[base], base);
            && Run(cfg, s, steps) == Some(At(s, base, w.stores, done)) && OwnSteps(steps, base)
            && done.phase == Done(error.None?)
  {
    assert s.batches[base] != [] by { assert TaskOk(s, base); }
    var (w, error) := ProductionFlushRun(env, World(s.stores, now), s.batches[base], base);
    hide Run, Inv, ProductionFlushRun;
    done := PipelineRunsTheFlush(cfg, env, s, base, World(s.stores, now), s.tasks[base]);
    AtItself(s, base);
    steps :| Run(cfg, At(s, base, s.stores, s.tasks[base]), steps) == Some(At(s, base, w.stores, done))
      && OwnSteps(steps, base);
  }

  lemma AtItself(s: State, base: string)
    requires base in s.tasks
    ensures At(s, base, s.stores, s.tasks[base]) == s
  {
    assert s.tasks[base := s.tasks[base]] == s.tasks;
  }

  lemma SameButFlush(s: State, u: State, t: State, base: string, stores: Stores, task: Task, ok: bool)
    requires u == At(s, base, stores, task) && BatchReported(u, t, base, stores, ok)
    ensures BatchReported(s, t, base, stores, ok)
  {
    assert u.tasks - {base} == s.tasks - {base};
    forall j | j in s.jobs
      ensures if AwaitedBy(s, j, base) then Turned(s.jobs[j], t.jobs[j], ok) else t.jobs[j] == s.jobs[j]
    {
      assert AwaitedBy(u, j, base) <==> AwaitedBy(s, j, base);
    }
  }

  // ---------------------------------------------------------------------------------------------
  // Malformed jobs, and jobs that have failed for good
  // ---------------------------------------------------------------------------------------------

  /**
   * A malformed job goes to the dead-letter queue by itself, as the text it came in: once the write is
   * answered the job is completed, or fails one attempt, and the queue has got exactly that one entry.
   */
  lemma MalformedJobIsFiled(cfg: Config, s: State, c: nat, freshId: string, answer: Answer<Thrown>) returns (t: State)
    requires c in s.calls && s.calls[c].state == Fetched && s.calls[c].data.Malformed? && s.calls[c].job in s.jobs
    ensures Run(cfg, s, [Process(c, freshId), Route(c, answer)] + Report(c)) == Some(t)
    ensures c !in t.calls && t.jobs.Keys == s.jobs.Keys && t.tasks == s.tasks && t.open == s.open
    ensures forall j :: j in s.jobs ==> JobReported(s, t, j, [c], answer.Good?)
    ensures answer.Good? ==>
      t.stores == s.stores.(dlq := s.stores.dlq + [SchemaValidationFailed(s.calls[c].data.raw)])
  {
    var u, v := MalformedIsRouted(cfg, s, c, freshId, answer);
    hide Turned, Enabled, Apply, Run;
    assert forall j :: LockedBy(v, j, [c]) <==> LockedBy(s, j, [c]);
    TwoSteps(cfg, s, Process(c, freshId), Route(c, answer));
    t := CallReports(cfg, v, c, answer.Good?);
    PipelineTheorems.RunJoins(cfg, s, [Process(c, freshId), Route(c, answer)], Report(c));
    forall j | j in s.jobs ensures JobReported(s, t, j, [c], answer.Good?) {
      assert JobReported(v, t, j, [c], answer.Good?);
    }
  }

  lemma MalformedIsRouted(cfg: Config, s: State, c: nat, freshId: string, answer: Answer<Thrown>)
    returns (u: State, v: State)
    requires c in s.calls && s.calls[c].state == Fetched && s.calls[c].data.Malformed? && s.calls[c].job in s.jobs
    ensures Enabled(cfg, s, Process(c, freshId)) && u == Apply(cfg, s, Process(c, freshId))
    ensures Enabled(cfg, u, Route(c, answer)) && v == Apply(cfg, u, Route(c, answer))
    ensures v.calls == s.calls[c := s.calls[c].(state := Settled(answer.Good?))]
    ensures v.jobs == s.jobs && v.tasks == s.tasks && v.open == s.open && Ready(v, c, answer.Good?)
    ensures answer.Good? ==>
      v.stores == s.stores.(dlq := s.stores.dlq + [SchemaValidationFailed(s.calls[c].data.raw)])
  {
    u := Apply(cfg, s, Process(c, freshId));
    v := Apply(cfg, u, Route(c, answer));
  }

  /** The handler of a final failure files the job's data, once, and leaves the job where it is. */
  lemma FinalFailureIsFiled(cfg: Config, s: State, pid: nat, job: nat)
    requires Enabled(cfg, s, NotifyFailed(pid, job, Good))
    ensures var t, data := Apply(cfg, s, NotifyFailed(pid, job, Good)), s.jobs[job].data;
            && t == s.(onFailed := s.onFailed - {(pid, job)}, stores := t.stores)
            && t.stores == s.stores.(dlq := t.stores.dlq) && |t.stores.dlq| == |s.stores.dlq| + 1
            && s.stores.dlq <= t.stores.dlq
            && var entry := t.stores.dlq[|s.stores.dlq|];
               && (data.Decoded? ==> entry == AttemptsExhausted(data.event) && entry.Holds(data.event))
               && (data.Malformed? ==> entry == SchemaValidationFailed(data.raw))
  {
  }

  // ---------------------------------------------------------------------------------------------
  // What becomes of a write
  // ---------------------------------------------------------------------------------------------

  /** A write that is answered well has happened; one that is reported as failed has, may still, or never does. */
  lemma FatesOfAWrite<E>(s: State, w: Write, a: Answer<E>)
    ensures a.Good? || a.fate == Applied ==> AfterWrite(s, w, a) == s.(stores := Perform(s.stores, w))
    ensures a.Bad? && a.fate == Late ==>
      var t := AfterWrite(s, w, a);
      t == s.(late := t.late) && exists l: Straggler :: l.write == w && t.late == s.late + multiset{l}
    ensures a.Bad? && a.fate == Lost ==> AfterWrite(s, w, a) == s
  {
    if a.Bad? && a.fate == Late { assert Unconfirmed(w).write == w; }
  }

  /** A sweep may take any number of entries, the oldest first, and takes nothing else. */
  lemma SweepsTakeTheOldest(cfg: Config, s: State, count: nat)
    ensures Enabled(cfg, s, Sweep(count)) <==> count <= |s.stores.dlq|
    ensures Enabled(cfg, s, Sweep(count)) ==>
      var t := Apply(cfg, s, Sweep(count));
      && t == s.(swept := t.swept, stores := s.stores.(dlq := t.stores.dlq))
      && t.swept + t.stores.dlq == s.swept + s.stores.dlq && |t.stores.dlq| == |s.stores.dlq| - count
  {
  }

  /** This process was writing this when it was killed. */
  predicate WasWriting(s: State, pid: nat, l: Straggler) {
    match l
    case OfTask(base, w) =>
      TaskAt(s, base) && s.tasks[base].pid == pid && WriteOf(base, s.batches[base], s.tasks[base]) == Some(w)
    case OfCall(c, w) =>
      && c in s.calls && s.calls[c].pid == pid && s.calls[c].state == Routing && s.calls[c].data.Malformed?
      && w == Send(SchemaValidationFailed(s.calls[c].data.raw))
    case OfHandler(job, w) => (pid, job) in s.onFailed && job in s.jobs && w == Send(FinalEntry(s.jobs[job].data))
    case Unconfirmed(_) => false
  }

  lemma WritesInFlight(s: State, pid: nat, l: Straggler)
    ensures l in InFlightWrites(s, pid) <==> WasWriting(s, pid, l)
  {
    hide WriteOf, FinalEntry;
    if l.OfHandler? && (pid, l.job) in s.onFailed { assert (pid, l.job).0 == pid && (pid, l.job).1 == l.job; }
  }

  /**
   * A kill takes the process's memory and nothing else; exactly what it was writing may still land, and
   * then does what the write says.
   */
  lemma KilledWritesMayLand(cfg: Config, s: State, pid: nat, l: Straggler)
    ensures var t := Apply(cfg, s, Kill(pid));
            && t.late[l] == s.late[l] + (if WasWriting(s, pid, l) then 1 else 0)
            && t.stores == s.stores && t.jobs == s.jobs && t.batches == s.batches
            && (forall p :: p in t.paused <==> p in s.paused && p != pid)
            && (forall p :: p in t.open <==> p in s.open && p != pid)
            && (forall h :: h in t.onFailed <==> h in s.onFailed && h.0 != pid)
            && (forall c :: c in t.calls <==> c in s.calls && s.calls[c].pid != pid)
            && (forall base :: base in t.tasks <==> base in s.tasks && s.tasks[base].pid != pid)
    ensures Enabled(cfg, s, Land(l)) ==>
      Apply(cfg, s, Land(l)) == s.(stores := Perform(s.stores, l.write), late := s.late - multiset{l})
  {
    WritesInFlight(s, pid, l);
    hide InFlightWrites, WasWriting, Perform;
  }
}
