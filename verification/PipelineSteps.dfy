/** Each step of the pipeline keeps the invariant and forgets nothing. */
module PipelineSteps {
  import opened Prelude
  import opened ClassifyFlushError
  import opened R2Retry
  import opened SplitRetryTheorems
  import SplitMachine
  import Accumulator
  import opened Flush
  import opened FlushTheorems
  import opened Pipeline
  import opened PipelineInvariant

  /** Jobs stay with their data, completion is final, batches and stores only grow. */
  ghost predicate Grows(s: State, t: State) {
    && Extends(Ever(s), Ever(t))
    && (forall b :: b in s.batches ==> b in t.batches && t.batches[b] == s.batches[b])
    && (forall j :: j in s.jobs ==> j in t.jobs && t.jobs[j].data == s.jobs[j].data
                                    && (s.jobs[j].state == Completed ==> t.jobs[j].state == Completed))
  }

  // ---------------------------------------------------------------------------------------------
  // Steps that write to a store
  // ---------------------------------------------------------------------------------------------

  lemma WritesStay(batches: map<string, seq<CaptureEvent>>, s: Stores, t: Stores, w: Write)
    requires Extends(s, t) && WriteOk(batches, s, w)
    ensures WriteOk(batches, t, w)
  {
    if w.Insert? { StayArchived(s, t, w.logged); }
  }

  lemma JobStaysDurable(s: Stores, t: Stores, data: JobData)
    requires Extends(s, t) && JobDurable(s, data)
    ensures JobDurable(t, data)
  {
    if data.Decoded? { StaysDurable(s, t, data.event); }
  }

  /** Only the stores have grown. */
  lemma StoresGrow(s: State, t: State)
    requires Inv(s) && Extends(Ever(s), Ever(t)) && StoresOk(t.batches, Ever(t))
    requires t == s.(stores := t.stores, swept := t.swept, late := t.late)
    requires forall l :: l in t.late ==> WriteOk(t.batches, Ever(t), l.write)
    ensures Inv(t)
  {
    forall base ensures TaskOk(t, base) {
      assert TaskOk(s, base);
      if base in s.tasks { PhaseStays(Ever(s), Ever(t), s.batches[base], s.tasks[base].progress, s.tasks[base].phase); }
    }
    forall pid ensures OpenOk(t, pid) { assert OpenOk(s, pid); }
    forall c ensures CallOk(t, c) {
      assert CallOk(s, c);
      if c in s.calls && JobDurable(Ever(s), s.calls[c].data) { JobStaysDurable(Ever(s), Ever(t), s.calls[c].data); }
    }
    forall j ensures JobOk(t, j) {
      assert JobOk(s, j);
      if j in s.jobs && s.jobs[j].state == Completed { JobStaysDurable(Ever(s), Ever(t), s.jobs[j].data); }
    }
  }

  lemma PerformedKeeps(s: State, w: Write)
    requires Inv(s) && WriteOk(s.batches, Ever(s), w)
    ensures var t := s.(stores := Perform(s.stores, w)); Inv(t) && Extends(Ever(s), Ever(t))
  {
    var t := s.(stores := Perform(s.stores, w));
    PerformOnEver(s, w);
    PerformKeeps(s.batches, Ever(s), w);
    forall l | l in t.late ensures WriteOk(t.batches, Ever(t), l.write) {
      WritesStay(s.batches, Ever(s), Ever(t), l.write);
    }
    StoresGrow(s, t);
  }

  lemma WriteKeeps<E>(s: State, w: Write, a: Answer<E>)
    requires Inv(s) && WriteOk(s.batches, Ever(s), w)
    ensures Inv(AfterWrite(s, w, a)) && Extends(Ever(s), Ever(AfterWrite(s, w, a)))
  {
    hide Inv, Extends, WriteOk, Perform;
    if a.Good? || a.fate == Applied {
      PerformedKeeps(s, w);
    } else {
      ExtendsSelf(Ever(s));
      if a.fate == Late { MoreLateKeeps(s, w); }
    }
  }

  lemma MoreLateKeeps(s: State, w: Write)
    requires Inv(s) && WriteOk(s.batches, Ever(s), w)
    ensures var t := s.(late := s.late + multiset{Unconfirmed(w)}); Inv(t) && Ever(t) == Ever(s)
  {
    hide StoresOk, WriteOk, TaskOk, OpenOk, CallOk, JobOk, BatchesOk;
    ExtendsSelf(Ever(s));
    StoresGrow(s, s.(late := s.late + multiset{Unconfirmed(w)}));
  }

  lemma LandKeeps(s: State, l: Straggler)
    requires Inv(s) && l in s.late
    ensures var t := s.(stores := Perform(s.stores, l.write), late := s.late - multiset{l}); Inv(t) && Grows(s, t)
  {
    PerformedKeeps(s, l.write);
    var u := s.(stores := Perform(s.stores, l.write));
    var t := u.(late := s.late - multiset{l});
    ExtendsSelf(Ever(u));
    StoresGrow(u, t);
  }

  /** The sweep takes nothing away from what has ever reached the queue. */
  lemma SweepKeeps(s: State, count: nat)
    requires Inv(s) && count <= |s.stores.dlq|
    ensures var t := s.(stores := s.stores.(dlq := s.stores.dlq[count..]), swept := s.swept + s.stores.dlq[..count]);
            Inv(t) && Grows(s, t)
  {
    var t := s.(stores := s.stores.(dlq := s.stores.dlq[count..]), swept := s.swept + s.stores.dlq[..count]);
    assert s.swept + s.stores.dlq[..count] + s.stores.dlq[count..] == s.swept + s.stores.dlq;
    assert Ever(t) == Ever(s);
    ExtendsSelf(Ever(s));
    StoresGrow(s, t);
  }

  // ---------------------------------------------------------------------------------------------
  // Steps of one flush
  // ---------------------------------------------------------------------------------------------

  lemma SetTaskKeeps(s: State, base: string, t: Task)
    requires Inv(s) && base in s.tasks && base in s.batches
    requires t.pid == s.tasks[base].pid && t.waiters == s.tasks[base].waiters
    requires ProgressOk(s.batches[base], t.progress) && PhaseOk(Ever(s), s.batches[base], t.progress, t.phase)
    ensures Inv(SetTask(s, base, t)) && Ever(SetTask(s, base, t)) == Ever(s)
  {
    var u := SetTask(s, base, t);
    assert TaskOk(s, base);
    forall b ensures TaskOk(u, b) { assert TaskOk(s, b); }
    forall pid ensures OpenOk(u, pid) { assert OpenOk(s, pid); }
    forall c ensures CallOk(u, c) { assert CallOk(s, c); }
    forall j ensures JobOk(u, j) { assert JobOk(s, j); }
  }

  /** What a flush has in flight is well filed, or already archived. */
  lemma InFlightIsOk(s: State, base: string)
    requires Inv(s) && base in s.tasks && base in s.batches
    ensures WriteOf(base, s.batches[base], s.tasks[base]).Some? ==>
              WriteOk(s.batches, Ever(s), WriteOf(base, s.batches[base], s.tasks[base]).value)
  {
    assert TaskOk(s, base);
    var t, batch := s.tasks[base], s.batches[base];
    if t.phase.Putting? {
      assert PlainId(base);
      assert t.progress.stack != [] && SubBatch(batch, t.progress.stack[0]) != [];
      assert Filed(s.batches, NodeKey(base, batch, t.progress.stack[0]), t.phase.logged);
    }
  }

  lemma SelectedKeeps(cfg: Config, s: State, base: string, found: map<string, LinkRow>)
    requires Inv(s) && Enabled(cfg, s, Selected(base, found))
    ensures var t := Apply(cfg, s, Selected(base, found)); Inv(t) && Grows(s, t)
  {
    assert TaskOk(s, base);
    var t, batch := s.tasks[base], s.batches[base];
    var logged := LoggedBy(cfg.enrich, found, SubBatch(batch, t.progress.stack[0]));
    assert EventsOf(logged) == SubBatch(batch, t.progress.stack[0]);
    SetTaskKeeps(s, base, AfterSelect(cfg, batch, t, found));
    ExtendsSelf(Ever(s));
  }

  lemma SelectFailedKeeps(cfg: Config, s: State, base: string, error: Thrown)
    requires Inv(s) && Enabled(cfg, s, SelectFailed(base, error))
    ensures var t := Apply(cfg, s, SelectFailed(base, error)); Inv(t) && Grows(s, t)
  {
    assert TaskOk(s, base);
    FlushBatchFailedOk(Ever(s), s.batches[base], s.tasks[base], error);
    SetTaskKeeps(s, base, FlushBatchFailed(s.batches[base], s.tasks[base], error));
    ExtendsSelf(Ever(s));
  }

  lemma GrowsFrom(s: State, t: State)
    requires Extends(Ever(s), Ever(t)) && t.batches == s.batches && t.jobs == s.jobs
    ensures Grows(s, t)
  {
  }

  /** A flush whose write is answered: the stores change first, then the flush moves on. */
  lemma AnswerKeeps<E>(s: State, base: string, w: Write, a: Answer<E>, next: Task)
    requires Inv(s) && base in s.tasks && base in s.batches && WriteOf(base, s.batches[base], s.tasks[base]) == Some(w)
    requires next.pid == s.tasks[base].pid && next.waiters == s.tasks[base].waiters
    requires ProgressOk(s.batches[base], next.progress)
    requires PhaseOk(Ever(AfterWrite(s, w, a)), s.batches[base], next.progress, next.phase)
    ensures Inv(SetTask(AfterWrite(s, w, a), base, next)) && Grows(s, SetTask(AfterWrite(s, w, a), base, next))
  {
    hide Inv, PhaseOk, ProgressOk, WriteOk, Extends;
    InFlightIsOk(s, base);
    WriteKeeps(s, w, a);
    var u := AfterWrite(s, w, a);
    SetTaskKeeps(u, base, next);
    GrowsFrom(s, SetTask(u, base, next));
  }

  /** The flush as it stands after the write, before it moves on. */
  lemma AnswerFinds<E>(s: State, base: string, w: Write, a: Answer<E>)
    requires Inv(s) && base in s.tasks && base in s.batches && WriteOf(base, s.batches[base], s.tasks[base]) == Some(w)
    ensures StoresOk(s.batches, Ever(s)) && WriteOk(s.batches, Ever(s), w)
    ensures ProgressOk(s.batches[base], s.tasks[base].progress)
    ensures PhaseOk(Ever(AfterWrite(s, w, a)), s.batches[base], s.tasks[base].progress, s.tasks[base].phase)
  {
    hide PhaseOk, StoresOk, ProgressOk, BatchesOk, OpenOk, CallOk, JobOk, HeldBy, Extends, WriteOk;
    InFlightIsOk(s, base);
    WriteKeeps(s, w, a);
    AfterWriteFrame(s, w, a);
    hide AfterWrite, WriteOf;
    assert TaskOk(AfterWrite(s, w, a), base);
  }

  lemma PutAnsweredKeeps(cfg: Config, s: State, base: string, a: Answer<R2Error>)
    requires Inv(s) && Enabled(cfg, s, PutAnswered(base, a))
    ensures var t := Apply(cfg, s, PutAnswered(base, a)); Inv(t) && Grows(s, t)
  {
    var task, batch := s.tasks[base], s.batches[base];
    var w := WriteOf(base, batch, task).value;
    AnswerFinds(s, base, w, a);
    PutPhase(s, base, w, a);
    AnswerKeeps(s, base, w, a, AfterPut(task, a));
  }

  lemma PutPhase(s: State, base: string, w: Write, a: Answer<R2Error>)
    requires base in s.tasks && base in s.batches && s.tasks[base].phase.Putting?
    requires WriteOf(base, s.batches[base], s.tasks[base]) == Some(w)
    requires StoresOk(s.batches, Ever(s)) && WriteOk(s.batches, Ever(s), w)
    requires PhaseOk(Ever(AfterWrite(s, w, a)), s.batches[base], s.tasks[base].progress, s.tasks[base].phase)
    ensures var t := AfterPut(s.tasks[base], a);
            && t.progress == s.tasks[base].progress
            && PhaseOk(Ever(AfterWrite(s, w, a)), s.batches[base], t.progress, t.phase)
  {
    hide Accounted, Durable, Extends, StoresOk, WriteOk, Filed, HeadLogged;
    if a.Good? {
      PerformOnEver(s, w);
      PerformKeeps(s.batches, Ever(s), w);
    }
  }

  lemma AnsweredKeeps(cfg: Config, s: State, base: string, a: Answer<Thrown>)
    requires Inv(s) && Enabled(cfg, s, Answered(base, a))
    ensures var t := Apply(cfg, s, Answered(base, a)); Inv(t) && Grows(s, t)
  {
    var task, batch := s.tasks[base], s.batches[base];
    var w := WriteOf(base, batch, task).value;
    AnswerFinds(s, base, w, a);
    AnsweredPhase(s, AfterWrite(s, w, a), base, batch, task, a);
    AnswerKeeps(s, base, w, a, AfterAnswer(batch, task, a));
  }

  lemma AnsweredPhase(s: State, u: State, base: string, batch: seq<CaptureEvent>, task: Task, a: Answer<Thrown>)
    requires WriteOf(base, batch, task).Some?
      && (task.phase.GivenUp? || task.phase.SendingPoison? || task.phase.Inserting?)
    requires u == AfterWrite(s, WriteOf(base, batch, task).value, a)
    requires StoresOk(s.batches, Ever(s)) && WriteOk(s.batches, Ever(s), WriteOf(base, batch, task).value)
    requires ProgressOk(batch, task.progress) && PhaseOk(Ever(u), batch, task.progress, task.phase)
    ensures var t := AfterAnswer(batch, task, a);
            ProgressOk(batch, t.progress) && PhaseOk(Ever(u), batch, t.progress, t.phase)
  {
    hide Accounted, Durable, Extends, StoresOk, WriteOk, Filed;
    var w := WriteOf(base, batch, task).value;
    if a.Bad? {
      if !task.phase.SendingPoison? { FlushBatchFailedOk(Ever(u), batch, task, a.error); }
    } else {
      PerformOnEver(s, w);
      PerformKeeps(s.batches, Ever(s), w);
      match task.phase
      case SendingPoison(sent) => PoisonSentOk(Ever(u), batch, task.progress, sent);
      case GivenUp =>
        assert forall e :: e in SubBatch(batch, task.progress.stack[0]) ==> w.entry.Holds(e);
        SucceedOk(Ever(u), batch, task);
      case Inserting(logged) =>
        var events := SubBatch(batch, task.progress.stack[0]);
        forall e | e in events ensures Durable(Ever(u), e) {
          var i :| 0 <= i < |events| && events[i] == e;
          assert EventsOf(logged)[i] == e;
        }
        SucceedOk(Ever(u), batch, task);
    }
  }

  lemma PoisonSentOk(ever: Stores, batch: seq<CaptureEvent>, p: SplitMachine.Progress<CaptureEvent>, sent: nat)
    requires p.stack == [] && sent < |p.poison| && Accounted(ever, batch, p, sent) && Durable(ever, p.poison[sent])
    ensures Accounted(ever, batch, p, sent + 1)
    ensures sent + 1 == |p.poison| ==> AllDurable(ever, batch)
  {
    forall e | e in batch ensures Durable(ever, e) || Pending(batch, p, sent + 1, e) {
      if !Durable(ever, e) {
        var i :| sent <= i < |p.poison| && p.poison[i] == e;
        assert i != sent;
      }
    }
  }

  predicate IsTaskStep(step: Step) {
    step.Selected? || step.SelectFailed? || step.PutAnswered? || step.Answered?
  }

  /** The flush after its step, whatever the stores did. */
  function TaskAfter(cfg: Config, s: State, step: Step): (u: Task)
    requires IsTaskStep(step) && Enabled(cfg, s, step)
    ensures u.pid == s.tasks[step.base].pid && u.waiters == s.tasks[step.base].waiters
  {
    match step
    case Selected(base, found) => AfterSelect(cfg, s.batches[base], s.tasks[base], found)
    case SelectFailed(base, error) => FlushBatchFailed(s.batches[base], s.tasks[base], error)
    case PutAnswered(base, a) => AfterPut(s.tasks[base], a)
    case Answered(base, a) => AfterAnswer(s.batches[base], s.tasks[base], a)
  }

  lemma AfterWriteFrame<E>(s: State, w: Write, a: Answer<E>)
    ensures AfterWrite(s, w, a) == s.(stores := AfterWrite(s, w, a).stores, late := AfterWrite(s, w, a).late)
  {
  }

  /** A step of a flush touches that flush and the stores only. */
  lemma TaskStepFrame(cfg: Config, s: State, step: Step)
    requires IsTaskStep(step) && Enabled(cfg, s, step)
    ensures var t := Apply(cfg, s, step);
            t == s.(tasks := s.tasks[step.base := TaskAfter(cfg, s, step)], stores := t.stores, late := t.late)
  {
    match step
    case Selected(base, found) =>
    case SelectFailed(base, error) =>
    case PutAnswered(base, a) => AfterWriteFrame(s, WriteOf(base, s.batches[base], s.tasks[base]).value, a);
    case Answered(base, a) => AfterWriteFrame(s, WriteOf(base, s.batches[base], s.tasks[base]).value, a);
  }

  // ---------------------------------------------------------------------------------------------
  // Steps of calls and jobs
  // ---------------------------------------------------------------------------------------------

  lemma EnqueueKeeps(cfg: Config, s: State, job: nat, data: JobData)
    requires Inv(s) && Enabled(cfg, s, Enqueue(job, data))
    ensures var t := Apply(cfg, s, Enqueue(job, data)); Inv(t) && Grows(s, t)
  {
    JobsChange(s, Apply(cfg, s, Enqueue(job, data)));
  }

  /** Jobs change state, but one is completed only when its event is durable; nothing else changes. */
  lemma JobsChange(s: State, t: State)
    requires Inv(s) && t == s.(jobs := t.jobs, onFailed := t.onFailed)
    requires forall j :: j in s.jobs ==> j in t.jobs && t.jobs[j].data == s.jobs[j].data
    requires forall j :: j in s.jobs && s.jobs[j].state == Completed ==> t.jobs[j].state == Completed
    requires forall j :: j in t.jobs && t.jobs[j].state == Completed ==>
               (j in s.jobs && s.jobs[j].state == Completed) || JobDurable(Ever(s), t.jobs[j].data)
    ensures Inv(t) && Ever(t) == Ever(s) && Grows(s, t)
  {
    ExtendsSelf(Ever(s));
    forall b ensures TaskOk(t, b) { assert TaskOk(s, b); }
    forall pid ensures OpenOk(t, pid) { assert OpenOk(s, pid); }
    forall c ensures CallOk(t, c) { assert CallOk(s, c); }
    forall j ensures JobOk(t, j) { assert JobOk(s, j); }
  }

  lemma StallKeeps(cfg: Config, s: State, job: nat, fail: bool)
    requires Inv(s) && Enabled(cfg, s, Stall(job, fail))
    ensures var t := Apply(cfg, s, Stall(job, fail)); Inv(t) && Grows(s, t)
  {
    JobsChange(s, Apply(cfg, s, Stall(job, fail)));
  }

  /** One call moves to a state in which it is not a waiter, or away, and was not a waiter before. */
  lemma CallChanges(s: State, t: State, c: nat)
    requires Inv(s) && t == s.(calls := t.calls)
    requires forall d :: d in s.calls && d != c ==> d in t.calls && t.calls[d] == s.calls[d]
    requires forall d :: d in t.calls && d != c ==> d in s.calls
    requires c in s.calls ==> !s.calls[c].state.Awaiting?
    requires CallOk(t, c)
    ensures Inv(t)
  {
    forall b ensures TaskOk(t, b) {
      assert TaskOk(s, b);
      if b in s.tasks { HeldStays(s.calls, t.calls, s.tasks[b].pid, b, s.batches[b], s.tasks[b].waiters); }
    }
    forall pid ensures OpenOk(t, pid) {
      assert OpenOk(s, pid);
      if pid in s.open {
        HeldStays(s.calls, t.calls, pid, s.open[pid].batchId, s.open[pid].events, s.open[pid].waiters);
      }
    }
    forall d ensures CallOk(t, d) { assert CallOk(s, d); }
    forall j ensures JobOk(t, j) { assert JobOk(s, j); }
  }

  lemma FetchKeeps(cfg: Config, s: State, pid: nat, job: nat, call: nat)
    requires Inv(s) && Enabled(cfg, s, Fetch(pid, job, call))
    ensures var t := Apply(cfg, s, Fetch(pid, job, call)); Inv(t) && Grows(s, t)
  {
    hide TaskOk, OpenOk, StoresOk, BatchesOk, WriteOk, JobDurable, JobOk, Extends;
    var u := s.(jobs := s.jobs[job := s.jobs[job].(state := Active(call))]);
    JobsChange(s, u);
    CallChanges(u, Apply(cfg, s, Fetch(pid, job, call)), call);
    ExtendsSelf(Ever(s));
  }

  lemma RouteKeeps(s: State, call: nat, w: Write, a: Answer<Thrown>)
    requires Inv(s) && call in s.calls && s.calls[call].state == Routing && s.calls[call].data.Malformed?
    requires w == Send(SchemaValidationFailed(s.calls[call].data.raw))
    ensures var t := AfterWrite(s, w, a).(calls := s.calls[call := s.calls[call].(state := Settled(a.Good?))]);
            Inv(t) && Grows(s, t)
  {
    hide Inv, Grows, Extends, JobDurable, Perform;
    var u := AfterWrite(s, w, a);
    WriteKeeps(s, w, a);
    RoutedIsDurable(s, w, a);
    AfterWriteFrame(s, w, a);
    hide AfterWrite;
    assert u.calls == s.calls && u.batches == s.batches && u.jobs == s.jobs;
    GrowsFrom(s, u);
    RoutedKeeps(u, call, a.Good?);
    GrowsTransitive(s, u, u.(calls := s.calls[call := s.calls[call].(state := Settled(a.Good?))]));
  }

  lemma RoutedKeeps(s: State, call: nat, ok: bool)
    requires Inv(s) && call in s.calls && s.calls[call].state == Routing
    requires ok ==> JobDurable(Ever(s), s.calls[call].data)
    ensures var t := s.(calls := s.calls[call := s.calls[call].(state := Settled(ok))]); Inv(t) && Grows(s, t)
  {
    var t := s.(calls := s.calls[call := s.calls[call].(state := Settled(ok))]);
    assert CallOk(s, call);
    CallChanges(s, t, call);
    ExtendsSelf(Ever(s));
    GrowsFrom(s, t);
  }

  lemma RoutedIsDurable(s: State, w: Write, a: Answer<Thrown>)
    requires w.Send? && w.entry.SchemaValidationFailed?
    ensures a.Good? ==> JobDurable(Ever(AfterWrite(s, w, a)), Malformed(w.entry.raw))
  {
    if a.Good? {
      PerformOnEver(s, w);
      assert Perform(Ever(s), w).dlq == Ever(s).dlq + [w.entry];
    }
  }

  lemma ReturnKeeps(cfg: Config, s: State, call: nat)
    requires Inv(s) && Enabled(cfg, s, Return(call))
    ensures var t := Apply(cfg, s, Return(call)); Inv(t) && Grows(s, t)
  {
    assert CallOk(s, call);
    CallChanges(s, Apply(cfg, s, Return(call)), call);
    ExtendsSelf(Ever(s));
  }

  lemma AckKeeps(cfg: Config, s: State, call: nat, reached: bool)
    requires Inv(s) && Enabled(cfg, s, Ack(call, reached))
    ensures var t := Apply(cfg, s, Ack(call, reached)); Inv(t) && Grows(s, t)
  {
    assert CallOk(s, call);
    var u := s.(calls := s.calls - {call});
    CallChanges(s, u, call);
    ExtendsSelf(Ever(s));
    if reached {
      AckedJobs(s, call);
      JobsChange(u, Acked(s, call));
    }
  }

  /** What the queue does with the answer of a call: nothing at all to a job whose lock the call lost. */
  lemma AckedJobs(s: State, call: nat)
    requires call in s.calls && CallOk(s, call) && s.calls[call].state.Returned?
    ensures var u, t := s.(calls := s.calls - {call}), Acked(s, call);
            && t == u.(jobs := t.jobs, onFailed := t.onFailed)
            && (s.jobs[s.calls[call].job].state != Active(call) ==> t.jobs == s.jobs && t.onFailed == s.onFailed)
            && (forall j :: j in s.jobs ==> j in t.jobs && t.jobs[j].data == s.jobs[j].data)
            && (forall j :: j in s.jobs && s.jobs[j].state == Completed ==> t.jobs[j].state == Completed)
            && (forall j :: j in t.jobs && t.jobs[j].state == Completed ==>
                  (j in s.jobs && s.jobs[j].state == Completed) || JobDurable(Ever(s), t.jobs[j].data))
  {
    hide JobDurable;
    var t, held := Acked(s, call), s.calls[call].job;
    AckedJob(s.jobs[held], s.calls[call].state.ok);
    forall j | j in s.jobs ensures j in t.jobs && t.jobs[j].data == s.jobs[j].data {}
    assert forall j :: j in t.jobs && j != held ==> t.jobs[j] == s.jobs[j];
  }

  lemma AckedJob(job: Job, ok: bool)
    ensures JobAfter(job, ok).data == job.data && (JobAfter(job, ok).state == Completed <==> ok)
  {
  }

  lemma NotifyFailedKeeps(cfg: Config, s: State, pid: nat, job: nat, a: Answer<Thrown>)
    requires Inv(s) && Enabled(cfg, s, NotifyFailed(pid, job, a))
    ensures var t := Apply(cfg, s, NotifyFailed(pid, job, a)); Inv(t) && Grows(s, t)
  {
    hide Inv, Grows, Extends;
    var w := Send(FinalEntry(s.jobs[job].data));
    WriteKeeps(s, w, a);
    MarksOnly(AfterWrite(s, w, a), Apply(cfg, s, NotifyFailed(pid, job, a)));
    AfterWriteFrame(s, w, a);
    GrowsFrom(s, Apply(cfg, s, NotifyFailed(pid, job, a)));
  }

  lemma MarksOnly(s: State, t: State)
    requires Inv(s) && t == s.(onFailed := t.onFailed, paused := t.paused)
    ensures Inv(t) && Ever(t) == Ever(s)
  {
    forall b ensures TaskOk(t, b) { assert TaskOk(s, b); }
    forall p ensures OpenOk(t, p) { assert OpenOk(s, p); }
    forall c ensures CallOk(t, c) { assert CallOk(s, c); }
    forall j ensures JobOk(t, j) { assert JobOk(s, j); }
  }

  lemma PauseKeeps(cfg: Config, s: State, pid: nat)
    requires Inv(s)
    ensures var t := Apply(cfg, s, Pause(pid)); Inv(t) && Grows(s, t)
  {
    MarksOnly(s, Apply(cfg, s, Pause(pid)));
    ExtendsSelf(Ever(s));
  }

  // ---------------------------------------------------------------------------------------------
  // Batches: joining, detaching, settling
  // ---------------------------------------------------------------------------------------------

  /** One more batch changes nothing about what is filed or on its way. */
  lemma MoreBatches(s: State, t: State)
    requires StoresOk(s.batches, Ever(s)) && Ever(t) == Ever(s) && t.late == s.late
    requires forall l :: l in s.late ==> WriteOk(s.batches, Ever(s), l.write)
    requires forall b :: b in s.batches ==> b in t.batches && t.batches[b] == s.batches[b]
    ensures StoresOk(t.batches, Ever(t)) && forall l :: l in t.late ==> WriteOk(t.batches, Ever(t), l.write)
  {
    hide Covered, Filed, AllArchived;
    forall key | key in Ever(t).r2 ensures Filed(t.batches, key, Ever(t).r2[key]) {
      FiledStays(s.batches, t.batches, key, Ever(s).r2[key]);
    }
    forall l | l in t.late ensures WriteOk(t.batches, Ever(t), l.write) {
      if l.write.Put? { FiledStays(s.batches, t.batches, l.write.key, l.write.logged); }
    }
  }

  lemma DetachKeeps(s: State, pid: nat)
    requires Inv(s) && pid in s.open
    ensures Inv(DetachOpen(s, pid, s.open[pid])) && Grows(s, DetachOpen(s, pid, s.open[pid]))
  {
    hide Covered, Filed, AllArchived, JobDurable, PhaseOk, ProgressOk, Extends;
    var b := s.open[pid];
    var t := DetachOpen(s, pid, b);
    assert OpenOk(s, pid);
    ExtendsSelf(Ever(s));
    assert b.batchId !in s.tasks by { assert TaskOk(s, b.batchId); }
    MoreBatches(s, t);
    hide StoresOk, WriteOk;
    forall base ensures TaskOk(t, base) {
      assert TaskOk(s, base);
      if base == b.batchId { FreshTaskOk(Ever(s), b.events); }
    }
    forall p ensures OpenOk(t, p) { assert OpenOk(s, p); }
    forall c ensures CallOk(t, c) { assert CallOk(s, c); }
    forall j ensures JobOk(t, j) { assert JobOk(s, j); }
  }

  lemma FreshTaskOk(ever: Stores, events: seq<CaptureEvent>)
    requires events != []
    ensures ProgressOk(events, SplitMachine.Start()) && PhaseOk(ever, events, SplitMachine.Start(), Selecting)
  {
    var p: SplitMachine.Progress<CaptureEvent> := SplitMachine.Start();
    assert p.stack[0] == [] && SubBatch(events, []) == events;
  }

  function Grown(s: State, c: nat, freshId: string): OpenEvents
    requires c in s.calls && s.calls[c].data.Decoded?
  {
    var call := s.calls[c];
    Accumulator.Join(if call.pid in s.open then Some(s.open[call.pid]) else None, freshId, call.data.event, c)
  }

  /** The state after `add()`, before a full batch is detached. */
  function Joined(s: State, c: nat, freshId: string): State
    requires c in s.calls && s.calls[c].data.Decoded?
  {
    var b := Grown(s, c, freshId);
    s.(calls := s.calls[c := s.calls[c].(state := Awaiting(b.batchId))], minted := s.minted + {b.batchId},
       open := s.open[s.calls[c].pid := b])
  }

  ghost predicate CanJoin(s: State, c: nat, freshId: string) {
    && c in s.calls && s.calls[c].state == Fetched && s.calls[c].data.Decoded?
    && (s.calls[c].pid !in s.open ==> PlainId(freshId) && freshId !in s.minted)
  }

  lemma JoinKeepsTasks(s: State, c: nat, freshId: string, base: string)
    requires CanJoin(s, c, freshId) && TaskOk(s, base)
    ensures TaskOk(Joined(s, c, freshId), base)
  {
    var t := Joined(s, c, freshId);
    if base in s.tasks { HeldStays(s.calls, t.calls, s.tasks[base].pid, base, s.batches[base], s.tasks[base].waiters); }
  }

  lemma JoinKeepsOthers(s: State, c: nat, freshId: string, pid: nat)
    requires CanJoin(s, c, freshId) && OpenOk(s, pid) && pid != s.calls[c].pid
    ensures OpenOk(Joined(s, c, freshId), pid)
  {
    var t := Joined(s, c, freshId);
    if pid in s.open { HeldStays(s.calls, t.calls, pid, s.open[pid].batchId, s.open[pid].events, s.open[pid].waiters); }
  }

  lemma JoinKeepsOwn(s: State, c: nat, freshId: string)
    requires CanJoin(s, c, freshId) && OpenOk(s, s.calls[c].pid)
    requires forall base :: base in s.batches ==> base in s.minted
    ensures OpenOk(Joined(s, c, freshId), s.calls[c].pid)
  {
    var pid, b := s.calls[c].pid, Grown(s, c, freshId);
    var t := Joined(s, c, freshId);
    if pid in s.open {
      var before := s.open[pid];
      assert b.waiters == before.waiters + [c] && b.events == before.events + [s.calls[c].data.event];
      assert forall i :: 0 <= i < |before.waiters| ==> before.waiters[i] != c;
      assert HeldBy(t.calls, pid, b.batchId, b.events, b.waiters);
    }
  }

  lemma JoinKeepsCalls(s: State, c: nat, freshId: string, d: nat)
    requires CanJoin(s, c, freshId) && CallOk(s, d)
    ensures CallOk(Joined(s, c, freshId), d)
  {
    var t, b := Joined(s, c, freshId), Grown(s, c, freshId);
    assert Ever(t) == Ever(s);
    assert b.waiters[|b.waiters| - 1] == c;
    assert s.calls[c].pid in s.open ==> forall w :: w in s.open[s.calls[c].pid].waiters ==> w in b.waiters;
  }

  lemma JoinKeepsBatches(s: State, c: nat, freshId: string)
    requires CanJoin(s, c, freshId) && BatchesOk(s) && forall pid :: OpenOk(s, pid)
    ensures BatchesOk(Joined(s, c, freshId))
  {
    var t := Joined(s, c, freshId);
    forall p, q | p in t.open && q in t.open && p != q ensures t.open[p].batchId != t.open[q].batchId {
      assert OpenOk(s, p) && OpenOk(s, q);
    }
  }

  lemma JoinKeeps(s: State, c: nat, freshId: string)
    requires Inv(s) && CanJoin(s, c, freshId)
    ensures Inv(Joined(s, c, freshId)) && Grows(s, Joined(s, c, freshId))
  {
    var t := Joined(s, c, freshId);
    ExtendsSelf(Ever(s));
    assert Ever(t) == Ever(s);
    GrowsFrom(s, t);
    forall base ensures TaskOk(t, base) { JoinKeepsTasks(s, c, freshId, base); }
    forall pid ensures OpenOk(t, pid) {
      if pid == s.calls[c].pid { JoinKeepsOwn(s, c, freshId); } else { JoinKeepsOthers(s, c, freshId, pid); }
    }
    JoinKeepsBatches(s, c, freshId);
    forall d ensures CallOk(t, d) { JoinKeepsCalls(s, c, freshId, d); }
    forall j ensures JobOk(t, j) { assert JobOk(s, j); }
  }

  lemma MalformedKeeps(s: State, c: nat)
    requires Inv(s) && c in s.calls && s.calls[c].state == Fetched && s.calls[c].data.Malformed?
    ensures var t := s.(calls := s.calls[c := s.calls[c].(state := Routing)]); Inv(t) && Grows(s, t)
  {
    var t := s.(calls := s.calls[c := s.calls[c].(state := Routing)]);
    assert CallOk(s, c);
    CallChanges(s, t, c);
    ExtendsSelf(Ever(s));
    GrowsFrom(s, t);
  }

  lemma GrowsTransitive(s: State, t: State, u: State)
    requires Grows(s, t) && Grows(t, u)
    ensures Grows(s, u)
  {
    ExtendsTransitive(Ever(s), Ever(t), Ever(u));
  }

  lemma ProcessIsJoin(cfg: Config, s: State, c: nat, freshId: string)
    requires c in s.calls && s.calls[c].data.Decoded?
    ensures var b, pid, t := Grown(s, c, freshId), s.calls[c].pid, Joined(s, c, freshId);
            Processed(cfg, s, c, freshId) == if Accumulator.Full(b, cfg.batchSize) then DetachOpen(t, pid, b) else t
  {
    var b, pid := Grown(s, c, freshId), s.calls[c].pid;
    assert s.open[pid := b] - {pid} == s.open - {pid};
  }

  lemma ProcessKeeps(cfg: Config, s: State, c: nat, freshId: string)
    requires Inv(s) && Enabled(cfg, s, Process(c, freshId))
    ensures var t := Apply(cfg, s, Process(c, freshId)); Inv(t) && Grows(s, t)
  {
    if s.calls[c].data.Malformed? {
      MalformedKeeps(s, c);
    } else {
      JoinKeeps(s, c, freshId);
      ProcessIsJoin(cfg, s, c, freshId);
      var joined := Joined(s, c, freshId);
      if Accumulator.Full(Grown(s, c, freshId), cfg.batchSize) {
        DetachKeeps(joined, s.calls[c].pid);
        GrowsTransitive(s, joined, DetachOpen(joined, s.calls[c].pid, Grown(s, c, freshId)));
      }
    }
  }

  lemma DoneIsDurable(ever: Stores, batch: seq<CaptureEvent>, task: Task)
    requires PhaseOk(ever, batch, task.progress, task.phase) && task.phase.Done?
    ensures task.phase.ok ==> AllDurable(ever, batch)
  {
  }

  /** The waiters of a flush that is done: calls that await it, each with an event of the batch. */
  lemma WaitersAreCalls(calls: map<nat, Pipeline.Call>, pid: nat, base: string, events: seq<CaptureEvent>,
      waiters: seq<nat>)
    requires HeldBy(calls, pid, base, events, waiters)
    ensures forall w :: w in waiters ==>
              w in calls && calls[w].state == Awaiting(base) && calls[w].data.Decoded? && calls[w].data.event in events
  {
    forall w | w in waiters
      ensures w in calls && calls[w].state == Awaiting(base) && calls[w].data.Decoded? && calls[w].data.event in events
    {
      var i :| 0 <= i < |waiters| && waiters[i] == w;
    }
  }

  lemma SettledCallOk(s: State, t: State, base: string, c: nat)
    requires base in s.tasks && base in s.batches && s.tasks[base].phase.Done? && CallOk(s, c)
    requires HeldBy(s.calls, s.tasks[base].pid, base, s.batches[base], s.tasks[base].waiters)
    requires s.tasks[base].phase.ok ==> AllDurable(Ever(s), s.batches[base])
    requires t == s.(calls := SettleWaiters(s.calls, s.tasks[base].waiters, s.tasks[base].phase.ok),
      tasks := s.tasks - {base})
    ensures CallOk(t, c)
  {
    hide Durable;
    WaitersAreCalls(s.calls, s.tasks[base].pid, base, s.batches[base], s.tasks[base].waiters);
    assert Ever(t) == Ever(s);
  }

  lemma SettleKeeps(cfg: Config, s: State, base: string)
    requires Inv(s) && Enabled(cfg, s, Settle(base))
    ensures var t := Apply(cfg, s, Settle(base)); Inv(t) && Grows(s, t)
  {
    hide PhaseOk, ProgressOk, StoresOk, WriteOk, JobDurable, Extends, HeldBy, AllDurable;
    var t := Apply(cfg, s, Settle(base));
    var task := s.tasks[base];
    assert TaskOk(s, base);
    DoneIsDurable(Ever(s), s.batches[base], task);
    WaitersAreCalls(s.calls, task.pid, base, s.batches[base], task.waiters);
    ExtendsSelf(Ever(s));
    assert Ever(t) == Ever(s);
    forall b ensures TaskOk(t, b) {
      assert TaskOk(s, b);
      if b in t.tasks { HeldStays(s.calls, t.calls, s.tasks[b].pid, b, s.batches[b], s.tasks[b].waiters); }
    }
    forall p ensures OpenOk(t, p) {
      assert OpenOk(s, p);
      if p in s.open { HeldStays(s.calls, t.calls, p, s.open[p].batchId, s.open[p].events, s.open[p].waiters); }
    }
    forall c ensures CallOk(t, c) { assert CallOk(s, c); SettledCallOk(s, t, base, c); }
    forall j ensures JobOk(t, j) { assert JobOk(s, j); }
  }

  // ---------------------------------------------------------------------------------------------
  // SIGKILL
  // ---------------------------------------------------------------------------------------------

  lemma InFlightWritesOk(s: State, pid: nat)
    requires Inv(s)
    ensures forall l :: l in InFlightWrites(s, pid) ==> WriteOk(s.batches, Ever(s), l.write)
  {
    forall l | l in InFlightWrites(s, pid) ensures WriteOk(s.batches, Ever(s), l.write) {
      if l.OfTask? {
        InFlightIsOk(s, l.base);
      }
    }
  }

  lemma KillKeeps(cfg: Config, s: State, pid: nat)
    requires Inv(s)
    ensures var t := Apply(cfg, s, Kill(pid)); Inv(t) && Grows(s, t)
  {
    hide PhaseOk, ProgressOk, StoresOk, WriteOk, JobDurable, Extends, InFlightWrites;
    var t := Apply(cfg, s, Kill(pid));
    InFlightWritesOk(s, pid);
    ExtendsSelf(Ever(s));
    assert Ever(t) == Ever(s);
    forall b ensures TaskOk(t, b) {
      assert TaskOk(s, b);
      if b in t.tasks { OthersHeld(s.calls, t.calls, pid, s.tasks[b].pid, b, s.batches[b], s.tasks[b].waiters); }
    }
    forall p ensures OpenOk(t, p) {
      assert OpenOk(s, p);
      if p in t.open { OthersHeld(s.calls, t.calls, pid, p, s.open[p].batchId, s.open[p].events, s.open[p].waiters); }
    }
    forall c ensures CallOk(t, c) { assert CallOk(s, c); }
    forall j ensures JobOk(t, j) { assert JobOk(s, j); }
  }

  lemma OthersHeld(calls: map<nat, Pipeline.Call>, after: map<nat, Pipeline.Call>, killed: nat, pid: nat, base: string,
      events: seq<CaptureEvent>, waiters: seq<nat>)
    requires HeldBy(calls, pid, base, events, waiters) && pid != killed
    requires forall c :: c in calls && calls[c].pid != killed ==> c in after && after[c] == calls[c]
    ensures HeldBy(after, pid, base, events, waiters)
  {
  }

  // ---------------------------------------------------------------------------------------------
  // Any step
  // ---------------------------------------------------------------------------------------------

  lemma TriggerKeeps(cfg: Config, s: State, pid: nat)
    requires Inv(s) && Enabled(cfg, s, Trigger(pid))
    ensures var t := Apply(cfg, s, Trigger(pid)); Inv(t) && Grows(s, t)
  {
    hide Inv, Grows;
    DetachKeeps(s, pid);
  }

  lemma RouteStepKeeps(cfg: Config, s: State, call: nat, a: Answer<Thrown>)
    requires Inv(s) && Enabled(cfg, s, Route(call, a))
    ensures var t := Apply(cfg, s, Route(call, a)); Inv(t) && Grows(s, t)
  {
    hide Inv, Grows;
    RouteKeeps(s, call, Send(SchemaValidationFailed(s.calls[call].data.raw)), a);
  }

  lemma SweepStepKeeps(cfg: Config, s: State, count: nat)
    requires Inv(s) && Enabled(cfg, s, Sweep(count))
    ensures var t := Apply(cfg, s, Sweep(count)); Inv(t) && Grows(s, t)
  {
    hide Inv, Grows;
    SweepKeeps(s, count);
  }

  lemma LandStepKeeps(cfg: Config, s: State, l: Straggler)
    requires Inv(s) && Enabled(cfg, s, Land(l))
    ensures var t := Apply(cfg, s, Land(l)); Inv(t) && Grows(s, t)
  {
    hide Inv, Grows;
    LandKeeps(s, l);
  }

  lemma StepKeeps(cfg: Config, s: State, step: Step)
    requires Inv(s) && Enabled(cfg, s, step)
    ensures Inv(Apply(cfg, s, step)) && Grows(s, Apply(cfg, s, step))
  {
    hide Inv, Grows, Enabled, Apply;
    match step
    case Enqueue(job, data) => EnqueueKeeps(cfg, s, job, data);
    case Fetch(pid, job, call) => FetchKeeps(cfg, s, pid, job, call);
    case Process(call, freshId) => ProcessKeeps(cfg, s, call, freshId);
    case Trigger(pid) => TriggerKeeps(cfg, s, pid);
    case Selected(base, found) => SelectedKeeps(cfg, s, base, found);
    case SelectFailed(base, error) => SelectFailedKeeps(cfg, s, base, error);
    case PutAnswered(base, a) => PutAnsweredKeeps(cfg, s, base, a);
    case Answered(base, a) => AnsweredKeeps(cfg, s, base, a);
    case Settle(base) => SettleKeeps(cfg, s, base);
    case Route(call, a) => RouteStepKeeps(cfg, s, call, a);
    case Return(call) => ReturnKeeps(cfg, s, call);
    case Ack(call, reached) => AckKeeps(cfg, s, call, reached);
    case NotifyFailed(pid, job, a) => NotifyFailedKeeps(cfg, s, pid, job, a);
    case Pause(pid) => PauseKeeps(cfg, s, pid);
    case Kill(pid) => KillKeeps(cfg, s, pid);
    case Stall(job, fail) => StallKeeps(cfg, s, job, fail);
    case Sweep(count) => SweepStepKeeps(cfg, s, count);
    case Land(l) => LandStepKeeps(cfg, s, l);
  }
}
