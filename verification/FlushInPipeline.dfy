/**
 * The two models of a flush are one: whatever answers the stores give, the pipeline's steps take a
 * detached batch to the same stores and the same end as the production flush of `Flush`.
 */
module FlushInPipeline {
  import opened Prelude
  import opened ClassifyFlushError
  import opened R2Retry
  import SplitRetry
  import opened SplitRetryTheorems
  import SplitMachine
  import opened Flush
  import opened FlushTheorems
  import opened Pipeline
  import opened PipelineInvariant
  import opened PipelineSteps
  import PipelineTheorems

  /** The state with this flush and these stores, everything else as in `s`. */
  function At(s: State, base: string, stores: Stores, t: Task): State {
    s.(stores := stores, tasks := s.tasks[base := t])
  }

  /** What the pipeline's step says of a store's reply; nothing lands late here. */
  function AnswerFor<E>(r: Reply<E>): Answer<E> {
    match r.error
    case None => Good
    case Some(e) => Bad(e, if r.applied then Applied else Lost)
  }

  function AfterReply(stores: Stores, w: Write, applied: bool): Stores {
    if applied then Perform(stores, w) else stores
  }

  lemma ReplyLands<E>(s: State, w: Write, r: Reply<E>)
    requires r.Honest()
    ensures AfterWrite(s, w, AnswerFor(r)) == s.(stores := AfterReply(s.stores, w, r.applied))
  {
  }

  // ---------------------------------------------------------------------------------------------
  // Runs of one flush's steps
  // ---------------------------------------------------------------------------------------------

  predicate OwnStep(step: Step, base: string) { IsTaskStep(step) && step.base == base }

  /** Some run of this flush's steps alone leads from the one to the other. */
  ghost predicate Goes(cfg: Config, s: State, base: string, a: Stores, t: Task, b: Stores, u: Task) {
    exists steps :: Run(cfg, At(s, base, a, t), steps) == Some(At(s, base, b, u)) && OwnSteps(steps, base)
  }

  predicate OwnSteps(steps: seq<Step>, base: string) { forall i :: 0 <= i < |steps| ==> OwnStep(steps[i], base) }

  lemma GoesNowhere(cfg: Config, s: State, base: string, a: Stores, t: Task)
    ensures Goes(cfg, s, base, a, t, a, t)
  {
    assert Run(cfg, At(s, base, a, t), []) == Some(At(s, base, a, t)) && OwnSteps([], base);
  }

  lemma GoesOn(cfg: Config, s: State, base: string, a: Stores, t: Task, b: Stores, u: Task, c: Stores, v: Task)
    requires Goes(cfg, s, base, a, t, b, u) && Goes(cfg, s, base, b, u, c, v)
    ensures Goes(cfg, s, base, a, t, c, v)
  {
    hide Enabled, Apply;
    var x :| Run(cfg, At(s, base, a, t), x) == Some(At(s, base, b, u)) && OwnSteps(x, base);
    var y :| Run(cfg, At(s, base, b, u), y) == Some(At(s, base, c, v)) && OwnSteps(y, base);
    PipelineTheorems.RunJoins(cfg, At(s, base, a, t), x, y);
    assert OwnSteps(x + y, base);
  }

  lemma GoesOneStep(cfg: Config, s: State, base: string, a: Stores, t: Task, step: Step, b: Stores, u: Task)
    requires OwnStep(step, base) && Enabled(cfg, At(s, base, a, t), step)
      && Apply(cfg, At(s, base, a, t), step) == At(s, base, b, u)
    ensures Goes(cfg, s, base, a, t, b, u)
  {
    hide Enabled, Apply;
    assert [step][1..] == [];
    assert Run(cfg, At(s, base, b, u), []) == Some(At(s, base, b, u));
    assert Run(cfg, At(s, base, a, t), [step]) == Some(At(s, base, b, u)) && OwnSteps([step], base);
  }

  lemma SelectGoes(cfg: Config, s: State, base: string, a: Stores, t: Task, found: map<string, LinkRow>)
    requires base in s.batches && t.phase == Selecting && t.progress.stack != []
    ensures Goes(cfg, s, base, a, t, a, AfterSelect(cfg, s.batches[base], t, found))
  {
    hide Goes, AfterSelect;
    GoesOneStep(cfg, s, base, a, t, Selected(base, found), a, AfterSelect(cfg, s.batches[base], t, found));
  }

  lemma SelectFailureGoes(cfg: Config, s: State, base: string, a: Stores, t: Task, error: Thrown)
    requires base in s.batches && t.phase == Selecting
    ensures Goes(cfg, s, base, a, t, a, FlushBatchFailed(s.batches[base], t, error))
  {
    hide Goes, FlushBatchFailed;
    GoesOneStep(cfg, s, base, a, t, SelectFailed(base, error), a, FlushBatchFailed(s.batches[base], t, error));
  }

  lemma AtMoves(s: State, base: string, a: Stores, t: Task, b: Stores, u: Task)
    ensures SetTask(At(s, base, a, t).(stores := b), base, u) == At(s, base, b, u)
  {
    assert s.tasks[base := t][base := u] == s.tasks[base := u];
  }

  lemma PutStep(cfg: Config, s: State, base: string, w: Write, a: Answer<R2Error>)
    requires TaskAt(s, base) && s.tasks[base].phase.Putting? && WriteOf(base, s.batches[base], s.tasks[base]) == Some(w)
    ensures Enabled(cfg, s, PutAnswered(base, a))
    ensures Apply(cfg, s, PutAnswered(base, a)) == SetTask(AfterWrite(s, w, a), base, AfterPut(s.tasks[base], a))
  {
    hide WriteOf, AfterWrite, AfterPut, SetTask;
  }

  lemma AnswerStep(cfg: Config, s: State, base: string, w: Write, a: Answer<Thrown>)
    requires TaskAt(s, base) && WriteOf(base, s.batches[base], s.tasks[base]) == Some(w)
    requires var t := s.tasks[base];
             t.phase.SendingPoison? || (t.progress.stack != [] && (t.phase.GivenUp? || t.phase.Inserting?))
    ensures Enabled(cfg, s, Answered(base, a))
    ensures Apply(cfg, s, Answered(base, a))
      == SetTask(AfterWrite(s, w, a), base, AfterAnswer(s.batches[base], s.tasks[base], a))
  {
    hide WriteOf, AfterWrite, AfterAnswer, SetTask;
  }

  lemma PutGoes(cfg: Config, s: State, base: string, a: Stores, t: Task, w: Write, r: Reply<R2Error>)
    requires base in s.batches && t.phase.Putting? && WriteOf(base, s.batches[base], t) == Some(w) && r.Honest()
    ensures Goes(cfg, s, base, a, t, AfterReply(a, w, r.applied), AfterPut(t, AnswerFor(r)))
  {
    ReplyLands(At(s, base, a, t), w, r);
    PutStep(cfg, At(s, base, a, t), base, w, AnswerFor(r));
    AtMoves(s, base, a, t, AfterReply(a, w, r.applied), AfterPut(t, AnswerFor(r)));
    hide Goes, WriteOf, AfterWrite, AnswerFor, AfterPut, AfterReply, Enabled, Apply, SetTask;
    GoesOneStep(cfg, s, base, a, t, PutAnswered(base, AnswerFor(r)), AfterReply(a, w, r.applied),
      AfterPut(t, AnswerFor(r)));
  }

  lemma AnswerGoes(cfg: Config, s: State, base: string, a: Stores, t: Task, w: Write, r: Reply<Thrown>)
    requires base in s.batches && WriteOf(base, s.batches[base], t) == Some(w) && r.Honest()
    requires t.phase.SendingPoison? || (t.progress.stack != [] && (t.phase.GivenUp? || t.phase.Inserting?))
    ensures Goes(cfg, s, base, a, t, AfterReply(a, w, r.applied), AfterAnswer(s.batches[base], t, AnswerFor(r)))
  {
    ReplyLands(At(s, base, a, t), w, r);
    AnswerStep(cfg, At(s, base, a, t), base, w, AnswerFor(r));
    var u := AfterAnswer(s.batches[base], t, AnswerFor(r));
    AtMoves(s, base, a, t, AfterReply(a, w, r.applied), u);
    hide Goes, WriteOf, AfterWrite, AnswerFor, AfterAnswer, AfterReply, Enabled, Apply, SetTask;
    GoesOneStep(cfg, s, base, a, t, Answered(base, AnswerFor(r)), AfterReply(a, w, r.applied), u);
  }

  // ---------------------------------------------------------------------------------------------
  // One call of flushBatch
  // ---------------------------------------------------------------------------------------------

  /** The sub-batch on top of the stack is there and has events. */
  predicate HasHead(s: State, base: string, t: Task) {
    base in s.batches && t.progress.stack != [] && SubBatch(s.batches[base], t.progress.stack[0]) != []
  }

  function HeadKey(s: State, base: string, t: Task): string
    requires HasHead(s, base, t)
  {
    NodeKey(base, s.batches[base], t.progress.stack[0])
  }

  lemma {:induction false} PutsGo(cfg: Config, env: Env, s: State, base: string, w: World, t: Task,
      logged: seq<LoggedEvent>, tries: nat)
    requires HasHead(s, base, t) && env.Honest() && t.phase == Putting(logged, tries) && 1 <= tries <= R2_MAX_ATTEMPTS
    ensures var p := PutsFrom(PutOnce(env, HeadKey(s, base, t), logged), R2_MAX_ATTEMPTS, R2_INITIAL_DELAY_MS, w,
      tries);
            Goes(cfg, s, base, w.stores, t, p.world.stores,
              t.(phase := if p.outcome.Succeeded? then Inserting(logged) else GivenUp))
    decreases R2_MAX_ATTEMPTS - tries
  {
    hide Goes, SubBatch, ClassifyR2Error;
    var write := Put(HeadKey(s, base, t), logged);
    var reply := env.put(w.now);
    var w1 := PutOnce(env, HeadKey(s, base, t), logged)(w).0;
    assert WriteOf(base, s.batches[base], t) == Some(write);
    assert w1.stores == AfterReply(w.stores, write, reply.applied);
    PutGoes(cfg, s, base, w.stores, t, write, reply);
    var u := AfterPut(t, AnswerFor(reply));
    if reply.error.Some? && ClassifyR2Error(reply.error.value) == Retryable && tries < R2_MAX_ATTEMPTS {
      PutsGo(cfg, env, s, base, w1, u, logged, tries + 1);
      var p := PutsFrom(PutOnce(env, HeadKey(s, base, t), logged), R2_MAX_ATTEMPTS, R2_INITIAL_DELAY_MS, w1, tries + 1);
      GoesOn(cfg, s, base, w.stores, t, w1.stores, u, p.world.stores,
             u.(phase := if p.outcome.Succeeded? then Inserting(logged) else GivenUp));
    }
  }

  /** Where a flush goes when `flushBatch` has answered for the sub-batch on top. */
  function AfterCall(batch: seq<CaptureEvent>, t: Task, error: Option<Thrown>): Task
    requires t.progress.stack != []
  {
    match error
    case None => Onward(t, SplitMachine.Succeed(t.progress))
    case Some(e) => FlushBatchFailed(batch, t, e)
  }

  /** The phase a flush is in plays no part in where it goes then, as far as the end of a failure. */
  lemma PhaseIsForgotten(batch: seq<CaptureEvent>, t: Task, phase: Phase, error: Option<Thrown>)
    requires t.progress.stack != []
    ensures AfterCall(batch, t.(phase := phase), error) == AfterCall(batch, t, error)
  {
  }

  /** The PUT with its retries, and then the INSERT or the dead-letter write. */
  lemma StoreGoes(cfg: Config, env: Env, s: State, base: string, w: World, t: Task, logged: seq<LoggedEvent>)
    requires HasHead(s, base, t) && env.Honest() && t.phase == Putting(logged, 1)
    ensures var events := SubBatch(s.batches[base], t.progress.stack[0]);
            var (w1, error) := StoreBatch(env, w, HeadKey(s, base, t), logged, events);
            Goes(cfg, s, base, w.stores, t, w1.stores, AfterCall(s.batches[base], t, error))
  {
    hide Goes, SubBatch, SplitMachine.Fail, PutsFrom;
    var batch, events := s.batches[base], SubBatch(s.batches[base], t.progress.stack[0]);
    var p := PutsFrom(PutOnce(env, HeadKey(s, base, t), logged), R2_MAX_ATTEMPTS, R2_INITIAL_DELAY_MS, w, 1);
    PutsGo(cfg, env, s, base, w, t, logged, 1);
    var u := t.(phase := if p.outcome.Succeeded? then Inserting(logged) else GivenUp);
    var write := if p.outcome.Succeeded? then Write.Insert(logged) else Write.Send(R2PutFailed(events));
    var reply := if p.outcome.Succeeded? then env.insert(p.world.now, RowsOf(logged)) else env.send(p.world.now);
    AnswerGoes(cfg, s, base, p.world.stores, u, write, reply);
    var v := AfterAnswer(batch, u, AnswerFor(reply));
    GoesOn(cfg, s, base, w.stores, t, p.world.stores, u, AfterReply(p.world.stores, write, reply.applied), v);
    PhaseIsForgotten(batch, t, u.phase, reply.error);
    assert v == AfterCall(batch, u, reply.error);
  }

  /** One call of `flushBatch` is a run of the pipeline. */
  lemma CallGoes(cfg: Config, env: Env, s: State, base: string, w: World, t: Task)
    requires HasHead(s, base, t) && env.Honest() && cfg.enrich == env.enrich && t.phase == Selecting
    ensures var head := t.progress.stack[0];
            var (w1, error) := FlushBatchRun(env, w, SubBatch(s.batches[base], head), NodeId(base, head));
            Goes(cfg, s, base, w.stores, t, w1.stores, AfterCall(s.batches[base], t, error))
  {
    hide Goes, SubBatch, NodeId, SplitMachine.Fail, StoreBatch;
    var events := SubBatch(s.batches[base], t.progress.stack[0]);
    match env.select(w.now)
    case Err(error) => SelectFailureGoes(cfg, s, base, w.stores, t, error);
    case Ok(found) =>
      var u := AfterSelect(cfg, s.batches[base], t, found);
      var logged := LoggedBy(env.enrich, found, events);
      var w1 := w.(now := w.now + 1);
      SelectGoes(cfg, s, base, w.stores, t, found);
      StoreGoes(cfg, env, s, base, w1, u, logged);
      var (w2, error) := StoreBatch(env, w1, HeadKey(s, base, u), logged, events);
      PhaseIsForgotten(s.batches[base], t, u.phase, error);
      GoesOn(cfg, s, base, w.stores, t, w1.stores, u, w2.stores, AfterCall(s.batches[base], u, error));
  }

  // ---------------------------------------------------------------------------------------------
  // The whole walk
  // ---------------------------------------------------------------------------------------------

  type Conf = SplitMachine.Conf<World, CaptureEvent>

  /** The flush that stands where the machine stands. */
  predicate Matches(t: Task, u: Task, c: Conf) {
    && u.pid == t.pid && u.waiters == t.waiters
    && match c
       case Running(_, p) => u == Onward(t, p)
       case Stopped(_, _) => u.phase == Done(false)
  }

  /** One step of the machine. */
  lemma MachineStepGoes(cfg: Config, env: Env, s: State, base: string, w: World, t: Task,
      p: SplitMachine.Progress<CaptureEvent>)
    returns (u: Task)
    requires base in s.batches && env.Honest() && cfg.enrich == env.enrich && ProgressOk(s.batches[base], p)
    ensures var c := SplitMachine.Step(ProductionConfig(env), base, s.batches[base], SplitMachine.Running(w, p));
            && Goes(cfg, s, base, w.stores, Onward(t, p), c.world.stores, u) && Matches(t, u, c)
            && (c.Running? ==> ProgressOk(s.batches[base], c.progress))
  {
    hide Goes, SubBatch, NodeId, FlushBatchRun;
    var batch, from := s.batches[base], Onward(t, p);
    if p.stack == [] {
      GoesNowhere(cfg, s, base, w.stores, from);
      u := from;
    } else {
      assert SubBatch(batch, p.stack[0]) != [];
      var (w1, error) := FlushBatchRun(env, w, SubBatch(batch, p.stack[0]), NodeId(base, p.stack[0]));
      CallGoes(cfg, env, s, base, w, from);
      u := AfterCall(batch, from, error);
      if error.Some? { FailOk(batch, p, Classify(error.value)); } else { SucceededOk(batch, p); }
    }
  }

  lemma SucceededOk(batch: seq<CaptureEvent>, p: SplitMachine.Progress<CaptureEvent>)
    requires ProgressOk(batch, p) && p.stack != []
    ensures ProgressOk(batch, SplitMachine.Succeed(p))
  {
    assert forall i :: 0 <= i < |p.stack[1..]| ==> p.stack[1..][i] == p.stack[i + 1];
  }

  lemma {:induction false} MachineGoes(
    cfg: Config, env: Env, s: State, base: string, w: World, t: Task, p: SplitMachine.Progress<CaptureEvent>, n: nat)
    returns (u: Task)
    requires base in s.batches && env.Honest() && cfg.enrich == env.enrich && ProgressOk(s.batches[base], p)
    ensures var c := SplitMachine.Steps(ProductionConfig(env), base, s.batches[base], SplitMachine.Running(w, p), n);
            Goes(cfg, s, base, w.stores, Onward(t, p), c.world.stores, u) && Matches(t, u, c)
    decreases n
  {
    hide Goes, ProgressOk, SplitMachine.Step;
    if n == 0 {
      GoesNowhere(cfg, s, base, w.stores, Onward(t, p));
      u := Onward(t, p);
    } else {
      var next := SplitMachine.Step(ProductionConfig(env), base, s.batches[base], SplitMachine.Running(w, p));
      var v := MachineStepGoes(cfg, env, s, base, w, t, p);
      if next.Running? {
        u := MachineGoes(cfg, env, s, base, next.world, t, next.progress, n - 1);
        var c := SplitMachine.Steps(ProductionConfig(env), base, s.batches[base], next, n - 1);
        GoesOn(cfg, s, base, w.stores, Onward(t, p), next.world.stores, v, c.world.stores, u);
      } else {
        StoppedStays(ProductionConfig(env), base, s.batches[base], next, n - 1);
        u := v;
      }
    }
  }

  lemma {:induction false} StoppedStays(
    cfg: SplitRetry.Config<World, CaptureEvent>, base: string, batch: seq<CaptureEvent>, c: Conf, n: nat)
    requires c.Stopped?
    ensures SplitMachine.Steps(cfg, base, batch, c, n) == c
    decreases n
  {
    if n > 0 { StoppedStays(cfg, base, batch, c, n - 1); }
  }

  // ---------------------------------------------------------------------------------------------
  // The poison, and the whole flush
  // ---------------------------------------------------------------------------------------------

  lemma {:induction false} PoisonGoes(
    cfg: Config, env: Env, s: State, base: string, w: World, t: Task, poison: seq<SplitRetry.Poisoned<CaptureEvent>>,
      sent: nat)
    requires base in s.batches && env.Honest() && sent < |poison|
    requires t.phase == SendingPoison(sent) && t.progress.poison == PoisonEvents(poison)
    ensures var (w1, error) := SendPoison(env, w, poison[sent..]);
            Goes(cfg, s, base, w.stores, t, w1.stores, t.(phase := Done(error.None?)))
    decreases |poison| - sent
  {
    hide Goes;
    var entry := FlushPoison(poison[sent].event);
    var reply := env.send(w.now);
    var w1 := World(AfterReply(w.stores, Write.Send(entry), reply.applied), w.now + 1);
    assert Flush.Send(env, w, entry) == (w1, reply.error);
    assert poison[sent..][0] == poison[sent] && poison[sent..][1..] == poison[sent + 1..];
    AnswerGoes(cfg, s, base, w.stores, t, Write.Send(entry), reply);
    var u := AfterAnswer(s.batches[base], t, AnswerFor(reply));
    if reply.error.None? && sent + 1 < |poison| {
      PoisonGoes(cfg, env, s, base, w1, u, poison, sent + 1);
      var (w2, error) := SendPoison(env, w1, poison[sent + 1..]);
      GoesOn(cfg, s, base, w.stores, t, w1.stores, u, w2.stores, u.(phase := Done(error.None?)));
    }
  }

  /**
   * The pipeline refines the production flush. For every way in which the stores answer, some run of
   * the detached batch's own steps leaves exactly the stores that `ProductionFlushRun` leaves, changes
   * nothing else, and ends with the flush settled the way that one does.
   */
  lemma PipelineRunsTheFlush(cfg: Config, env: Env, s: State, base: string, w: World, t: Task)
    returns (u: Task)
    requires base in s.batches && s.batches[base] != [] && env.Honest() && cfg.enrich == env.enrich
    requires t.phase == Selecting && t.progress == SplitMachine.Start()
    ensures var (w1, error) := ProductionFlushRun(env, w, s.batches[base], base);
            && Goes(cfg, s, base, w.stores, t, w1.stores, u)
            && u.phase == Done(error.None?) && u.pid == t.pid && u.waiters == t.waiters
  {
    hide Goes, FlushBatchRun;
    var batch := s.batches[base];
    var run := SplitRetry.AttemptRun(ProductionConfig(env), w, batch, base);
    assert run == SplitRetry.RetryWithSplitRun(ProductionConfig(env), w, batch, base);
    SplitMachine.MachineRunsBatch(ProductionConfig(env), w, batch, base);
    StartIsOk(batch);
    assert Onward(t, SplitMachine.Start()) == t;
    u := MachineGoes(cfg, env, s, base, w, t, SplitMachine.Start(), |run.journal.calls|);
    if run.outcome.Resolved? && run.outcome.poison != [] {
      var poison := run.outcome.poison;
      assert [] + PoisonEvents(poison) == PoisonEvents(poison) && poison[0..] == poison;
      PoisonGoes(cfg, env, s, base, run.world, u, poison, 0);
      var (w1, error) := SendPoison(env, run.world, poison);
      var v := u.(phase := Done(error.None?));
      GoesOn(cfg, s, base, w.stores, t, run.world.stores, u, w1.stores, v);
      u := v;
    }
  }

  lemma StartIsOk(batch: seq<CaptureEvent>)
    requires batch != []
    ensures ProgressOk(batch, SplitMachine.Start())
  {
    var p: SplitMachine.Progress<CaptureEvent> := SplitMachine.Start();
    assert p.stack[0] == [] && SubBatch(batch, []) == batch;
  }
}
