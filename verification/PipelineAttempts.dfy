/**
 * How often a job can run. The queue counts the attempts that fail; a delivery whose lock expires is
 * not among them, so deliveries are bounded by failures and stalls together.
 */
module PipelineAttempts {
  import opened Prelude
  import opened Flush
  import opened Pipeline
  import opened PipelineSteps
  import PipelineTheorems

  // ---------------------------------------------------------------------------------------------
  // What a step does to one job
  // ---------------------------------------------------------------------------------------------

  predicate IsJobStep(step: Step) { step.Enqueue? || step.Fetch? || step.Ack? || step.Stall? }

  /** No other step changes a job, and none adds a final-failure handler. */
  lemma JobsUntouched(cfg: Config, s: State, step: Step)
    requires Enabled(cfg, s, step) && !IsJobStep(step)
    ensures Apply(cfg, s, step).jobs == s.jobs && Apply(cfg, s, step).onFailed <= s.onFailed
  {
    if IsTaskStep(step) {
      TaskStepFrame(cfg, s, step);
    } else if step.Process? {
      ProcessedJobs(cfg, s, step.call, step.freshId);
    } else if step.Route? {
      AfterWriteFrame(s, Send(SchemaValidationFailed(s.calls[step.call].data.raw)), step.answer);
    } else if step.NotifyFailed? {
      AfterWriteFrame(s, Send(FinalEntry(s.jobs[step.job].data)), step.answer);
    }
  }

  lemma ProcessedJobs(cfg: Config, s: State, c: nat, freshId: string)
    requires c in s.calls
    ensures Processed(cfg, s, c, freshId).jobs == s.jobs && Processed(cfg, s, c, freshId).onFailed == s.onFailed
  {
    if s.calls[c].data.Decoded? { ProcessIsJoin(cfg, s, c, freshId); }
  }

  predicate Fetches(step: Step, job: nat) { step.Fetch? && step.job == job }

  predicate Stalls(step: Step, job: nat) { step.Stall? && step.job == job }

  /** The queue learns that a call which still holds the job's lock has failed. */
  predicate Fails(s: State, step: Step, job: nat) {
    && step.Ack? && step.reached && step.call in s.calls && s.calls[step.call].job == job
    && s.calls[step.call].state == Returned(false) && job in s.jobs && s.jobs[job].state == Active(step.call)
  }

  function Made(s: State, job: nat): nat { if job in s.jobs then s.jobs[job].attemptsMade else 0 }

  /** The job is running, or has been completed. */
  predicate Held(s: State, job: nat) { job in s.jobs && (s.jobs[job].state.Active? || s.jobs[job].state == Completed) }

  function One(b: bool): nat { if b then 1 else 0 }

  /** Failures are what the counter counts; a fetch takes the job, a failure or a stall gives it back. */
  ghost predicate Moves(s: State, step: Step, t: State, job: nat) {
    && Made(t, job) == Made(s, job) + One(Fails(s, step, job))
    && One(Held(t, job)) + One(Fails(s, step, job)) + One(Stalls(step, job)) == One(Held(s, job))
      + One(Fetches(step, job))
  }

  lemma StepMoves(cfg: Config, s: State, step: Step, job: nat)
    requires Enabled(cfg, s, step)
    ensures Moves(s, step, Apply(cfg, s, step), job)
  {
    if step.Ack? {
      AckMoves(s, step, job);
    } else if IsJobStep(step) {
      OneJobMoves(cfg, s, step, job);
    } else {
      JobsUntouched(cfg, s, step);
      SameJobsMoves(s, step, Apply(cfg, s, step), job);
    }
  }

  lemma SameJobsMoves(s: State, step: Step, t: State, job: nat)
    requires t.jobs == s.jobs && !IsJobStep(step)
    ensures Moves(s, step, t, job)
  {
  }

  lemma OneJobMoves(cfg: Config, s: State, step: Step, job: nat)
    requires Enabled(cfg, s, step) && IsJobStep(step) && !step.Ack?
    ensures Moves(s, step, Apply(cfg, s, step), job)
  {
  }

  lemma AckMoves(s: State, step: Step, job: nat)
    requires step.Ack? && step.call in s.calls && s.calls[step.call].state.Returned? && s.calls[step.call].job in s.jobs
    ensures Moves(s, step, if step.reached then Acked(s, step.call) else s.(calls := s.calls - {step.call}), job)
  {
  }

  // ---------------------------------------------------------------------------------------------
  // Along a run
  // ---------------------------------------------------------------------------------------------

  function FetchesOf(job: nat): Kind { (s, step) => Fetches(step, job) }
  function StallsOf(job: nat): Kind { (s, step) => Stalls(step, job) }
  function FailuresOf(job: nat): Kind { (s, step) => Fails(s, step, job) }

  lemma {:induction false} RunMoves(cfg: Config, s: State, steps: seq<Step>, job: nat)
    requires Run(cfg, s, steps).Some?
    ensures var t := Run(cfg, s, steps).value;
            && Made(t, job) == Made(s, job) + CountSteps(cfg, s, steps, FailuresOf(job))
            && One(Held(t, job)) + CountSteps(cfg, s, steps, FailuresOf(job)) + CountSteps(cfg, s, steps, StallsOf(job))
               == One(Held(s, job)) + CountSteps(cfg, s, steps, FetchesOf(job))
    decreases |steps|
  {
    hide Enabled, Apply, Made, Held, Fails, Stalls, Fetches;
    if steps != [] {
      StepMoves(cfg, s, steps[0], job);
      RunMoves(cfg, Apply(cfg, s, steps[0]), steps[1..], job);
    }
  }

  /** A job that can still run has attempts left, and only a job that used all of them gets the final handler. */
  ghost predicate AttemptsOk(s: State) {
    && (forall j :: j in s.jobs ==> JobAttemptsOk(s.jobs[j]))
    && (forall h :: h in s.onFailed ==> h.1 in s.jobs && Exhausted(s.jobs[h.1]))
  }

  predicate JobAttemptsOk(job: Job) {
    job.attemptsMade <= EVENTS_JOB_ATTEMPTS && (job.state != Failed ==> job.attemptsMade < EVENTS_JOB_ATTEMPTS)
  }

  predicate Exhausted(job: Job) { job.state == Failed && job.attemptsMade == EVENTS_JOB_ATTEMPTS }

  lemma StepKeepsAttempts(cfg: Config, s: State, step: Step)
    requires AttemptsOk(s) && Enabled(cfg, s, step)
    ensures AttemptsOk(Apply(cfg, s, step))
  {
    if step.Ack? {
      AckKeepsAttempts(s, step.call);
    } else if IsJobStep(step) {
      OneJobKeepsAttempts(cfg, s, step);
    } else {
      JobsUntouched(cfg, s, step);
    }
  }

  lemma OneJobKeepsAttempts(cfg: Config, s: State, step: Step)
    requires AttemptsOk(s) && Enabled(cfg, s, step) && IsJobStep(step) && !step.Ack?
    ensures AttemptsOk(Apply(cfg, s, step))
  {
    var t := Apply(cfg, s, step);
    assert t.onFailed == s.onFailed;
    forall h | h in t.onFailed ensures h.1 in t.jobs && Exhausted(t.jobs[h.1]) { assert Exhausted(s.jobs[h.1]); }
  }

  lemma AckKeepsAttempts(s: State, c: nat)
    requires AttemptsOk(s) && c in s.calls && s.calls[c].state.Returned? && s.calls[c].job in s.jobs
    ensures AttemptsOk(Acked(s, c)) && AttemptsOk(s.(calls := s.calls - {c}))
  {
    hide JobAfter;
    var job := s.jobs[s.calls[c].job];
    if job.state == Active(c) { AfterIsOk(job, s.calls[c].state.ok); }
  }

  lemma AfterIsOk(job: Job, ok: bool)
    requires JobAttemptsOk(job) && job.state != Failed
    ensures JobAttemptsOk(JobAfter(job, ok)) && (JobAfter(job, ok).state == Failed ==> Exhausted(JobAfter(job, ok)))
  {
  }

  lemma {:induction false} RunKeepsAttempts(cfg: Config, s: State, steps: seq<Step>)
    requires AttemptsOk(s) && Run(cfg, s, steps).Some?
    ensures AttemptsOk(Run(cfg, s, steps).value)
    decreases |steps|
  {
    if steps != [] {
      StepKeepsAttempts(cfg, s, steps[0]);
      RunKeepsAttempts(cfg, Apply(cfg, s, steps[0]), steps[1..]);
    }
  }

  /**
   * Over every run: the failed runs of a job are what `attemptsMade` counts, at most five; each
   * delivery either failed, stalled or is the one that still runs or completed the job, so there are
   * at most five plus the stalls; and the final-failure handler, which writes the
   * `attempts-exhausted` entry, is only ever due for a failed job that used all five.
   */
  lemma RetriesAreBounded(cfg: Config, steps: seq<Step>, job: nat)
    requires Run(cfg, Init(), steps).Some?
    ensures var s := Run(cfg, Init(), steps).value;
            var failures := CountSteps(cfg, Init(), steps, FailuresOf(job));
            var stalls := CountSteps(cfg, Init(), steps, StallsOf(job));
            var deliveries := CountSteps(cfg, Init(), steps, FetchesOf(job));
            && failures == Made(s, job) <= EVENTS_JOB_ATTEMPTS
            && deliveries == failures + stalls + One(Held(s, job)) <= EVENTS_JOB_ATTEMPTS + stalls
            && (forall h :: h in s.onFailed ==>
                  h.1 in s.jobs && s.jobs[h.1].state == Failed && s.jobs[h.1].attemptsMade == EVENTS_JOB_ATTEMPTS)
  {
    hide Enabled, Apply;
    RunKeepsAttempts(cfg, Init(), steps);
    RunMoves(cfg, Init(), steps, job);
    var s := Run(cfg, Init(), steps).value;
    assert job in s.jobs ==> JobAttemptsOk(s.jobs[job]);
  }

  // ---------------------------------------------------------------------------------------------
  // Nothing but stalls bounds the deliveries
  // ---------------------------------------------------------------------------------------------

  /** Fetch a job, be killed, lose the lock. */
  function Round(): seq<Step> { [Fetch(0, 0, 0), Kill(0), Stall(0, false)] }

  function Rounds(n: nat): seq<Step> {
    if n == 0 then [] else Round() + Rounds(n - 1)
  }

  /** One waiting job and nothing else. */
  function OneJob(data: JobData): State {
    Init().(jobs := map[0 := Job(data, Waiting, 0)])
  }

  lemma RoundReturns(cfg: Config, data: JobData)
    requires cfg.concurrency > 0
    ensures Run(cfg, OneJob(data), Round()) == Some(OneJob(data))
    ensures CountSteps(cfg, OneJob(data), Round(), FetchesOf(0)) == 1
  {
    hide Enabled, Apply;
    var s, job := OneJob(data), Job(data, Active(0), 0);
    var t := s.(jobs := map[0 := job], calls := map[0 := Call(0, 0, data, Fetched)]);
    var u := s.(jobs := map[0 := job]);
    FetchRound(cfg, data);
    KillRound(cfg, data);
    StallRound(cfg, data);
    var steps := Round();
    assert steps[1..][1..] == [steps[2]] && [steps[2]][1..] == [];
    assert Run(cfg, s, []) == Some(s) && Run(cfg, u, [steps[2]]) == Some(s) && Run(cfg, t, steps[1..]) == Some(s);
    assert CountSteps(cfg, s, [], FetchesOf(0)) == 0 && CountSteps(cfg, u, [steps[2]], FetchesOf(0)) == 0;
    assert CountSteps(cfg, t, steps[1..], FetchesOf(0)) == 0;
  }

  lemma FetchRound(cfg: Config, data: JobData)
    requires cfg.concurrency > 0
    ensures Enabled(cfg, OneJob(data), Fetch(0, 0, 0))
    ensures Apply(cfg, OneJob(data), Fetch(0, 0, 0)) ==
            OneJob(data).(jobs := map[0 := Job(data, Active(0), 0)], calls := map[0 := Call(0, 0, data, Fetched)])
  {
    assert CallsOf(OneJob(data).calls, 0) == {};
  }

  lemma KillRound(cfg: Config, data: JobData)
    ensures var t := OneJob(data).(jobs := map[0 := Job(data, Active(0), 0)],
      calls := map[0 := Call(0, 0, data, Fetched)]);
            Enabled(cfg, t, Kill(0)) && Apply(cfg, t, Kill(0))
              == OneJob(data).(jobs := map[0 := Job(data, Active(0), 0)])
  {
    var t := OneJob(data).(jobs := map[0 := Job(data, Active(0), 0)], calls := map[0 := Call(0, 0, data, Fetched)]);
    assert InFlightWrites(t, 0) == {};
    assert Killed(t, 0).late == multiset{};
  }

  lemma StallRound(cfg: Config, data: JobData)
    ensures var u := OneJob(data).(jobs := map[0 := Job(data, Active(0), 0)]);
            Enabled(cfg, u, Stall(0, false)) && Apply(cfg, u, Stall(0, false)) == OneJob(data)
  {
  }

  lemma {:induction false} CountJoins(cfg: Config, s: State, a: seq<Step>, b: seq<Step>, kind: Kind)
    requires Run(cfg, s, a).Some? && Run(cfg, Run(cfg, s, a).value, b).Some?
    ensures Run(cfg, s, a + b) == Run(cfg, Run(cfg, s, a).value, b)
    ensures CountSteps(cfg, s, a + b, kind) == CountSteps(cfg, s, a, kind)
      + CountSteps(cfg, Run(cfg, s, a).value, b, kind)
    decreases |a|
  {
    hide Enabled, Apply;
    PipelineTheorems.RunJoins(cfg, s, a, b);
    if a == [] {
      assert a + b == b;
    } else {
      assert (a + b)[1..] == a[1..] + b;
      CountJoins(cfg, Apply(cfg, s, a[0]), a[1..], b, kind);
    }
  }

  lemma {:induction false} RoundsReturn(cfg: Config, data: JobData, n: nat)
    requires cfg.concurrency > 0
    ensures Run(cfg, OneJob(data), Rounds(n)) == Some(OneJob(data))
    ensures CountSteps(cfg, OneJob(data), Rounds(n), FetchesOf(0)) == n
  {
    hide Enabled, Apply, Round;
    if n > 0 {
      RoundReturns(cfg, data);
      RoundsReturn(cfg, data, n - 1);
      CountJoins(cfg, OneJob(data), Round(), Rounds(n - 1), FetchesOf(0));
    }
  }

  /** For every number there is a run that delivers a job that often without one failed attempt. */
  lemma StalledJobsComeBackForEver(cfg: Config, n: nat)
    requires cfg.concurrency > 0
    ensures exists steps ::
      && Run(cfg, Init(), steps).Some?
      && CountSteps(cfg, Init(), steps, FetchesOf(0)) == n && Made(Run(cfg, Init(), steps).value, 0) == 0
  {
    var data := Malformed("");
    var first := [Enqueue(0, data)];
    var s := Apply(cfg, Init(), first[0]);
    assert s == OneJob(data) && first[1..] == [];
    assert Run(cfg, s, []) == Some(s) && CountSteps(cfg, s, [], FetchesOf(0)) == 0;
    RoundsReturn(cfg, data, n);
    CountJoins(cfg, Init(), first, Rounds(n), FetchesOf(0));
    assert CountSteps(cfg, Init(), first + Rounds(n), FetchesOf(0)) == n;
  }
}
