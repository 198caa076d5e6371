/**
 * The worker's event pipeline as one state and its steps: the queue, any number of worker
 * processes with their in-memory batches and running flushes, R2, the events table and the
 * dead-letter queue (apps/worker/src/consumer/events.consumer.ts, apps/worker/src/batch/,
 * apps/worker/src/consumer/shutdown.ts, apps/worker/src/app.module.ts).
 *
 * A step is what happens between two points where the code awaits something, so steps of different
 * calls interleave freely. Every store may answer with an error at any time, and a write reported
 * as failed may have happened, may still happen later, or not at all; the same holds for writes in
 * flight when a process is killed. The queue delivers at least once: an active job whose lock
 * expires goes back to waiting even while its old call still runs.
 */
module Pipeline {
  import opened Prelude
  import opened ClassifyFlushError
  import opened EventsTable
  import opened R2Retry
  import opened SplitRetryTheorems
  import opened SplitMachine
  import opened Accumulator
  import opened Flush
  import opened FlushTheorems

  /** `Malformed` is job data that the event schema rejects. */
  datatype JobData = Decoded(event: CaptureEvent) | Malformed(raw: string)

  /** `Active` names the call whose lock the job is under. Delayed retries count as waiting. */
  datatype JobState = Waiting | Active(call: nat) | Completed | Failed

  datatype Job = Job(data: JobData, state: JobState, attemptsMade: nat)

  /** How far one `process()` call has come. */
  datatype CallState =
    | Fetched               // the lock is taken, `process()` has not been entered
    | Awaiting(base: string) // handed to `add()`; awaits the batch with this id
    | Routing               // malformed; the dead-letter write is under way
    | Settled(ok: bool)     // what it awaited is settled
    | Returned(ok: bool)    // `process()` has returned; the queue is not told yet

  datatype Call = Call(pid: nat, job: nat, data: JobData, state: CallState)

  /** Where the flush of one detached batch stands. */
  datatype Phase =
    | Selecting
    | Putting(logged: seq<LoggedEvent>, tries: nat)
    | GivenUp
    | Inserting(logged: seq<LoggedEvent>)
    | SendingPoison(sent: nat)
    | Done(ok: bool)

  datatype Task = Task(pid: nat, waiters: seq<nat>, progress: Progress<CaptureEvent>, phase: Phase)

  datatype Write =
    | Put(key: string, logged: seq<LoggedEvent>)
    | Insert(logged: seq<LoggedEvent>)
    | Send(entry: DlqEntry)

  /** A write that may still land: reported as failed to its issuer, or in flight when that was killed. */
  datatype Straggler =
    | Unconfirmed(write: Write)
    | OfTask(base: string, write: Write)
    | OfCall(call: nat, write: Write)
    | OfHandler(job: nat, write: Write)

  /** A failed write has happened, will perhaps happen, or never happens. */
  datatype Fate = Applied | Late | Lost
  datatype Answer<E> = Good | Bad(error: E, fate: Fate)

  type OpenEvents = OpenBatch<CaptureEvent, nat>

  /**
   * `batches` records every batch ever detached, `minted` every batch id ever opened, `swept` what
   * the retention sweep removed from the dead-letter queue, `late` the writes that may still land,
   * `onFailed` the final-failure handlers that have not run yet.
   */
  datatype State = State(
    jobs: map<nat, Job>, calls: map<nat, Call>, open: map<nat, OpenEvents>, tasks: map<string, Task>,
    batches: map<string, seq<CaptureEvent>>, minted: set<string>, paused: set<nat>, onFailed: set<(nat, nat)>,
    stores: Stores, swept: seq<DlqEntry>, late: multiset<Straggler>)

  datatype Config = Config(batchSize: nat, concurrency: nat, enrich: Enrich)

  const EVENTS_JOB_ATTEMPTS: nat := 5

  datatype Step =
    | Enqueue(job: nat, data: JobData)
    | Fetch(pid: nat, job: nat, call: nat)
    | Process(call: nat, freshId: string)
    | Trigger(pid: nat)
    | Selected(base: string, found: map<string, LinkRow>)
    | SelectFailed(base: string, error: Thrown)
    | PutAnswered(base: string, put: Answer<R2Error>)
    | Answered(base: string, answer: Answer<Thrown>)
    | Settle(base: string)
    | Route(call: nat, answer: Answer<Thrown>)
    | Return(call: nat)
    | Ack(call: nat, reached: bool)
    | NotifyFailed(pid: nat, job: nat, answer: Answer<Thrown>)
    | Pause(pid: nat)
    | Kill(pid: nat)
    | Stall(job: nat, fail: bool)
    | Sweep(count: nat)
    | Land(straggler: Straggler)

  function Init(): State {
    State(map[], map[], map[], map[], map[], {}, {}, {}, Stores(map[], map[], []), [], multiset{})
  }

  function CallsOf(calls: map<nat, Call>, pid: nat): set<nat> {
    set c | c in calls && calls[c].pid == pid
  }

  // ---------------------------------------------------------------------------------------------
  // Writes
  // ---------------------------------------------------------------------------------------------

  function Perform(s: Stores, w: Write): Stores {
    match w
    case Put(key, logged) => s.(r2 := s.r2[key := logged])
    case Insert(logged) => s.(table := InsertAll(s.table, RowsOf(logged)))
    case Send(entry) => s.(dlq := s.dlq + [entry])
  }

  function AfterWrite<E>(s: State, w: Write, a: Answer<E>): State {
    if a.Good? || a.fate == Applied then s.(stores := Perform(s.stores, w))
    else if a.fate == Late then s.(late := s.late + multiset{Unconfirmed(w)})
    else s
  }

  // ---------------------------------------------------------------------------------------------
  // One flush
  // ---------------------------------------------------------------------------------------------

  /** The write that a flush has in flight. */
  function WriteOf(base: string, batch: seq<CaptureEvent>, t: Task): Option<Write> {
    match t.phase
    case Putting(logged, _) =>
      if t.progress.stack == [] || SubBatch(batch, t.progress.stack[0]) == [] then None
      else Some(Put(NodeKey(base, batch, t.progress.stack[0]), logged))
    case GivenUp =>
      if t.progress.stack == [] then None else Some(Send(R2PutFailed(SubBatch(batch, t.progress.stack[0]))))
    case Inserting(logged) => Some(Insert(logged))
    case SendingPoison(sent) =>
      if sent < |t.progress.poison| then Some(Send(FlushPoison(t.progress.poison[sent]))) else None
    case _ => None
  }

  /** On to the next sub-batch, or to the poison when all are done. */
  function Onward(t: Task, p: Progress<CaptureEvent>): (u: Task)
    ensures u.pid == t.pid && u.waiters == t.waiters
  {
    t.(progress := p, phase := if p.stack != [] then Selecting else if p.poison != [] then SendingPoison(0)
      else Done(true))
  }

  function FlushBatchFailed(batch: seq<CaptureEvent>, t: Task, error: Thrown): (u: Task)
    ensures u.pid == t.pid && u.waiters == t.waiters
  {
    if t.progress.stack == [] then t.(phase := Done(false))
    else
      match Fail(SPLIT_RETRY_MAX_ATTEMPTS_PER_BATCH, batch, t.progress, Classify(error))
      case None => t.(phase := Done(false))
      case Some(p) => Onward(t, p)
  }

  function AfterSelect(cfg: Config, batch: seq<CaptureEvent>, t: Task, found: map<string, LinkRow>): (u: Task)
    requires t.progress.stack != []
    ensures u.pid == t.pid && u.waiters == t.waiters
  {
    t.(phase := Putting(LoggedBy(cfg.enrich, found, SubBatch(batch, t.progress.stack[0])), 1))
  }

  function AfterPut(t: Task, a: Answer<R2Error>): (u: Task)
    requires t.phase.Putting?
    ensures u.pid == t.pid && u.waiters == t.waiters
  {
    match a
    case Good => t.(phase := Inserting(t.phase.logged))
    case Bad(error, _) =>
      if ClassifyR2Error(error) == Retryable && t.phase.tries < R2_MAX_ATTEMPTS
      then t.(phase := Putting(t.phase.logged, t.phase.tries + 1))
      else t.(phase := GivenUp)
  }

  function AfterAnswer(batch: seq<CaptureEvent>, t: Task, a: Answer<Thrown>): (u: Task)
    requires t.phase.GivenUp? || t.phase.Inserting? ==> t.progress.stack != []
    ensures u.pid == t.pid && u.waiters == t.waiters
  {
    match t.phase
    case SendingPoison(sent) =>
      if a.Bad? then t.(phase := Done(false))
      else if sent + 1 < |t.progress.poison| then t.(phase := SendingPoison(sent + 1))
      else t.(phase := Done(true))
    case GivenUp => if a.Good? then Onward(t, Succeed(t.progress)) else FlushBatchFailed(batch, t, a.error)
    case Inserting(_) => if a.Good? then Onward(t, Succeed(t.progress)) else FlushBatchFailed(batch, t, a.error)
    case _ => t
  }

  // ---------------------------------------------------------------------------------------------
  // The steps
  // ---------------------------------------------------------------------------------------------

  predicate TaskAt(s: State, base: string) { base in s.tasks && base in s.batches }

  predicate Enabled(cfg: Config, s: State, step: Step) {
    match step
    case Enqueue(job, data) => job !in s.jobs
    case Fetch(pid, job, call) =>
      && job in s.jobs && s.jobs[job].state == Waiting && pid !in s.paused
      && call !in s.calls && |CallsOf(s.calls, pid)| < cfg.concurrency
    case Process(call, freshId) =>
      && call in s.calls && s.calls[call].state == Fetched
      && (s.calls[call].data.Decoded? && s.calls[call].pid !in s.open ==> PlainId(freshId) && freshId !in s.minted)
    case Trigger(pid) => pid in s.open
    case Selected(base, _) => TaskAt(s, base) && s.tasks[base].phase == Selecting && s.tasks[base].progress.stack != []
    case SelectFailed(base, _) => TaskAt(s, base) && s.tasks[base].phase == Selecting
    case PutAnswered(base, _) =>
      TaskAt(s, base) && s.tasks[base].phase.Putting? && WriteOf(base, s.batches[base], s.tasks[base]).Some?
    case Answered(base, _) =>
      && TaskAt(s, base) && WriteOf(base, s.batches[base], s.tasks[base]).Some?
      && (s.tasks[base].phase.GivenUp? || s.tasks[base].phase.SendingPoison?
          || (s.tasks[base].phase.Inserting? && s.tasks[base].progress.stack != []))
    case Settle(base) => base in s.tasks && s.tasks[base].phase.Done?
    case Route(call, _) => call in s.calls && s.calls[call].state == Routing && s.calls[call].data.Malformed?
    case Return(call) => call in s.calls && s.calls[call].state.Settled?
    case Ack(call, _) => call in s.calls && s.calls[call].state.Returned? && s.calls[call].job in s.jobs
    case NotifyFailed(pid, job, _) => (pid, job) in s.onFailed && job in s.jobs
    case Pause(pid) => true
    case Kill(pid) => true
    case Stall(job, _) => job in s.jobs && s.jobs[job].state.Active?
    case Sweep(count) => count <= |s.stores.dlq|
    case Land(straggler) => straggler in s.late
  }

  /** `triggerFlush`: the open batch becomes a running flush. */
  function DetachOpen(s: State, pid: nat, b: OpenEvents): State {
    s.(open := s.open - {pid},
       batches := s.batches[b.batchId := b.events],
       tasks := s.tasks[b.batchId := Task(pid, b.waiters, Start(), Selecting)])
  }

  /** `process()` up to its first await: decode, then either the dead-letter write or `add()`. */
  function Processed(cfg: Config, s: State, c: nat, freshId: string): State
    requires c in s.calls
  {
    var call := s.calls[c];
    match call.data
    case Malformed(_) => s.(calls := s.calls[c := call.(state := Routing)])
    case Decoded(event) =>
      var current := if call.pid in s.open then Some(s.open[call.pid]) else None;
      var b := Join(current, freshId, event, c);
      var next := s.(calls := s.calls[c := call.(state := Awaiting(b.batchId))], minted := s.minted + {b.batchId});
      if Full(b, cfg.batchSize) then DetachOpen(next, call.pid, b) else next.(open := next.open[call.pid := b])
  }

  function SettleWaiters(calls: map<nat, Call>, waiters: seq<nat>, ok: bool): map<nat, Call> {
    map c | c in calls :: if c in waiters then calls[c].(state := Settled(ok)) else calls[c]
  }

  /** What becomes of a job whose call ended well or badly. */
  function JobAfter(job: Job, ok: bool): Job {
    if ok then job.(state := Completed)
    else if job.attemptsMade + 1 < EVENTS_JOB_ATTEMPTS then job.(state := Waiting, attemptsMade := job.attemptsMade + 1)
    else job.(state := Failed, attemptsMade := job.attemptsMade + 1)
  }

  /** The queue learns how a call ended; a call that lost its lock changes nothing. */
  function Acked(s: State, c: nat): State
    requires c in s.calls && s.calls[c].state.Returned? && s.calls[c].job in s.jobs
  {
    var call := s.calls[c];
    var rest := s.(calls := s.calls - {c});
    if s.jobs[call.job].state != Active(c) then rest
    else
      var after := JobAfter(s.jobs[call.job], call.state.ok);
      rest.(jobs := s.jobs[call.job := after],
            onFailed := if after.state == Failed then s.onFailed + {(call.pid, call.job)} else s.onFailed)
  }

  /** The entry that the final-failure handler writes. */
  function FinalEntry(data: JobData): DlqEntry {
    match data
    case Decoded(event) => AttemptsExhausted(event)
    case Malformed(raw) => SchemaValidationFailed(raw)
  }

  /** The writes of one process that are in flight. */
  function InFlightWrites(s: State, pid: nat): set<Straggler> {
    (set base | base in s.tasks && base in s.batches && s.tasks[base].pid == pid
                && WriteOf(base, s.batches[base], s.tasks[base]).Some? ::
                  OfTask(base, WriteOf(base, s.batches[base], s.tasks[base]).value))
    + (set c | c in s.calls && s.calls[c].pid == pid && s.calls[c].state.Routing? && s.calls[c].data.Malformed?
         :: OfCall(c, Send(SchemaValidationFailed(s.calls[c].data.raw))))
    + (set h | h in s.onFailed && h.0 == pid && h.1 in s.jobs :: OfHandler(h.1, Send(FinalEntry(s.jobs[h.1].data))))
  }

  /** SIGKILL: memory is gone. Jobs stay active until their locks expire. */
  function Killed(s: State, pid: nat): State {
    s.(calls := (map c | c in s.calls && s.calls[c].pid != pid :: s.calls[c]),
       open := s.open - {pid},
       tasks := (map base | base in s.tasks && s.tasks[base].pid != pid :: s.tasks[base]),
       paused := s.paused - {pid},
       onFailed := (set h | h in s.onFailed && h.0 != pid),
       late := s.late + multiset(InFlightWrites(s, pid)))
  }

  function SetTask(s: State, base: string, t: Task): State { s.(tasks := s.tasks[base := t]) }

  function Apply(cfg: Config, s: State, step: Step): State
    requires Enabled(cfg, s, step)
  {
    match step
    case Enqueue(job, data) => s.(jobs := s.jobs[job := Job(data, Waiting, 0)])
    case Fetch(pid, job, call) =>
      s.(jobs := s.jobs[job := s.jobs[job].(state := Active(call))],
         calls := s.calls[call := Call(pid, job, s.jobs[job].data, Fetched)])
    case Process(call, freshId) => Processed(cfg, s, call, freshId)
    case Trigger(pid) => DetachOpen(s, pid, s.open[pid])
    case Selected(base, found) => SetTask(s, base, AfterSelect(cfg, s.batches[base], s.tasks[base], found))
    case SelectFailed(base, error) => SetTask(s, base, FlushBatchFailed(s.batches[base], s.tasks[base], error))
    case PutAnswered(base, a) =>
      SetTask(AfterWrite(s, WriteOf(base, s.batches[base], s.tasks[base]).value, a), base, AfterPut(s.tasks[base], a))
    case Answered(base, a) =>
      SetTask(AfterWrite(s, WriteOf(base, s.batches[base], s.tasks[base]).value, a), base,
              AfterAnswer(s.batches[base], s.tasks[base], a))
    case Settle(base) =>
      s.(calls := SettleWaiters(s.calls, s.tasks[base].waiters, s.tasks[base].phase.ok), tasks := s.tasks - {base})
    case Route(call, a) =>
      AfterWrite(s, Send(SchemaValidationFailed(s.calls[call].data.raw)), a)
        .(calls := s.calls[call := s.calls[call].(state := Settled(a.Good?))])
    case Return(call) => s.(calls := s.calls[call := s.calls[call].(state := Returned(s.calls[call].state.ok))])
    case Ack(call, reached) => if reached then Acked(s, call) else s.(calls := s.calls - {call})
    case NotifyFailed(pid, job, a) =>
      AfterWrite(s, Send(FinalEntry(s.jobs[job].data)), a).(onFailed := s.onFailed - {(pid, job)})
    case Pause(pid) => s.(paused := s.paused + {pid})
    case Kill(pid) => Killed(s, pid)
    case Stall(job, fail) => s.(jobs := s.jobs[job := s.jobs[job].(state := if fail then Failed else Waiting)])
    case Sweep(count) => s.(stores := s.stores.(dlq := s.stores.dlq[count..]), swept := s.swept + s.stores.dlq[..count])
    case Land(straggler) =>
      s.(stores := Perform(s.stores, straggler.write), late := s.late - multiset{straggler})
  }

  /** The state after a whole run; `None` when some step is not enabled where it stands. */
  function Run(cfg: Config, s: State, steps: seq<Step>): Option<State>
    decreases |steps|
  {
    if steps == [] then Some(s)
    else if !Enabled(cfg, s, steps[0]) then None
    else Run(cfg, Apply(cfg, s, steps[0]), steps[1..])
  }

  /** A kind of step, as seen from the state before it. */
  type Kind = (State, Step) -> bool

  /** How many steps of the run are of this kind. */
  function CountSteps(cfg: Config, s: State, steps: seq<Step>, kind: Kind): nat
    requires Run(cfg, s, steps).Some?
    decreases |steps|
  {
    if steps == [] then 0
    else (if kind(s, steps[0]) then 1 else 0) + CountSteps(cfg, Apply(cfg, s, steps[0]), steps[1..], kind)
  }
}
