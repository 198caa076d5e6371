/**
 * How much a paused worker process can still do. Each of its own steps lowers a natural number,
 * whatever the stores answer, and while a call is in flight one of its own steps is possible.
 */
module DrainMeasure {
  import opened Prelude
  import opened Sums
  import opened ClassifyFlushError
  import opened R2Retry
  import SplitRetry
  import opened SplitRetryTheorems
  import SplitMachine
  import Accumulator
  import opened Flush
  import FlushTheorems
  import opened Pipeline
  import opened PipelineInvariant
  import opened PipelineSteps

  // ---------------------------------------------------------------------------------------------
  // Flushes
  // ---------------------------------------------------------------------------------------------

  /** Steps one attempt at a sub-batch takes at most: a SELECT, five PUTs, and an INSERT or a queue write. */
  const ATTEMPT: nat := 8

  function LeftInAttempt(phase: Phase): nat {
    match phase
    case Selecting => ATTEMPT
    case Putting(_, tries) => if tries < ATTEMPT then ATTEMPT - tries else 0
    case _ => 2
  }

  /** Steps the whole split tree of `n` events takes at most, with the poison it may yield. */
  function TreeWork(n: nat): nat
    requires n > 0
  {
    3 * ATTEMPT * (2 * n - 1) + 2 * n
  }

  function SizeAt(batch: seq<CaptureEvent>, path: seq<bool>): nat { |SubBatch(batch, path)| }

  function StackWork(batch: seq<CaptureEvent>, stack: seq<seq<bool>>): nat {
    if stack == [] then 0
    else (if SizeAt(batch, stack[0]) == 0 then 0 else TreeWork(SizeAt(batch, stack[0]))) + StackWork(batch, stack[1..])
  }

  /** What is left of the work on the sub-batch on top of the stack. */
  function HeadWork(n: nat, attempt: nat, phase: Phase): int
  {
    (if n == 0 then 0 else TreeWork(n)) - 3 * ATTEMPT + (3 - attempt) * ATTEMPT + LeftInAttempt(phase)
  }

  function WorkLeft(batch: seq<CaptureEvent>, t: Task): int {
    var p := t.progress;
    match t.phase
    case Done(_) => 1
    case SendingPoison(sent) => 1 + |p.poison| - sent
    case _ =>
      1 + |p.poison|
      + (if p.stack == [] then 0
        else HeadWork(SizeAt(batch, p.stack[0]), p.attempt, t.phase) + StackWork(batch, p.stack[1..]))
  }

  lemma HeadWorkBounds(n: nat, attempt: nat, phase: Phase)
    requires n > 0 && 1 <= attempt <= 3 && !phase.Done? && !phase.SendingPoison?
    requires phase.Putting? ==> 1 <= phase.tries <= R2_MAX_ATTEMPTS
    ensures HeadWork(n, attempt, phase) >= TreeWork(n) - 3 * ATTEMPT + 2 >= 4
    ensures HeadWork(n, 1, Selecting) == TreeWork(n)
  {
  }

  /** Moving on with the rest of the stack costs what the rest costs. */
  lemma OnwardWork(batch: seq<CaptureEvent>, t: Task, p: SplitMachine.Progress<CaptureEvent>)
    requires ProgressOk(batch, p) && p.attempt == 1
    ensures WorkLeft(batch, Onward(t, p)) <= 1 + |p.poison| + StackWork(batch, p.stack)
  {
  }

  lemma HalvesWork(n: nat)
    requires n > 1
    ensures SplitRetry.Mid(n) > 0 && n - SplitRetry.Mid(n) > 0
    ensures TreeWork(SplitRetry.Mid(n)) + TreeWork(n - SplitRetry.Mid(n)) == TreeWork(n) - 3 * ATTEMPT
  {
  }

  /** A failed attempt leaves strictly less to do: one attempt fewer, or two halves instead of the whole. */
  lemma FailWork(batch: seq<CaptureEvent>, t: Task, error: Thrown)
    requires ProgressOk(batch, t.progress) && t.progress.stack != []
    requires t.phase == Selecting || t.phase.GivenUp? || t.phase.Inserting?
    ensures WorkLeft(batch, FlushBatchFailed(batch, t, error)) < WorkLeft(batch, t)
  {
    var p := t.progress;
    var path, rest := p.stack[0], p.stack[1..];
    var n := SizeAt(batch, path);
    assert n > 0;
    HeadWorkBounds(n, p.attempt, t.phase);
    var q := SplitMachine.Fail(SPLIT_RETRY_MAX_ATTEMPTS_PER_BATCH, batch, p, Classify(error));
    if p.attempt < SPLIT_RETRY_MAX_ATTEMPTS_PER_BATCH {
      RetryWork(batch, t);
    } else if q.Some? {
      FailOk(batch, p, Classify(error));
      OnwardWork(batch, t, q.value);
      hide HeadWork, TreeWork, Classify, Onward;
      if n > 1 { SplitWork(batch, path, rest); }
    }
  }

  /** The two halves on the stack cost what the whole costs without its own attempts. */
  lemma SplitWork(batch: seq<CaptureEvent>, path: seq<bool>, rest: seq<seq<bool>>)
    requires SizeAt(batch, path) > 1
    ensures StackWork(batch, [path + [false], path + [true]] + rest) == TreeWork(SizeAt(batch, path)) - 3 * ATTEMPT
      + StackWork(batch, rest)
  {
    OneLevelDown("", batch, path, false);
    OneLevelDown("", batch, path, true);
    HalvesWork(SizeAt(batch, path));
    hide SubBatch, TreeWork;
    var stack := [path + [false], path + [true]] + rest;
    assert stack[1..] == [path + [true]] + rest && stack[1..][1..] == rest;
  }

  lemma RetryWork(batch: seq<CaptureEvent>, t: Task)
    requires t.progress.stack != [] && t.progress.attempt < 3
      && (t.phase == Selecting || t.phase.GivenUp? || t.phase.Inserting?)
    ensures WorkLeft(batch, Onward(t, t.progress.(attempt := t.progress.attempt + 1))) < WorkLeft(batch, t)
  {
  }

  lemma SucceedWork(batch: seq<CaptureEvent>, t: Task)
    requires ProgressOk(batch, t.progress) && t.progress.stack != [] && (t.phase.GivenUp? || t.phase.Inserting?)
    ensures WorkLeft(batch, Onward(t, SplitMachine.Succeed(t.progress))) < WorkLeft(batch, t)
  {
    var q := SplitMachine.Succeed(t.progress);
    HeadWorkBounds(SizeAt(batch, t.progress.stack[0]), t.progress.attempt, t.phase);
    assert forall i :: 0 <= i < |q.stack| ==> q.stack[i] == t.progress.stack[i + 1];
    OnwardWork(batch, t, q);
  }

  /** Every step of a flush leaves strictly less of it. */
  lemma FlushProgresses(cfg: Config, s: State, step: Step)
    requires Inv(s) && IsTaskStep(step) && Enabled(cfg, s, step)
    ensures WorkLeft(s.batches[step.base], TaskAfter(cfg, s, step)) < WorkLeft(s.batches[step.base], s.tasks[step.base])
  {
    hide Accounted, HeldBy, FlushTheorems.AllArchived, StoresOk;
    assert TaskOk(s, step.base);
    var batch, t := s.batches[step.base], s.tasks[step.base];
    match step
    case Selected(_, found) => SelectWork(cfg, batch, t, found);
    case SelectFailed(_, error) => FailWork(batch, t, error);
    case PutAnswered(_, a) => PutWork(batch, t, a);
    case Answered(_, a) =>
      if !t.phase.SendingPoison? {
        if a.Good? { SucceedWork(batch, t); } else { FailWork(batch, t, a.error); }
      }
  }

  lemma SelectWork(cfg: Config, batch: seq<CaptureEvent>, t: Task, found: map<string, LinkRow>)
    requires t.phase == Selecting && t.progress.stack != []
    ensures WorkLeft(batch, AfterSelect(cfg, batch, t, found)) < WorkLeft(batch, t)
  {
  }

  lemma PutWork(batch: seq<CaptureEvent>, t: Task, a: Answer<R2Error>)
    requires t.phase.Putting? && 1 <= t.phase.tries <= R2_MAX_ATTEMPTS && t.progress.stack != []
    ensures WorkLeft(batch, AfterPut(t, a)) < WorkLeft(batch, t)
  {
  }

  lemma WorkIsPositive(s: State, base: string)
    requires Inv(s) && base in s.tasks
    ensures base in s.batches && WorkLeft(s.batches[base], s.tasks[base]) >= 1
  {
    assert TaskOk(s, base);
    var p, phase := s.tasks[base].progress, s.tasks[base].phase;
    if p.stack != [] && !phase.Done? && !phase.SendingPoison? {
      HeadWorkBounds(SizeAt(s.batches[base], p.stack[0]), p.attempt, phase);
    }
  }

  // ---------------------------------------------------------------------------------------------
  // One process
  // ---------------------------------------------------------------------------------------------

  function CallWork(state: CallState): nat {
    match state
    case Fetched => 60
    case Awaiting(_) => 4
    case Routing => 4
    case Settled(_) => 3
    case Returned(_) => 2
  }

  function CallWorkAt(calls: map<nat, Call>): nat -> nat {
    c => if c in calls then CallWork(calls[c].state) else 0
  }

  function TaskWorkAt(batches: map<string, seq<CaptureEvent>>, tasks: map<string, Task>): string -> nat {
    b => if b in tasks && b in batches && WorkLeft(batches[b], tasks[b]) > 0 then WorkLeft(batches[b], tasks[b]) else 0
  }

  function TasksOf(tasks: map<string, Task>, pid: nat): set<string> {
    set b | b in tasks && tasks[b].pid == pid
  }

  function HandlersOf(onFailed: set<(nat, nat)>, pid: nat): set<(nat, nat)> {
    set h | h in onFailed && h.0 == pid
  }

  function OpenWork(open: map<nat, OpenEvents>, pid: nat): nat {
    if pid in open && open[pid].events != [] then 2 + TreeWork(|open[pid].events|) else 0
  }

  ghost function CallsWork(s: State, pid: nat): nat { SumOver(CallsOf(s.calls, pid), CallWorkAt(s.calls)) }
  ghost function TasksWork(s: State, pid: nat): nat { SumOver(TasksOf(s.tasks, pid), TaskWorkAt(s.batches, s.tasks)) }

  /** Steps the process can still take, at most. */
  ghost function Remaining(s: State, pid: nat): nat {
    CallsWork(s, pid) + TasksWork(s, pid) + OpenWork(s.open, pid) + |HandlersOf(s.onFailed, pid)|
  }

  /** The process that takes the step, for steps a process takes by itself once it fetches nothing. */
  function Owner(s: State, step: Step): Option<nat> {
    match step
    case Process(c, _) => if c in s.calls then Some(s.calls[c].pid) else None
    case Route(c, _) => if c in s.calls then Some(s.calls[c].pid) else None
    case Return(c) => if c in s.calls then Some(s.calls[c].pid) else None
    case Ack(c, _) => if c in s.calls then Some(s.calls[c].pid) else None
    case Trigger(pid) => Some(pid)
    case Selected(b, _) => if b in s.tasks then Some(s.tasks[b].pid) else None
    case SelectFailed(b, _) => if b in s.tasks then Some(s.tasks[b].pid) else None
    case PutAnswered(b, _) => if b in s.tasks then Some(s.tasks[b].pid) else None
    case Answered(b, _) => if b in s.tasks then Some(s.tasks[b].pid) else None
    case Settle(b) => if b in s.tasks then Some(s.tasks[b].pid) else None
    case NotifyFailed(pid, _, _) => Some(pid)
    case _ => None
  }

  // Effects on the sums -------------------------------------------------------------------------

  lemma CallMoves(s: State, t: State, c: nat, pid: nat)
    requires c in s.calls && c in t.calls && t.calls == s.calls[c := t.calls[c]]
      && t.calls[c].pid == s.calls[c].pid == pid
    ensures CallsWork(t, pid) + CallWork(s.calls[c].state) == CallsWork(s, pid) + CallWork(t.calls[c].state)
  {
    assert CallsOf(t.calls, pid) == CallsOf(s.calls, pid);
    SumChangesAt(CallsOf(s.calls, pid), CallWorkAt(s.calls), CallWorkAt(t.calls), c);
  }

  lemma CallLeaves(s: State, t: State, c: nat, pid: nat)
    requires c in s.calls && t.calls == s.calls - {c} && s.calls[c].pid == pid
    ensures CallsWork(t, pid) + CallWork(s.calls[c].state) == CallsWork(s, pid)
  {
    assert CallsOf(t.calls, pid) == CallsOf(s.calls, pid) - {c};
    SumWithout(CallsOf(s.calls, pid), CallWorkAt(s.calls), c);
    SumSame(CallsOf(t.calls, pid), CallWorkAt(s.calls), CallWorkAt(t.calls));
  }

  lemma CallsElsewhere(s: State, t: State, pid: nat)
    requires forall c :: (c in s.calls && s.calls[c].pid == pid) <==> (c in t.calls && t.calls[c].pid == pid)
    requires forall c :: c in s.calls && s.calls[c].pid == pid ==> t.calls[c] == s.calls[c]
    ensures CallsWork(t, pid) == CallsWork(s, pid)
  {
    assert CallsOf(t.calls, pid) == CallsOf(s.calls, pid);
    SumSame(CallsOf(s.calls, pid), CallWorkAt(s.calls), CallWorkAt(t.calls));
  }

  lemma TasksElsewhere(s: State, t: State, pid: nat)
    requires forall b :: (b in s.tasks && s.tasks[b].pid == pid) <==> (b in t.tasks && t.tasks[b].pid == pid)
    requires forall b :: b in s.tasks && s.tasks[b].pid == pid ==>
      t.tasks[b] == s.tasks[b] && b in s.batches && b in t.batches && t.batches[b] == s.batches[b]
    ensures TasksWork(t, pid) == TasksWork(s, pid)
  {
    assert TasksOf(t.tasks, pid) == TasksOf(s.tasks, pid);
    SumSame(TasksOf(s.tasks, pid), TaskWorkAt(s.batches, s.tasks), TaskWorkAt(t.batches, t.tasks));
  }

  // Steps of the process itself ------------------------------------------------------------------

  lemma FlushStepLowers(cfg: Config, s: State, step: Step, pid: nat)
    requires Inv(s) && IsTaskStep(step) && Enabled(cfg, s, step) && s.tasks[step.base].pid == pid
    ensures Remaining(Apply(cfg, s, step), pid) < Remaining(s, pid)
  {
    hide Inv, WorkLeft, TaskAfter;
    var t := Apply(cfg, s, step);
    TaskStepFrame(cfg, s, step);
    FlushProgresses(cfg, s, step);
    StepKeeps(cfg, s, step);
    hide Apply, Grows, CallsWork;
    CallsElsewhere(s, t, pid);
    WorkIsPositive(s, step.base);
    WorkIsPositive(t, step.base);
    TasksMove(s.batches, s.tasks, step.base, t.tasks[step.base]);
  }

  lemma OpenBatchIsNew(s: State, pid: nat)
    requires Inv(s) && pid in s.open
    ensures s.open[pid].events != [] && s.open[pid].batchId !in s.tasks && s.open[pid].batchId !in s.batches
    ensures forall base :: base in s.tasks ==> base in s.batches
  {
    assert OpenOk(s, pid);
    forall base | base in s.tasks ensures base in s.batches { assert TaskOk(s, base); }
    assert TaskOk(s, s.open[pid].batchId);
  }

  lemma DetachLowers(s: State, pid: nat)
    requires Inv(s) && pid in s.open
    ensures Remaining(DetachOpen(s, pid, s.open[pid]), pid) < Remaining(s, pid)
  {
    hide Inv, WorkLeft, TreeWork, CallsWork, TasksWork;
    OpenBatchIsNew(s, pid);
    CallsElsewhere(s, DetachOpen(s, pid, s.open[pid]), pid);
    DetachedTasksWork(s, pid);
  }

  /** The work of the new flush comes on top of that of the others. */
  lemma DetachedTasksWork(s: State, pid: nat)
    requires Inv(s) && pid in s.open
    ensures s.open[pid].events != []
    ensures TasksWork(DetachOpen(s, pid, s.open[pid]), pid) == TasksWork(s, pid) + 1 + TreeWork(|s.open[pid].events|)
  {
    hide Inv, WorkLeft, TreeWork;
    var b := s.open[pid];
    OpenBatchIsNew(s, pid);
    NewTaskWork(b);
    var t := DetachOpen(s, pid, b);
    TasksGain(s.batches, s.tasks, b.batchId, b.events, Task(pid, b.waiters, SplitMachine.Start(), Selecting));
  }

  /** One more flush, of a batch of its own. */
  lemma TasksGain(batches: map<string, seq<CaptureEvent>>, tasks: map<string, Task>, base: string,
      events: seq<CaptureEvent>, t: Task)
    requires base !in tasks && WorkLeft(events, t) > 0
    ensures SumOver(TasksOf(tasks[base := t], t.pid), TaskWorkAt(batches[base := events], tasks[base := t])) ==
            SumOver(TasksOf(tasks, t.pid), TaskWorkAt(batches, tasks)) + WorkLeft(events, t)
  {
    hide WorkLeft;
    var f, g := TaskWorkAt(batches, tasks), TaskWorkAt(batches[base := events], tasks[base := t]);
    assert TasksOf(tasks[base := t], t.pid) == TasksOf(tasks, t.pid) + {base};
    assert forall j :: j in TasksOf(tasks, t.pid) ==> f(j) == g(j);
    assert g(base) == WorkLeft(events, t);
    SumGains(TasksOf(tasks, t.pid), TasksOf(tasks[base := t], t.pid), f, g, base);
  }

  /** One flush less. */
  lemma TasksLose(batches: map<string, seq<CaptureEvent>>, tasks: map<string, Task>, base: string)
    requires base in tasks
    ensures var pid := tasks[base].pid;
            SumOver(TasksOf(tasks - {base}, pid), TaskWorkAt(batches, tasks - {base}))
              + TaskWorkAt(batches, tasks)(base) ==
            SumOver(TasksOf(tasks, pid), TaskWorkAt(batches, tasks))
  {
    hide WorkLeft;
    var pid := tasks[base].pid;
    var f, g := TaskWorkAt(batches, tasks), TaskWorkAt(batches, tasks - {base});
    assert TasksOf(tasks, pid) == TasksOf(tasks - {base}, pid) + {base};
    assert forall j :: j in TasksOf(tasks - {base}, pid) ==> g(j) == f(j);
    SumGains(TasksOf(tasks - {base}, pid), TasksOf(tasks, pid), g, f, base);
  }

  /** One flush goes on. */
  lemma TasksMove(batches: map<string, seq<CaptureEvent>>, tasks: map<string, Task>, base: string, t: Task)
    requires base in tasks && base in batches && t.pid == tasks[base].pid
    requires 0 < WorkLeft(batches[base], t) < WorkLeft(batches[base], tasks[base])
    ensures SumOver(TasksOf(tasks[base := t], t.pid), TaskWorkAt(batches, tasks[base := t])) <
            SumOver(TasksOf(tasks, t.pid), TaskWorkAt(batches, tasks))
  {
    hide WorkLeft;
    var f, g := TaskWorkAt(batches, tasks), TaskWorkAt(batches, tasks[base := t]);
    assert TasksOf(tasks[base := t], t.pid) == TasksOf(tasks, t.pid);
    SumChangesAt(TasksOf(tasks, t.pid), f, g, base);
  }

  lemma TasksHaveBatches(s: State)
    requires Inv(s)
    ensures forall b :: b in s.tasks ==> b in s.batches
  {
    forall b | b in s.tasks ensures b in s.batches { assert TaskOk(s, b); }
  }

  lemma NewTaskWork(b: OpenEvents)
    requires b.events != []
    ensures forall pid ::
      WorkLeft(b.events, Task(pid, b.waiters, SplitMachine.Start(), Selecting)) == 1 + TreeWork(|b.events|)
  {
    assert SubBatch(b.events, []) == b.events;
  }

  lemma JoinLowers(s: State, c: nat, freshId: string)
    requires Inv(s) && CanJoin(s, c, freshId)
    ensures Remaining(Joined(s, c, freshId), s.calls[c].pid) < Remaining(s, s.calls[c].pid)
  {
    hide Inv, CallsWork, TasksWork, TreeWork;
    var pid := s.calls[c].pid;
    var t := Joined(s, c, freshId);
    TasksHaveBatches(s);
    CallMoves(s, t, c, pid);
    TasksElsewhere(s, t, pid);
    JoinedOpenWork(s, c, freshId);
  }

  /** One more event in the open batch. */
  lemma JoinedOpenWork(s: State, c: nat, freshId: string)
    requires Inv(s) && CanJoin(s, c, freshId)
    ensures OpenWork(Joined(s, c, freshId).open, s.calls[c].pid) < OpenWork(s.open, s.calls[c].pid)
      + CallWork(Fetched) - CallWork(Awaiting(""))
  {
    assert OpenOk(s, s.calls[c].pid);
  }

  lemma ProcessLowers(cfg: Config, s: State, c: nat, freshId: string)
    requires Inv(s) && Enabled(cfg, s, Process(c, freshId))
    ensures Remaining(Processed(cfg, s, c, freshId), s.calls[c].pid) < Remaining(s, s.calls[c].pid)
  {
    hide Inv, Remaining;
    var pid := s.calls[c].pid;
    if s.calls[c].data.Malformed? {
      CallStepLowers(s, Processed(cfg, s, c, freshId), c, pid);
    } else {
      JoinLowers(s, c, freshId);
      ProcessIsJoin(cfg, s, c, freshId);
      var t := Joined(s, c, freshId);
      if Accumulator.Full(Grown(s, c, freshId), cfg.batchSize) {
        JoinKeeps(s, c, freshId);
        DetachLowers(t, pid);
      }
    }
  }

  lemma SettleLowers(s: State, base: string, pid: nat)
    requires Inv(s) && base in s.tasks && s.tasks[base].phase.Done? && s.tasks[base].pid == pid
    ensures var t := s.(calls := SettleWaiters(s.calls, s.tasks[base].waiters, s.tasks[base].phase.ok),
      tasks := s.tasks - {base});
            Remaining(t, pid) < Remaining(s, pid)
  {
    assert TaskOk(s, base);
    WaitersAreCalls(s.calls, pid, base, s.batches[base], s.tasks[base].waiters);
    DoneHasWork(s.batches, s.tasks, base);
    hide Inv, TaskOk, HeldBy, PhaseOk, ProgressOk, WorkLeft, TaskWorkAt;
    SettledCallsWork(s.calls, s.tasks[base].waiters, s.tasks[base].phase.ok, pid);
    TasksLose(s.batches, s.tasks, base);
  }

  lemma DoneHasWork(batches: map<string, seq<CaptureEvent>>, tasks: map<string, Task>, base: string)
    requires base in tasks && base in batches && tasks[base].phase.Done?
    ensures TaskWorkAt(batches, tasks)(base) > 0
  {
  }

  lemma SettledCallsWork(calls: map<nat, Call>, waiters: seq<nat>, ok: bool, pid: nat)
    requires forall w :: w in waiters ==> w in calls && calls[w].state.Awaiting?
    ensures SumOver(CallsOf(SettleWaiters(calls, waiters, ok), pid), CallWorkAt(SettleWaiters(calls, waiters, ok)))
            <= SumOver(CallsOf(calls, pid), CallWorkAt(calls))
  {
    var after := SettleWaiters(calls, waiters, ok);
    assert CallsOf(after, pid) == CallsOf(calls, pid);
    SumAtMost(CallsOf(calls, pid), CallWorkAt(after), CallWorkAt(calls));
  }

  lemma SameTasks(s: State, t: State, pid: nat)
    requires Inv(s) && t.tasks == s.tasks && t.batches == s.batches
    ensures TasksWork(t, pid) == TasksWork(s, pid)
  {
    hide Inv;
    TasksHaveBatches(s);
    TasksElsewhere(s, t, pid);
  }

  lemma AckedFrame(s: State, c: nat)
    requires c in s.calls && s.calls[c].state.Returned? && s.calls[c].job in s.jobs
    ensures var t := Acked(s, c);
            && t.calls == s.calls - {c} && t.tasks == s.tasks && t.batches == s.batches && t.open == s.open
            && (t.onFailed == s.onFailed || t.onFailed == s.onFailed + {(s.calls[c].pid, s.calls[c].job)})
  {
  }

  lemma AckLowers(s: State, t: State, c: nat, pid: nat)
    requires Inv(s) && c in s.calls && s.calls[c].state.Returned? && s.calls[c].pid == pid
    requires t.calls == s.calls - {c} && t.tasks == s.tasks && t.batches == s.batches && t.open == s.open
    requires t.onFailed == s.onFailed || t.onFailed == s.onFailed + {(pid, s.calls[c].job)}
    ensures Remaining(t, pid) < Remaining(s, pid)
  {
    hide Inv, CallsWork, TasksWork;
    CallLeaves(s, t, c, pid);
    SameTasks(s, t, pid);
    OneMoreHandler(s.onFailed, t.onFailed, pid, (pid, s.calls[c].job));
  }

  lemma OneMoreHandler(before: set<(nat, nat)>, after: set<(nat, nat)>, pid: nat, h: (nat, nat))
    requires after == before || after == before + {h}
    ensures |HandlersOf(after, pid)| <= |HandlersOf(before, pid)| + 1
  {
    if after == before + {h} && h.0 == pid {
      assert HandlersOf(after, pid) == HandlersOf(before, pid) + {h};
    } else {
      assert HandlersOf(after, pid) == HandlersOf(before, pid);
    }
  }

  lemma CallStepLowers(s: State, t: State, c: nat, pid: nat)
    requires Inv(s) && c in s.calls && s.calls[c].pid == pid && c in t.calls && t.calls == s.calls[c := t.calls[c]]
    requires t.calls[c].pid == pid && CallWork(t.calls[c].state) < CallWork(s.calls[c].state)
    requires t.tasks == s.tasks && t.batches == s.batches && t.open == s.open && t.onFailed == s.onFailed
    ensures Remaining(t, pid) < Remaining(s, pid)
  {
    hide Inv, CallsWork, TasksWork;
    CallMoves(s, t, c, pid);
    SameTasks(s, t, pid);
  }

  lemma NotifyLowers(s: State, t: State, h: (nat, nat))
    requires Inv(s) && h in s.onFailed && t.onFailed == s.onFailed - {h}
    requires t.calls == s.calls && t.tasks == s.tasks && t.batches == s.batches && t.open == s.open
    ensures Remaining(t, h.0) < Remaining(s, h.0)
  {
    hide Inv, CallsWork, TasksWork;
    CallsElsewhere(s, t, h.0);
    SameTasks(s, t, h.0);
    assert HandlersOf(t.onFailed, h.0) == HandlersOf(s.onFailed, h.0) - {h};
  }

  /** Every step that a process takes itself, other than a fetch, lowers what it can still do. */
  lemma OwnStepLowers(cfg: Config, s: State, step: Step, pid: nat)
    requires Inv(s) && Enabled(cfg, s, step) && Owner(s, step) == Some(pid)
    ensures Remaining(Apply(cfg, s, step), pid) < Remaining(s, pid)
  {
    hide Inv, Remaining, FlushBatchFailed, AfterPut, AfterAnswer, AfterSelect;
    if IsTaskStep(step) {
      FlushStepLowers(cfg, s, step, pid);
    } else {
      match step
      case Process(c, freshId) => ProcessLowers(cfg, s, c, freshId);
      case Trigger(p) => DetachLowers(s, p);
      case Settle(base) => SettleLowers(s, base, pid);
      case Route(c, a) =>
        AfterWriteFrame(s, Send(SchemaValidationFailed(s.calls[c].data.raw)), a);
        CallStepLowers(s, Apply(cfg, s, step), c, pid);
      case Return(c) => CallStepLowers(s, Apply(cfg, s, step), c, pid);
      case Ack(c, reached) =>
        AckedFrame(s, c);
        AckLowers(s, Apply(cfg, s, step), c, pid);
      case NotifyFailed(p, job, a) =>
        AfterWriteFrame(s, Send(FinalEntry(s.jobs[job].data)), a);
        NotifyLowers(s, Apply(cfg, s, step), (p, job));
    }
  }
}
