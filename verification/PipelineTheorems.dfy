/** What holds in every reachable state of the pipeline. */
module PipelineTheorems {
  import opened Prelude
  import opened EventsTable
  import Accumulator
  import opened Flush
  import opened FlushTheorems
  import opened Pipeline
  import opened PipelineInvariant
  import opened PipelineSteps

  lemma InitHolds()
    ensures Inv(Init())
  {
  }

  lemma {:induction false} RunKeeps(cfg: Config, s: State, steps: seq<Step>)
    requires Inv(s) && Run(cfg, s, steps).Some?
    ensures Inv(Run(cfg, s, steps).value) && Grows(s, Run(cfg, s, steps).value)
    decreases |steps|
  {
    if steps == [] {
      ExtendsSelf(Ever(s));
    } else {
      var t := Apply(cfg, s, steps[0]);
      StepKeeps(cfg, s, steps[0]);
      RunKeeps(cfg, t, steps[1..]);
      GrowsTransitive(s, t, Run(cfg, t, steps[1..]).value);
    }
  }

  lemma {:induction false} RunAppend(cfg: Config, s: State, a: seq<Step>, b: seq<Step>)
    requires Run(cfg, s, a + b).Some?
    ensures Run(cfg, s, a).Some? && Run(cfg, s, a + b) == Run(cfg, Run(cfg, s, a).value, b)
    decreases |a|
  {
    if a == [] {
      assert a + b == b;
    } else {
      assert (a + b)[1..] == a[1..] + b;
      RunAppend(cfg, Apply(cfg, s, a[0]), a[1..], b);
    }
  }

  /** An event that the queue accepted: still queued, or durable. */
  ghost predicate Accounts(s: State, job: nat, data: JobData) {
    && job in s.jobs && s.jobs[job].data == data
    && (s.jobs[job].state == Completed ==> SafelyStored(s, data))
  }

  /** In both stores, or in the dead-letter queue, or swept out of it after having been there. */
  ghost predicate SafelyStored(s: State, data: JobData) {
    match data
    case Decoded(e) =>
      || (Archived(s.stores, e) && e.Key() in s.stores.table)
      || InDlq(s.stores, e)
      || exists i :: 0 <= i < |s.swept| && s.swept[i].Holds(e)
    case Malformed(raw) => SchemaValidationFailed(raw) in s.stores.dlq || SchemaValidationFailed(raw) in s.swept
  }

  lemma StoredIsSafe(s: State, data: JobData)
    requires JobDurable(Ever(s), data)
    ensures SafelyStored(s, data)
  {
    if data.Decoded? {
      var e := data.event;
      if Archived(Ever(s), e) && e.Key() in Ever(s).table {
        var k, i :| k in Ever(s).r2 && 0 <= i < |Ever(s).r2[k]| && Ever(s).r2[k][i].event == e;
        assert s.stores.r2[k][i].event == e;
      } else {
        var i :| 0 <= i < |Ever(s).dlq| && Ever(s).dlq[i].Holds(e);
        if i < |s.swept| {
          assert s.swept[i].Holds(e);
        } else {
          assert s.stores.dlq[i - |s.swept|].Holds(e);
        }
      }
    }
  }

  /**
   * No event is lost. In every reachable state, under any interleaving, failures, redeliveries and
   * kills, every job ever enqueued is still in the queue with its data, or it is completed and then
   * its event is in both stores or has reached the dead-letter queue.
   */
  lemma NoEventIsLost(cfg: Config, steps: seq<Step>, i: nat)
    requires Run(cfg, Init(), steps).Some? && i < |steps| && steps[i].Enqueue?
    ensures Accounts(Run(cfg, Init(), steps).value, steps[i].job, steps[i].data)
  {
    InitHolds();
    var t := Run(cfg, Init(), steps).value;
    RunKeeps(cfg, Init(), steps);
    assert steps == steps[..i + 1] + steps[i + 1..] && steps[..i + 1] == steps[..i] + [steps[i]];
    RunAppend(cfg, Init(), steps[..i + 1], steps[i + 1..]);
    RunAppend(cfg, Init(), steps[..i], [steps[i]]);
    var before := Run(cfg, Init(), steps[..i]).value;
    var s := Run(cfg, Init(), steps[..i + 1]).value;
    JustEnqueued(cfg, before, steps[i], s);
    RunKeeps(cfg, Init(), steps[..i + 1]);
    RunKeeps(cfg, s, steps[i + 1..]);
    assert JobOk(t, steps[i].job);
    if t.jobs[steps[i].job].state == Completed { StoredIsSafe(t, steps[i].data); }
  }

  lemma JustEnqueued(cfg: Config, s: State, step: Step, t: State)
    requires step.Enqueue? && Run(cfg, s, [step]) == Some(t)
    ensures step.job in t.jobs && t.jobs[step.job].data == step.data
  {
    assert Run(cfg, Apply(cfg, s, step), []) == Some(Apply(cfg, s, step));
  }

  /**
   * R2 covers Postgres in every reachable state: every row is the projection, column by column, of an
   * event of some stored object, and stands under that event's key.
   */
  lemma R2CoversPostgres(cfg: Config, steps: seq<Step>)
    requires Run(cfg, Init(), steps).Some?
    ensures Covered(Run(cfg, Init(), steps).value.stores)
    ensures var stores := Run(cfg, Init(), steps).value.stores;
            forall key :: key in stores.table ==>
              exists k, i :: k in stores.r2 && 0 <= i < |stores.r2[k]| && key == stores.r2[k][i].event.Key()
                             && Projects(stores.table[key], stores.r2[k][i].event)
  {
    InitHolds();
    RunKeeps(cfg, Init(), steps);
    var t := Run(cfg, Init(), steps).value;
    ExtendsWithoutQueue(Ever(t), t.stores);
    forall key | key in t.stores.table
      ensures exists k, i :: k in t.stores.r2 && 0 <= i < |t.stores.r2[k]| && key == t.stores.r2[k][i].event.Key()
                             && Projects(t.stores.table[key], t.stores.r2[k][i].event)
    {
      var row := t.stores.table[key];
      assert RowArchived(t.stores, row);
      var k, i :| k in t.stores.r2 && 0 <= i < |t.stores.r2[k]|
                  && RowOf(t.stores.r2[k][i].event, row.enrichment) == row;
      assert Projects(row, t.stores.r2[k][i].event);
    }
  }

  lemma ExtendsWithoutQueue(s: Stores, t: Stores)
    requires Covered(s) && t.table == s.table && t.r2 == s.r2
    ensures Covered(t)
  {
    forall key | key in t.table ensures t.table[key].Key() == key && RowArchived(t, t.table[key]) {
      var k, i :| k in s.r2 && 0 <= i < |s.r2[k]| && RowOf(s.r2[k][i].event, s.table[key].enrichment) == s.table[key];
      assert RowOf(t.r2[k][i].event, t.table[key].enrichment) == t.table[key];
    }
  }

  /** The table and the archive only grow, and an object once stored keeps its list of events. */
  lemma StoresNeverShrink(cfg: Config, before: seq<Step>, after: seq<Step>)
    requires Run(cfg, Init(), before + after).Some?
    ensures Run(cfg, Init(), before).Some?
    ensures var s, t := Run(cfg, Init(), before).value.stores, Run(cfg, Init(), before + after).value.stores;
            && (forall key :: key in s.table ==> key in t.table && t.table[key] == s.table[key])
            && (forall k :: k in s.r2 ==> k in t.r2 && EventsOf(t.r2[k]) == EventsOf(s.r2[k]))
  {
    InitHolds();
    RunAppend(cfg, Init(), before, after);
    RunKeeps(cfg, Init(), before);
    RunKeeps(cfg, Run(cfg, Init(), before).value, after);
  }

  // ---------------------------------------------------------------------------------------------
  // Concurrency and the count trigger
  // ---------------------------------------------------------------------------------------------

  ghost predicate WithinConcurrency(cfg: Config, s: State) {
    forall pid :: |CallsOf(s.calls, pid)| <= cfg.concurrency
  }

  lemma NoNewCalls(calls: map<nat, Call>, after: map<nat, Call>, pid: nat)
    requires forall c :: c in after ==> c in calls && after[c].pid == calls[c].pid
    ensures |CallsOf(after, pid)| <= |CallsOf(calls, pid)|
  {
    SubsetSize(CallsOf(after, pid), CallsOf(calls, pid));
  }

  lemma {:induction false} SubsetSize<T>(a: set<T>, b: set<T>)
    requires a <= b
    ensures |a| <= |b|
  {
    if a != {} {
      var x :| x in a;
      SubsetSize(a - {x}, b - {x});
    }
  }

  predicate SameCallers(before: map<nat, Call>, after: map<nat, Call>) {
    forall c :: c in after ==> c in before && after[c].pid == before[c].pid
  }

  /** Only a fetch starts a call, and no step moves a call to another process. */
  lemma CallsStayPut(cfg: Config, s: State, step: Step)
    requires Enabled(cfg, s, step) && !step.Fetch?
    ensures SameCallers(s.calls, Apply(cfg, s, step).calls)
  {
    if IsTaskStep(step) {
      TaskStepFrame(cfg, s, step);
      hide Enabled, Apply;
    } else if step.Process? {
      ProcessedCallers(cfg, s, step.call, step.freshId);
    } else if step.Ack? || step.Settle? || step.Kill? || step.Return? || step.Route? {
      CallStepCallers(cfg, s, step);
    } else if step.NotifyFailed? {
      AfterWriteFrame(s, Send(FinalEntry(s.jobs[step.job].data)), step.answer);
    }
  }

  lemma ProcessedCallers(cfg: Config, s: State, c: nat, freshId: string)
    requires c in s.calls
    ensures SameCallers(s.calls, Processed(cfg, s, c, freshId).calls)
  {
    if s.calls[c].data.Decoded? { ProcessIsJoin(cfg, s, c, freshId); }
  }

  lemma CallStepCallers(cfg: Config, s: State, step: Step)
    requires Enabled(cfg, s, step) && (step.Ack? || step.Settle? || step.Kill? || step.Return? || step.Route?)
    ensures SameCallers(s.calls, Apply(cfg, s, step).calls)
  {
    if step.Ack? { assert Apply(cfg, s, step).calls == s.calls - {step.call}; }
  }

  lemma StepsWithinConcurrency(cfg: Config, s: State, step: Step)
    requires Enabled(cfg, s, step) && WithinConcurrency(cfg, s)
    ensures WithinConcurrency(cfg, Apply(cfg, s, step))
  {
    if step.Fetch? {
      FetchWithinConcurrency(cfg, s, step.pid, step.job, step.call);
    } else {
      CallsStayPut(cfg, s, step);
      hide Enabled, Apply;
      var calls := Apply(cfg, s, step).calls;
      forall pid ensures |CallsOf(calls, pid)| <= cfg.concurrency { NoNewCalls(s.calls, calls, pid); }
    }
  }

  lemma FetchWithinConcurrency(cfg: Config, s: State, pid: nat, job: nat, call: nat)
    requires Enabled(cfg, s, Fetch(pid, job, call)) && WithinConcurrency(cfg, s)
    ensures WithinConcurrency(cfg, Apply(cfg, s, Fetch(pid, job, call)))
  {
    var calls := Apply(cfg, s, Fetch(pid, job, call)).calls;
    forall q ensures |CallsOf(calls, q)| <= cfg.concurrency { OneMoreCall(s.calls, call, calls[call], q); }
  }

  lemma OneMoreCall(calls: map<nat, Call>, c: nat, call: Call, pid: nat)
    requires c !in calls
    ensures |CallsOf(calls[c := call], pid)| == |CallsOf(calls, pid)| + if call.pid == pid then 1 else 0
  {
    if call.pid == pid {
      assert CallsOf(calls[c := call], pid) == CallsOf(calls, pid) + {c};
    } else {
      assert CallsOf(calls[c := call], pid) == CallsOf(calls, pid);
    }
  }

  lemma {:induction false} RunsWithinConcurrency(cfg: Config, s: State, steps: seq<Step>)
    requires Run(cfg, s, steps).Some? && WithinConcurrency(cfg, s)
    ensures WithinConcurrency(cfg, Run(cfg, s, steps).value)
    decreases |steps|
  {
    if steps != [] {
      StepsWithinConcurrency(cfg, s, steps[0]);
      RunsWithinConcurrency(cfg, Apply(cfg, s, steps[0]), steps[1..]);
    }
  }

  lemma ReachableIsSound(cfg: Config, steps: seq<Step>)
    requires Run(cfg, Init(), steps).Some?
    ensures Inv(Run(cfg, Init(), steps).value) && WithinConcurrency(cfg, Run(cfg, Init(), steps).value)
  {
    InitHolds();
    RunKeeps(cfg, Init(), steps);
    forall pid ensures |CallsOf(Init().calls, pid)| <= cfg.concurrency { assert CallsOf(Init().calls, pid) == {}; }
    RunsWithinConcurrency(cfg, Init(), steps);
  }

  /** The calls of a process that wait for a batch: `process()` is entered and its promise unsettled. */
  function Unsettled(calls: map<nat, Call>, pid: nat): set<nat> {
    set c | c in calls && calls[c].pid == pid && calls[c].state.Awaiting?
  }

  /** The open batch never holds more events than its process has calls in flight. */
  lemma OpenBatchWithinCalls(s: State, pid: nat)
    requires Inv(s) && pid in s.open
    ensures |s.open[pid].events| <= |Unsettled(s.calls, pid)| <= |CallsOf(s.calls, pid)|
  {
    assert OpenOk(s, pid);
    NoDupBounded(s.open[pid].waiters, Unsettled(s.calls, pid));
    SubsetSize(Unsettled(s.calls, pid), CallsOf(s.calls, pid));
  }

  /** Does this step hand a batch over because it is full? */
  predicate CountTriggers(cfg: Config, s: State, step: Step) {
    && step.Process? && Enabled(cfg, s, step) && s.calls[step.call].data.Decoded?
    && Accumulator.Full(Grown(s, step.call, step.freshId), cfg.batchSize)
  }

  /** With a concurrency below the batch size the count trigger never fires, in any run. */
  lemma CountTriggerNeverFires(cfg: Config, steps: seq<Step>, step: Step)
    requires cfg.concurrency < cfg.batchSize && Run(cfg, Init(), steps).Some?
    ensures !CountTriggers(cfg, Run(cfg, Init(), steps).value, step)
  {
    var s := Run(cfg, Init(), steps).value;
    ReachableIsSound(cfg, steps);
    if step.Process? && Enabled(cfg, s, step) && s.calls[step.call].data.Decoded? {
      assert CanJoin(s, step.call, step.freshId);
      JoinStaysBelow(cfg, s, step.call, step.freshId);
    }
  }

  lemma JoinStaysBelow(cfg: Config, s: State, c: nat, freshId: string)
    requires Inv(s) && WithinConcurrency(cfg, s) && CanJoin(s, c, freshId) && cfg.concurrency < cfg.batchSize
    ensures !Accumulator.Full(Grown(s, c, freshId), cfg.batchSize)
  {
    hide Inv;
    var pid := s.calls[c].pid;
    JoinKeeps(s, c, freshId);
    var t := Joined(s, c, freshId);
    OpenBatchWithinCalls(t, pid);
    assert CallsOf(t.calls, pid) == CallsOf(s.calls, pid);
  }

  // With a concurrency of at least the batch size it does fire in some run: fetch and process
  // `batchSize` events before anything else happens.

  function SomeEvent(): CaptureEvent { CaptureEvent("", 0, "", "", "", [], None) }

  ghost predicate Filled(s: State, n: nat) {
    && (forall j: nat :: j in s.jobs <==> j < n) && (forall c: nat :: c in s.calls <==> c < n)
    && (forall c :: c in s.calls ==> s.calls[c].pid == 0)
    && s.paused == {}
    && (n == 0 ==> s.open == map[] && s.minted == {})
    && (n > 0 ==> 0 in s.open && |s.open[0].events| == n)
  }

  function OneMore(n: nat): seq<Step> {
    [Enqueue(n, Decoded(SomeEvent())), Fetch(0, n, n)]
  }

  lemma FetchesOneMore(cfg: Config, s: State, n: nat) returns (t: State)
    requires Filled(s, n) && n < cfg.concurrency
    ensures Run(cfg, s, OneMore(n)) == Some(t)
    ensures Enabled(cfg, t, Process(n, "b")) && t.calls[n].data.Decoded? && t.calls[n].pid == 0
    ensures t.open == s.open && t.minted == s.minted && t.paused == {}
    ensures (forall j: nat :: j in t.jobs <==> j < n + 1) && (forall c: nat :: c in t.calls <==> c < n + 1)
    ensures forall c :: c in t.calls ==> t.calls[c].pid == 0
  {
    var steps := OneMore(n);
    var u := Apply(cfg, s, steps[0]);
    FewCalls(u.calls, n);
    t := Apply(cfg, u, steps[1]);
    assert steps[1..] == [steps[1]] && steps[1..][1..] == [];
    assert Run(cfg, t, []) == Some(t);
    assert Run(cfg, u, [steps[1]]) == Some(t);
  }

  lemma FewCalls(calls: map<nat, Call>, n: nat)
    requires forall c :: c in calls ==> c < n
    ensures |CallsOf(calls, 0)| <= n
  {
    FewNumbers(CallsOf(calls, 0), n);
  }

  lemma {:induction false} FewNumbers(s: set<nat>, n: nat)
    requires forall x :: x in s ==> x < n
    ensures |s| <= n
  {
    if n == 0 {
      assert s == {};
    } else {
      FewNumbers(s - {n - 1}, n - 1);
      SubsetSize(s, (s - {n - 1}) + {n - 1});
    }
  }

  lemma RunJoins(cfg: Config, s: State, a: seq<Step>, b: seq<Step>)
    requires Run(cfg, s, a).Some? && Run(cfg, Run(cfg, s, a).value, b).Some?
    ensures Run(cfg, s, a + b) == Run(cfg, Run(cfg, s, a).value, b)
    decreases |a|
  {
    if a == [] {
      assert a + b == b;
    } else {
      assert (a + b)[1..] == a[1..] + b;
      RunJoins(cfg, Apply(cfg, s, a[0]), a[1..], b);
    }
  }

  lemma {:induction false} CanFill(cfg: Config, n: nat) returns (steps: seq<Step>)
    requires n < cfg.batchSize && n <= cfg.concurrency
    ensures Run(cfg, Init(), steps).Some? && Filled(Run(cfg, Init(), steps).value, n)
  {
    if n == 0 {
      steps := [];
    } else {
      hide Enabled, Apply, Filled, OneMore;
      var before := CanFill(cfg, n - 1);
      var s := Run(cfg, Init(), before).value;
      var t := FetchesOneMore(cfg, s, n - 1);
      RunJoins(cfg, Init(), before, OneMore(n - 1));
      FillsOneMore(cfg, s, t, n - 1);
      steps := before + OneMore(n - 1) + [Process(n - 1, "b")];
      RunJoins(cfg, Init(), before + OneMore(n - 1), [Process(n - 1, "b")]);
    }
  }

  lemma FillsOneMore(cfg: Config, s: State, t: State, n: nat)
    requires n + 1 < cfg.batchSize && Filled(s, n)
    requires Enabled(cfg, t, Process(n, "b")) && t.calls[n].data.Decoded? && t.calls[n].pid == 0
    requires t.open == s.open && t.minted == s.minted && t.paused == {}
    requires (forall j: nat :: j in t.jobs <==> j < n + 1) && (forall c: nat :: c in t.calls <==> c < n + 1)
    requires forall c :: c in t.calls ==> t.calls[c].pid == 0
    ensures Run(cfg, t, [Process(n, "b")]).Some? && Filled(Run(cfg, t, [Process(n, "b")]).value, n + 1)
  {
    ProcessIsJoin(cfg, t, n, "b");
    assert Apply(cfg, t, Process(n, "b")) == Joined(t, n, "b");
    hide Apply, Enabled, Joined, Filled;
    var u := Joined(t, n, "b");
    assert [Process(n, "b")][1..] == [] && Run(cfg, u, []) == Some(u);
    assert Run(cfg, t, [Process(n, "b")]) == Some(u);
    JoinFills(s, t, n);
  }

  lemma JoinFills(s: State, t: State, n: nat)
    requires Filled(s, n) && n in t.calls && t.calls[n].data.Decoded? && t.calls[n].pid == 0
    requires t.open == s.open && t.minted == s.minted && t.paused == {}
    requires (forall j: nat :: j in t.jobs <==> j < n + 1) && (forall c: nat :: c in t.calls <==> c < n + 1)
    requires forall c :: c in t.calls ==> t.calls[c].pid == 0
    ensures Filled(Joined(t, n, "b"), n + 1)
  {
    var u := Joined(t, n, "b");
    assert u.jobs == t.jobs && u.calls.Keys == t.calls.Keys;
  }

  /** The exact condition under which the count trigger can fire at all. */
  lemma CountTriggerCanFire(cfg: Config)
    requires cfg.batchSize > 0
    ensures cfg.batchSize <= cfg.concurrency <==>
      exists steps, step :: Run(cfg, Init(), steps).Some? && CountTriggers(cfg, Run(cfg, Init(), steps).value, step)
  {
    if cfg.batchSize <= cfg.concurrency {
      var n := cfg.batchSize - 1;
      var before := CanFill(cfg, n);
      var t := FetchesOneMore(cfg, Run(cfg, Init(), before).value, n);
      RunJoins(cfg, Init(), before, OneMore(n));
      assert CountTriggers(cfg, Run(cfg, Init(), before + OneMore(n)).value, Process(n, "b"));
    } else {
      forall steps, step | Run(cfg, Init(), steps).Some?
        ensures !CountTriggers(cfg, Run(cfg, Init(), steps).value, step)
      {
        CountTriggerNeverFires(cfg, steps, step);
      }
    }
  }
}
