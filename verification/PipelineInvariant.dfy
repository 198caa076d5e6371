/** What every step of the pipeline keeps. */
module PipelineInvariant {
  import opened Prelude
  import opened ClassifyFlushError
  import opened R2Retry
  import SplitRetry
  import opened SplitRetryTheorems
  import opened SplitMachine
  import opened Accumulator
  import opened Flush
  import opened FlushTheorems
  import opened Pipeline

  // ---------------------------------------------------------------------------------------------
  // Stores
  // ---------------------------------------------------------------------------------------------

  /** The stores with what the retention sweep took away still in the queue. */
  function Ever(s: State): Stores {
    s.stores.(dlq := s.swept + s.stores.dlq)
  }

  /** An object of R2 is filed under the key of one node of a split tree and holds that node's events. */
  ghost predicate Filed(batches: map<string, seq<CaptureEvent>>, key: string, logged: seq<LoggedEvent>) {
    exists base, path ::
      && base in batches && PlainId(base) && SubBatch(batches[base], path) != []
      && key == NodeKey(base, batches[base], path) && EventsOf(logged) == SubBatch(batches[base], path)
  }

  ghost predicate WriteOk(batches: map<string, seq<CaptureEvent>>, ever: Stores, w: Write) {
    match w
    case Put(key, logged) => Filed(batches, key, logged)
    case Insert(logged) => AllArchived(ever, logged)
    case Send(_) => true
  }

  ghost predicate StoresOk(batches: map<string, seq<CaptureEvent>>, ever: Stores) {
    && Covered(ever)
    && forall key :: key in ever.r2 ==> Filed(batches, key, ever.r2[key])
  }

  /** A key is never filed with two different lists of events. */
  lemma FiledOnce(batches: map<string, seq<CaptureEvent>>, key: string, l1: seq<LoggedEvent>, l2: seq<LoggedEvent>)
    requires Filed(batches, key, l1) && Filed(batches, key, l2)
    ensures EventsOf(l1) == EventsOf(l2)
  {
    var b1, p1 :| b1 in batches && PlainId(b1) && SubBatch(batches[b1], p1) != []
                  && key == NodeKey(b1, batches[b1], p1) && EventsOf(l1) == SubBatch(batches[b1], p1);
    var b2, p2 :| b2 in batches && PlainId(b2) && SubBatch(batches[b2], p2) != []
                  && key == NodeKey(b2, batches[b2], p2) && EventsOf(l2) == SubBatch(batches[b2], p2);
    NodeKeyInjective(b1, batches[b1], p1, b2, batches[b2], p2);
  }

  lemma FiledStays(batches: map<string, seq<CaptureEvent>>, more: map<string, seq<CaptureEvent>>, key: string,
      logged: seq<LoggedEvent>)
    requires Filed(batches, key, logged) && forall b :: b in batches ==> b in more && more[b] == batches[b]
    ensures Filed(more, key, logged)
  {
    var b, p :| b in batches && PlainId(b) && SubBatch(batches[b], p) != []
                && key == NodeKey(b, batches[b], p) && EventsOf(logged) == SubBatch(batches[b], p);
    assert b in more && more[b] == batches[b];
  }

  /** Any write in flight, or one that lands late, keeps R2 ahead of Postgres and forgets nothing. */
  lemma PerformKeeps(batches: map<string, seq<CaptureEvent>>, ever: Stores, w: Write)
    requires StoresOk(batches, ever) && WriteOk(batches, ever, w)
    ensures StoresOk(batches, Perform(ever, w)) && Extends(ever, Perform(ever, w))
    ensures w.Put? ==> AllArchived(Perform(ever, w), w.logged)
    ensures w.Insert? ==> forall i :: 0 <= i < |w.logged| ==> Durable(Perform(ever, w), w.logged[i].event)
    ensures w.Send? ==> forall e :: w.entry.Holds(e) ==> Durable(Perform(ever, w), e)
  {
    hide Covered, Extends, Durable, Archived, Filed;
    match w
    case Put(key, logged) =>
      if key in ever.r2 { FiledOnce(batches, key, ever.r2[key], logged); }
      PutKeeps(ever, key, logged);
    case Insert(logged) => InsertKeeps(ever, logged);
    case Send(entry) => SendKeeps(ever, entry);
  }

  lemma PerformOnEver(s: State, w: Write)
    ensures Ever(s.(stores := Perform(s.stores, w))) == Perform(Ever(s), w)
  {
    if w.Send? {
      assert s.swept + (s.stores.dlq + [w.entry]) == s.swept + s.stores.dlq + [w.entry];
    }
  }

  lemma StayArchived(s: Stores, t: Stores, logged: seq<LoggedEvent>)
    requires Extends(s, t) && AllArchived(s, logged)
    ensures AllArchived(t, logged)
  {
    forall i | 0 <= i < |logged| ensures Archived(t, logged[i].event) { StaysArchived(s, t, logged[i].event); }
  }

  // ---------------------------------------------------------------------------------------------
  // Flushes
  // ---------------------------------------------------------------------------------------------

  /** Event `e` is still to be written, or to be sent to the queue. */
  ghost predicate Pending(batch: seq<CaptureEvent>, p: Progress<CaptureEvent>, sent: nat, e: CaptureEvent) {
    || (exists i :: 0 <= i < |p.stack| && e in SubBatch(batch, p.stack[i]))
    || (exists i :: sent <= i < |p.poison| && p.poison[i] == e)
  }

  ghost predicate Accounted(ever: Stores, batch: seq<CaptureEvent>, p: Progress<CaptureEvent>, sent: nat) {
    forall e :: e in batch ==> Durable(ever, e) || Pending(batch, p, sent, e)
  }

  ghost predicate ProgressOk(batch: seq<CaptureEvent>, p: Progress<CaptureEvent>) {
    && 1 <= p.attempt <= SPLIT_RETRY_MAX_ATTEMPTS_PER_BATCH
    && forall i :: 0 <= i < |p.stack| ==> SubBatch(batch, p.stack[i]) != []
  }

  ghost predicate HeadLogged(batch: seq<CaptureEvent>, p: Progress<CaptureEvent>, logged: seq<LoggedEvent>) {
    p.stack != [] && EventsOf(logged) == SubBatch(batch, p.stack[0])
  }

  ghost predicate PhaseOk(ever: Stores, batch: seq<CaptureEvent>, p: Progress<CaptureEvent>, phase: Phase) {
    match phase
    case Selecting => p.stack != [] && Accounted(ever, batch, p, 0)
    case Putting(logged, tries) =>
      HeadLogged(batch, p, logged) && 1 <= tries <= R2_MAX_ATTEMPTS && Accounted(ever, batch, p, 0)
    case GivenUp => p.stack != [] && Accounted(ever, batch, p, 0)
    case Inserting(logged) => HeadLogged(batch, p, logged) && AllArchived(ever, logged) && Accounted(ever, batch, p, 0)
    case SendingPoison(sent) => p.stack == [] && sent < |p.poison| && Accounted(ever, batch, p, sent)
    case Done(ok) => ok ==> AllDurable(ever, batch)
  }

  lemma AccountedStays(s: Stores, t: Stores, batch: seq<CaptureEvent>, p: Progress<CaptureEvent>, sent: nat)
    requires Extends(s, t) && Accounted(s, batch, p, sent)
    ensures Accounted(t, batch, p, sent)
  {
    forall e | e in batch ensures Durable(t, e) || Pending(batch, p, sent, e) { StaysDurable(s, t, e); }
  }

  lemma PhaseStays(s: Stores, t: Stores, batch: seq<CaptureEvent>, p: Progress<CaptureEvent>, phase: Phase)
    requires Extends(s, t) && PhaseOk(s, batch, p, phase)
    ensures PhaseOk(t, batch, p, phase)
  {
    match phase
    case Done(ok) => if ok { StayDurable(s, t, batch); }
    case SendingPoison(sent) => AccountedStays(s, t, batch, p, sent);
    case Inserting(logged) => AccountedStays(s, t, batch, p, 0); StayArchived(s, t, logged);
    case _ => AccountedStays(s, t, batch, p, 0);
  }

  /** With nothing left on the stack and no poison, the whole batch is durable. */
  lemma OnwardOk(ever: Stores, batch: seq<CaptureEvent>, t: Task, p: Progress<CaptureEvent>)
    requires ProgressOk(batch, p) && Accounted(ever, batch, p, 0)
    ensures var u := Onward(t, p); ProgressOk(batch, u.progress) && PhaseOk(ever, batch, u.progress, u.phase)
  {
  }

  lemma SucceedOk(ever: Stores, batch: seq<CaptureEvent>, t: Task)
    requires ProgressOk(batch, t.progress) && Accounted(ever, batch, t.progress, 0) && t.progress.stack != []
    requires AllDurable(ever, SubBatch(batch, t.progress.stack[0]))
    ensures var u := Onward(t, Succeed(t.progress));
            ProgressOk(batch, u.progress) && PhaseOk(ever, batch, u.progress, u.phase)
  {
    var p := t.progress;
    var q := Succeed(p);
    forall e | e in batch ensures Durable(ever, e) || Pending(batch, q, 0, e) {
      if !Durable(ever, e) && exists i :: 0 <= i < |p.stack| && e in SubBatch(batch, p.stack[i]) {
        var i :| 0 <= i < |p.stack| && e in SubBatch(batch, p.stack[i]);
        assert q.stack[i - 1] == p.stack[i];
      }
    }
    assert forall i :: 0 <= i < |q.stack| ==> q.stack[i] == p.stack[i + 1];
    OnwardOk(ever, batch, t, q);
  }

  /** A sub-batch that failed is retried, split or isolated, but never dropped. */
  lemma FailKeepsPending(batch: seq<CaptureEvent>, p: Progress<CaptureEvent>, verdict: FlushErrorClassification,
      e: CaptureEvent)
    requires ProgressOk(batch, p) && p.stack != [] && Pending(batch, p, 0, e)
    ensures var q := Fail(SPLIT_RETRY_MAX_ATTEMPTS_PER_BATCH, batch, p, verdict);
            q.Some? ==> Pending(batch, q.value, 0, e)
  {
    var r := Fail(SPLIT_RETRY_MAX_ATTEMPTS_PER_BATCH, batch, p, verdict);
    if r.Some? && p.attempt >= SPLIT_RETRY_MAX_ATTEMPTS_PER_BATCH {
      var q, head := r.value, SubBatch(batch, p.stack[0]);
      if i :| 0 <= i < |p.poison| && p.poison[i] == e {
        assert q.poison[i] == e;
      } else {
        var i :| 0 <= i < |p.stack| && e in SubBatch(batch, p.stack[i]);
        if |head| == 1 {
          if i == 0 { assert q.poison[|p.poison|] == e; } else { assert q.stack[i - 1] == p.stack[i]; }
        } else {
          OneLevelDown("", batch, p.stack[0], false);
          OneLevelDown("", batch, p.stack[0], true);
          if i == 0 {
            assert e in head[..SplitRetry.Mid(|head|)] + head[SplitRetry.Mid(|head|)..];
            assert q.stack[0] == p.stack[0] + [false] && q.stack[1] == p.stack[0] + [true];
          } else {
            assert q.stack[i + 1] == p.stack[i];
          }
        }
      }
    }
  }

  lemma FailOk(batch: seq<CaptureEvent>, p: Progress<CaptureEvent>, verdict: FlushErrorClassification)
    requires ProgressOk(batch, p) && p.stack != []
    ensures var q := Fail(SPLIT_RETRY_MAX_ATTEMPTS_PER_BATCH, batch, p, verdict);
            q.Some? ==> ProgressOk(batch, q.value)
  {
    var r := Fail(SPLIT_RETRY_MAX_ATTEMPTS_PER_BATCH, batch, p, verdict);
    if r.Some? {
      OneLevelDown("", batch, p.stack[0], false);
      OneLevelDown("", batch, p.stack[0], true);
      var q := r.value;
      forall i | 0 <= i < |q.stack| ensures SubBatch(batch, q.stack[i]) != [] {
        if |q.stack| == |p.stack| { assert q.stack[i] == p.stack[i]; }
        else if |q.stack| < |p.stack| { assert q.stack[i] == p.stack[i + 1]; }
        else if i >= 2 { assert q.stack[i] == p.stack[i - 1]; }
      }
    }
  }

  lemma FlushBatchFailedOk(ever: Stores, batch: seq<CaptureEvent>, t: Task, error: Thrown)
    requires ProgressOk(batch, t.progress) && Accounted(ever, batch, t.progress, 0) && t.progress.stack != []
    ensures var u := FlushBatchFailed(batch, t, error);
            ProgressOk(batch, u.progress) && PhaseOk(ever, batch, u.progress, u.phase)
  {
    var q := Fail(SPLIT_RETRY_MAX_ATTEMPTS_PER_BATCH, batch, t.progress, Classify(error));
    FailOk(batch, t.progress, Classify(error));
    if q.Some? {
      forall e | e in batch ensures Durable(ever, e) || Pending(batch, q.value, 0, e) {
        if !Durable(ever, e) { FailKeepsPending(batch, t.progress, Classify(error), e); }
      }
      OnwardOk(ever, batch, t, q.value);
    }
  }

  // ---------------------------------------------------------------------------------------------
  // Calls and the batches they wait for
  // ---------------------------------------------------------------------------------------------

  /** The waiters of a batch are distinct calls of its process, each with the event at its place. */
  ghost predicate HeldBy(calls: map<nat, Call>, pid: nat, base: string, events: seq<CaptureEvent>, waiters: seq<nat>) {
    && events != [] && |events| == |waiters| && NoDup(waiters)
    && forall i :: 0 <= i < |waiters| ==>
         && waiters[i] in calls
         && calls[waiters[i]].pid == pid
         && calls[waiters[i]].data == Decoded(events[i])
         && calls[waiters[i]].state == Awaiting(base)
  }

  lemma HeldStays(calls: map<nat, Call>, after: map<nat, Call>, pid: nat, base: string, events: seq<CaptureEvent>,
      waiters: seq<nat>)
    requires HeldBy(calls, pid, base, events, waiters)
    requires forall c :: c in calls && calls[c].pid == pid && calls[c].state == Awaiting(base) ==>
      c in after && after[c] == calls[c]
    ensures HeldBy(after, pid, base, events, waiters)
  {
  }

  ghost predicate TaskOk(s: State, base: string) {
    base in s.tasks ==>
      var t := s.tasks[base];
      && base in s.batches
      && HeldBy(s.calls, t.pid, base, s.batches[base], t.waiters)
      && ProgressOk(s.batches[base], t.progress)
      && PhaseOk(Ever(s), s.batches[base], t.progress, t.phase)
  }

  ghost predicate OpenOk(s: State, pid: nat) {
    pid in s.open ==>
      var b := s.open[pid];
      && PlainId(b.batchId) && b.batchId in s.minted && b.batchId !in s.batches
      && HeldBy(s.calls, pid, b.batchId, b.events, b.waiters)
  }

  /** The call is one of the waiters of the batch it awaits. */
  ghost predicate Waits(s: State, c: nat, pid: nat, base: string) {
    || (pid in s.open && s.open[pid].batchId == base && c in s.open[pid].waiters)
    || (base in s.tasks && s.tasks[base].pid == pid && c in s.tasks[base].waiters)
  }

  ghost predicate JobDurable(ever: Stores, data: JobData) {
    match data
    case Decoded(event) => Durable(ever, event)
    case Malformed(raw) => SchemaValidationFailed(raw) in ever.dlq
  }

  ghost predicate CallOk(s: State, c: nat) {
    c in s.calls ==>
      var call := s.calls[c];
      && call.job in s.jobs && s.jobs[call.job].data == call.data
      && match call.state
         case Fetched => true
         case Awaiting(base) => call.data.Decoded? && Waits(s, c, call.pid, base)
         case Routing => call.data.Malformed?
         case Settled(ok) => ok ==> JobDurable(Ever(s), call.data)
         case Returned(ok) => ok ==> JobDurable(Ever(s), call.data)
  }

  ghost predicate JobOk(s: State, j: nat) {
    j in s.jobs && s.jobs[j].state == Completed ==> JobDurable(Ever(s), s.jobs[j].data)
  }

  ghost predicate BatchesOk(s: State) {
    && (forall base :: base in s.batches ==> PlainId(base) && base in s.minted && s.batches[base] != [])
    && (forall p, q :: p in s.open && q in s.open && p != q ==> s.open[p].batchId != s.open[q].batchId)
  }

  ghost predicate Inv(s: State) {
    && StoresOk(s.batches, Ever(s))
    && (forall l :: l in s.late ==> WriteOk(s.batches, Ever(s), l.write))
    && BatchesOk(s)
    && (forall base :: TaskOk(s, base))
    && (forall pid :: OpenOk(s, pid))
    && (forall c :: CallOk(s, c))
    && (forall j :: JobOk(s, j))
  }
}
