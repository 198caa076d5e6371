/**
 * apps/worker/src/consumer/dlq.service.ts: append to the dead-letter queue, then sweep what is older
 * than the retention window, at most once per throttle interval.
 *
 * Redaction of payloads and of error texts is outside the model.
 */
module DlqService {
  import opened Prelude
  import opened ClassifyFlushError
  import opened Flush

  const DLQ_RETENTION_WINDOW_MS: nat := 7 * 24 * 60 * 60 * 1000
  const DLQ_RETENTION_CLEAN_LIMIT: nat := 1000
  const DLQ_CLEAN_THROTTLE_MS: nat := 60 * 60 * 1000

  datatype Job = Job(entry: DlqEntry, addedAt: int)

  /** The queue's own `clean`: drop up to `limit` jobs added at or before `cutoff`, oldest places first. */
  function Clean(jobs: seq<Job>, cutoff: int, limit: nat): seq<Job> {
    if jobs == [] then []
    else if jobs[0].addedAt <= cutoff && limit > 0 then Clean(jobs[1..], cutoff, limit - 1)
    else [jobs[0]] + Clean(jobs[1..], cutoff, limit)
  }

  function Young(cutoff: int): Job -> bool { (j: Job) => j.addedAt > cutoff }
  function Aged(cutoff: int): Job -> bool { (j: Job) => j.addedAt <= cutoff }

  /**
   * A sweep keeps every young job, in order; it removes only aged ones, the first `limit` of them.
   */
  lemma {:induction false} CleanRemovesOnlyAged(jobs: seq<Job>, cutoff: int, limit: nat)
    ensures Filter(Clean(jobs, cutoff, limit), Young(cutoff)) == Filter(jobs, Young(cutoff))
    ensures var aged := Filter(jobs, Aged(cutoff));
            Filter(Clean(jobs, cutoff, limit), Aged(cutoff)) == if |aged| <= limit then [] else aged[limit..]
    decreases |jobs|
  {
    if jobs != [] {
      var rest := jobs[1..];
      if jobs[0].addedAt <= cutoff && limit > 0 {
        CleanRemovesOnlyAged(rest, cutoff, limit - 1);
      } else {
        CleanRemovesOnlyAged(rest, cutoff, limit);
        assert ([jobs[0]] + Clean(rest, cutoff, limit))[1..] == Clean(rest, cutoff, limit);
      }
    }
  }

  /** One call of `send`: when it happened, and how the queue answered its two operations. */
  datatype Send = Send(entry: DlqEntry, now: int, added: Reply<Thrown>, cleaned: bool)

  datatype State = State(jobs: seq<Job>, lastCleanAttemptAtMs: int)

  predicate Sweeps(s: State, call: Send) {
    call.added.error.None? && call.now - s.lastCleanAttemptAtMs >= DLQ_CLEAN_THROTTLE_MS
  }

  function After(s: State, call: Send): State {
    var added := if call.added.applied then s.jobs + [Job(call.entry, call.now)] else s.jobs;
    if !Sweeps(s, call) then s.(jobs := added)
    else State(if call.cleaned then Clean(added, call.now - DLQ_RETENTION_WINDOW_MS, DLQ_RETENTION_CLEAN_LIMIT)
      else added, call.now)
  }

  /** The state before the k-th call. */
  function Before(s: State, calls: seq<Send>, k: nat): State
    requires k <= |calls|
  {
    if k == 0 then s else After(Before(s, calls, k - 1), calls[k - 1])
  }

  /** The clock does not run backwards. */
  ghost predicate InOrder(calls: seq<Send>) {
    forall i, j :: 0 <= i < j < |calls| ==> calls[i].now <= calls[j].now
  }

  lemma {:induction false} LastAttempt(s: State, calls: seq<Send>, i: nat, k: nat)
    requires i < k <= |calls| && InOrder(calls) && Sweeps(Before(s, calls, i), calls[i])
    ensures Before(s, calls, k).lastCleanAttemptAtMs >= calls[i].now
    decreases k
  {
    if k > i + 1 {
      LastAttempt(s, calls, i, k - 1);
      assert calls[i].now <= calls[k - 1].now;
    }
  }

  /** However tight a burst of sends, two sweeps are at least the throttle interval apart, even when they fail. */
  lemma SweepsAreThrottled(s: State, calls: seq<Send>, i: nat, j: nat)
    requires i < j < |calls| && InOrder(calls)
    requires Sweeps(Before(s, calls, i), calls[i]) && Sweeps(Before(s, calls, j), calls[j])
    ensures calls[j].now - calls[i].now >= DLQ_CLEAN_THROTTLE_MS
  {
    LastAttempt(s, calls, i, j);
  }

  /** An entry whose send was answered is in the queue until it is older than the retention window. */
  lemma {:induction false} EntriesAreRetained(s: State, calls: seq<Send>, i: nat, k: nat)
    requires i < k <= |calls| && InOrder(calls)
    requires calls[i].added.Honest() && calls[i].added.error.None?
    requires forall m :: i <= m < k ==> calls[m].now < calls[i].now + DLQ_RETENTION_WINDOW_MS
    ensures Job(calls[i].entry, calls[i].now) in Before(s, calls, k).jobs
    decreases k
  {
    hide Clean, Filter;
    var job := Job(calls[i].entry, calls[i].now);
    var b, call := Before(s, calls, k - 1), calls[k - 1];
    if k > i + 1 { EntriesAreRetained(s, calls, i, k - 1); }
    var added := if call.added.applied then b.jobs + [Job(call.entry, call.now)] else b.jobs;
    assert job in added;
    var cutoff := call.now - DLQ_RETENTION_WINDOW_MS;
    CleanRemovesOnlyAged(added, cutoff, DLQ_RETENTION_CLEAN_LIMIT);
    FilterMembers(added, Young(cutoff), job);
    FilterMembers(Clean(added, cutoff, DLQ_RETENTION_CLEAN_LIMIT), Young(cutoff), job);
  }

  /**
   * What one send leaves. The entry goes last if its write took effect; and if the send is answered an hour
   * or more after the last attempt at a sweep, it attempts one, which if it succeeds takes the first
   * thousand entries of seven days or more, and no others. All else stays, in order.
   */
  lemma SendIsExact(s: State, call: Send)
    ensures var t, cutoff := After(s, call), call.now - 604_800_000;
            var jobs := s.jobs + if call.added.applied then [Job(call.entry, call.now)] else [];
            var due := call.added.error.None? && call.now - s.lastCleanAttemptAtMs >= 3_600_000;
            && t.lastCleanAttemptAtMs == (if due then call.now else s.lastCleanAttemptAtMs)
            && (!(due && call.cleaned) ==> t.jobs == jobs)
            && (due && call.cleaned ==>
                  && Filter(t.jobs, Young(cutoff)) == Filter(jobs, Young(cutoff))
                  && var aged := Filter(jobs, Aged(cutoff));
                     Filter(t.jobs, Aged(cutoff)) == if |aged| <= 1000 then [] else aged[1000..])
  {
    var jobs := s.jobs + if call.added.applied then [Job(call.entry, call.now)] else [];
    CleanRemovesOnlyAged(jobs, call.now - 604_800_000, 1000);
    assert s.jobs + [] == s.jobs;
  }

  class DlqService {
    var queue: seq<Job>
    var lastCleanAttemptAtMs: int

    constructor ()
      ensures queue == [] && lastCleanAttemptAtMs == 0
    {
      queue := [];
      lastCleanAttemptAtMs := 0;
    }

    function Snapshot(): State
      reads this
    {
      State(queue, lastCleanAttemptAtMs)
    }

    /** Rejects exactly when the `add` is reported as failed; a failing sweep is swallowed. */
    method SendEntry(call: Send) returns (error: Option<Thrown>)
      modifies this
      ensures Snapshot() == After(old(Snapshot()), call) && error == call.added.error
    {
      if call.added.applied {
        queue := queue + [Job(call.entry, call.now)];
      }
      if call.added.error.Some? {
        return call.added.error;
      }
      CleanAgedEntriesThrottled(call);
      return None;
    }

    method CleanAgedEntriesThrottled(call: Send)
      requires call.added.error.None?
      modifies this
      ensures !Sweeps(old(Snapshot()), call) ==> Snapshot() == old(Snapshot())
      ensures Sweeps(old(Snapshot()), call) ==>
        lastCleanAttemptAtMs == call.now
        && queue == if call.cleaned
          then Clean(old(queue), call.now - DLQ_RETENTION_WINDOW_MS, DLQ_RETENTION_CLEAN_LIMIT) else old(queue)
    {
      if call.now - lastCleanAttemptAtMs < DLQ_CLEAN_THROTTLE_MS {
        return;
      }
      lastCleanAttemptAtMs := call.now;
      if call.cleaned {
        queue := Clean(queue, call.now - DLQ_RETENTION_WINDOW_MS, DLQ_RETENTION_CLEAN_LIMIT);
      }
    }
  }
}
