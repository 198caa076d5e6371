/**
 * apps/worker/src/batch/split-retry.ts: retry a batch with exponential backoff, then split it in
 * two to isolate the rows that cannot be written.
 *
 * `flushBatch` is injected in the source and acts on stores outside this file. Its effect is made
 * explicit by passing the outside world through it: `Flush` takes the world before a call and
 * gives the world after it. Every theorem here is for all such functions and all worlds, so it
 * covers every way in which the real stores can answer over a run.
 */
module SplitRetry {
  import opened Prelude
  import opened ClassifyFlushError

  /** `None` is a promise that resolves, `Some` one that rejects. */
  type Flush<!W, !E> = (W, seq<E>, string) -> (W, Option<Thrown>)

  datatype Config<!W, !E> = Config(
    flush: Flush<W, E>,
    classify: Thrown -> FlushErrorClassification,
    maxAttempts: nat,
    initialDelayMs: nat)
  {
    /** What `validateOptions` accepts. */
    predicate Valid() { maxAttempts > 0 }
  }

  datatype Call<E> = Call(events: seq<E>, batchId: string, error: Option<Thrown>)

  /** One line of the logger for each sub-batch that used up its attempts. */
  datatype LogLine =
    | RejectedAsInfrastructure(size: nat)
    | IsolatedPoison
    | Splitting(size: nat)

  /** Everything one run does to the outside, in order. */
  datatype Journal<E> = Journal(calls: seq<Call<E>>, sleeps: seq<nat>, log: seq<LogLine>) {
    function Then(next: Journal<E>): Journal<E> {
      Journal(calls + next.calls, sleeps + next.sleeps, log + next.log)
    }
  }

  datatype Poisoned<E> = Poisoned(event: E, error: Thrown)

  datatype Outcome<E> =
    | Resolved(committed: seq<E>, poison: seq<Poisoned<E>>)
    | Rejected(error: Thrown)

  datatype Run<W, E> = Run(world: W, journal: Journal<E>, outcome: Outcome<E>)

  /** The retry loop of one sub-batch: the attempts from number `attempt` on. */
  datatype Tries<W, E> = Tries(world: W, journal: Journal<E>, lastError: Option<Thrown>)

  function Backoff(initialDelayMs: nat, attempt: nat): nat
    requires attempt >= 1
  {
    initialDelayMs * Pow2(attempt - 1)
  }

  function TriesFrom<W, E>(cfg: Config<W, E>, w: W, events: seq<E>, batchId: string, attempt: nat): Tries<W, E>
    requires 1 <= attempt <= cfg.maxAttempts
    decreases cfg.maxAttempts - attempt
  {
    var (w1, error) := cfg.flush(w, events, batchId);
    var call := [Call(events, batchId, error)];
    if error.None? || attempt == cfg.maxAttempts then
      Tries(w1, Journal(call, [], []), error)
    else
      var rest := TriesFrom(cfg, w1, events, batchId, attempt + 1);
      Tries(rest.world, Journal(call, [Backoff(cfg.initialDelayMs, attempt)], []).Then(rest.journal), rest.lastError)
  }

  function Noting<E>(j: Journal<E>, line: LogLine): Journal<E> {
    j.(log := j.log + [line])
  }

  /** `Math.ceil(n / 2)`. */
  function Mid(n: nat): nat { (n + 1) / 2 }

  function AttemptRun<W, E>(cfg: Config<W, E>, w: W, events: seq<E>, batchId: string): Run<W, E>
    requires cfg.Valid() && events != []
    decreases |events|
  {
    var t := TriesFrom(cfg, w, events, batchId, 1);
    if t.lastError.None? then
      Run(t.world, t.journal, Resolved(events, []))
    else if cfg.classify(t.lastError.value) == Infrastructure then
      Run(t.world, Noting(t.journal, RejectedAsInfrastructure(|events|)), Rejected(t.lastError.value))
    else if |events| == 1 then
      Run(t.world, Noting(t.journal, IsolatedPoison), Resolved([], [Poisoned(events[0], t.lastError.value)]))
    else
      var mid := Mid(|events|);
      var here := Noting(t.journal, Splitting(|events|));
      var left := AttemptRun(cfg, t.world, events[..mid], batchId + ".0");
      if left.outcome.Rejected? then
        Run(left.world, here.Then(left.journal), left.outcome)
      else
        var right := AttemptRun(cfg, left.world, events[mid..], batchId + ".1");
        Run(right.world, here.Then(left.journal).Then(right.journal),
            if right.outcome.Rejected? then right.outcome
            else Resolved(left.outcome.committed + right.outcome.committed,
                          left.outcome.poison + right.outcome.poison))
  }

  /** An empty batch is resolved without a single call. */
  function RetryWithSplitRun<W, E>(cfg: Config<W, E>, w: W, events: seq<E>, batchId: string): Run<W, E>
    requires cfg.Valid()
  {
    if events == [] then Run(w, Journal([], [], []), Resolved([], []))
    else AttemptRun(cfg, w, events, batchId)
  }

  // ---------------------------------------------------------------------------------------------
  // The code in its own form: an object that acts on the world step by step.
  // ---------------------------------------------------------------------------------------------

  class SplitRetrier<W, E> {
    const cfg: Config<W, E>
    var world: W
    var journal: Journal<E>

    constructor (cfg: Config<W, E>, world: W)
      ensures this.cfg == cfg && this.world == world && journal == Journal([], [], [])
    {
      this.cfg := cfg;
      this.world := world;
      journal := Journal([], [], []);
    }

    method CallFlush(events: seq<E>, batchId: string) returns (error: Option<Thrown>)
      modifies this
      ensures (world, error) == cfg.flush(old(world), events, batchId)
      ensures journal == old(journal).Then(Journal([Call(events, batchId, error)], [], []))
    {
      var (w, e) := cfg.flush(world, events, batchId);
      world := w;
      error := e;
      journal := journal.(calls := journal.calls + [Call(events, batchId, error)]);
    }

    method Sleep(ms: nat)
      modifies this`journal
      ensures journal == old(journal).Then(Journal([], [ms], []))
    {
      journal := journal.(sleeps := journal.sleeps + [ms]);
    }

    method LogError(line: LogLine)
      modifies this`journal
      ensures journal == Noting(old(journal), line)
    {
      journal := Noting(journal, line);
    }

    /** The `for` loop over attempts, with `lastError` as its only memory. */
    method TryBatch(events: seq<E>, batchId: string) returns (lastError: Option<Thrown>)
      requires cfg.Valid()
      modifies this
      ensures var t := TriesFrom(cfg, old(world), events, batchId, 1);
              world == t.world && journal == old(journal).Then(t.journal) && lastError == t.lastError
    {
      ghost var goal := TriesFrom(cfg, world, events, batchId, 1);
      lastError := None;
      var attempt := 1;
      while attempt <= cfg.maxAttempts
        invariant 1 <= attempt <= cfg.maxAttempts + 1
        invariant attempt == cfg.maxAttempts + 1 ==>
          lastError.Some? && world == goal.world && lastError == goal.lastError
            && journal == old(journal).Then(goal.journal)
        invariant attempt <= cfg.maxAttempts ==>
          var t := TriesFrom(cfg, world, events, batchId, attempt);
          goal.world == t.world && goal.lastError == t.lastError
            && old(journal).Then(goal.journal) == journal.Then(t.journal)
      {
        ghost var j0, w0 := journal, world;
        ghost var t := TriesFrom(cfg, w0, events, batchId, attempt);
        var error := CallFlush(events, batchId);
        if error.None? {
          assert j0.Then(t.journal) == journal;
          return None;
        }
        lastError := error;
        if attempt < cfg.maxAttempts {
          Sleep(Backoff(cfg.initialDelayMs, attempt));
          ghost var rest := TriesFrom(cfg, world, events, batchId, attempt + 1);
          ghost var first := Journal([Call(events, batchId, error)], [Backoff(cfg.initialDelayMs, attempt)], []);
          assert journal == j0.Then(first);
          ThenAssociative(j0, first, rest.journal);
        }
        attempt := attempt + 1;
      }
    }

    method AttemptBatch(events: seq<E>, batchId: string) returns (r: Outcome<E>)
      requires cfg.Valid() && events != []
      modifies this
      ensures var run := AttemptRun(cfg, old(world), events, batchId);
              world == run.world && journal == old(journal).Then(run.journal) && r == run.outcome
      decreases |events|
    {
      var lastError := TryBatch(events, batchId);
      if lastError.None? {
        return Resolved(events, []);
      }
      if cfg.classify(lastError.value) == Infrastructure {
        LogError(RejectedAsInfrastructure(|events|));
        return Rejected(lastError.value);
      }
      if |events| == 1 {
        LogError(IsolatedPoison);
        return Resolved([], [Poisoned(events[0], lastError.value)]);
      }
      LogError(Splitting(|events|));
      ghost var here := Noting(TriesFrom(cfg, old(world), events, batchId, 1).journal, Splitting(|events|));
      assert journal == old(journal).Then(here);
      var mid := Mid(|events|);
      ghost var w1 := world;
      var left := AttemptBatch(events[..mid], batchId + ".0");
      ghost var lj := AttemptRun(cfg, w1, events[..mid], batchId + ".0").journal;
      ThenAssociative(old(journal), here, lj);
      if left.Rejected? {
        return left;
      }
      ghost var w2 := world;
      var right := AttemptBatch(events[mid..], batchId + ".1");
      ghost var rj := AttemptRun(cfg, w2, events[mid..], batchId + ".1").journal;
      ThenAssociative(old(journal), here.Then(lj), rj);
      if right.Rejected? {
        return right;
      }
      return Resolved(left.committed + right.committed, left.poison + right.poison);
    }

    method RetryWithSplit(events: seq<E>, batchId: string) returns (r: Outcome<E>)
      requires cfg.Valid()
      modifies this
      ensures var run := RetryWithSplitRun(cfg, old(world), events, batchId);
              world == run.world && journal == old(journal).Then(run.journal) && r == run.outcome
    {
      if events == [] {
        return Resolved([], []);
      }
      r := AttemptBatch(events, batchId);
    }
  }

  lemma ThenAssociative<E>(a: Journal<E>, b: Journal<E>, c: Journal<E>)
    ensures a.Then(b).Then(c) == a.Then(b.Then(c))
  {
    assert a.calls + b.calls + c.calls == a.calls + (b.calls + c.calls);
    assert a.sleeps + b.sleeps + c.sleeps == a.sleeps + (b.sleeps + c.sleeps);
    assert a.log + b.log + c.log == a.log + (b.log + c.log);
  }
}
