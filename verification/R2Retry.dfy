/** apps/worker/src/batch/r2-retry.ts: retry one PUT, but only for errors worth retrying. */
module R2Retry {
  import opened Prelude
  import SplitRetry

  /** What `classifyR2Error` reads off a rejection. */
  datatype R2Error =
    | NotAnError
    | R2Error(name: string, code: Option<string>, throttling: bool, status: Option<int>)

  datatype R2ErrorClassification = Retryable | NonRetryable

  const TRANSPORT_CODES: set<string> := {"ECONNRESET", "EPIPE", "ETIMEDOUT", "ECONNREFUSED"}

  function ClassifyR2Error(e: R2Error): R2ErrorClassification {
    match e
    case NotAnError => NonRetryable
    case R2Error(name, code, throttling, status) =>
      if name == "TimeoutError" then Retryable
      else if code.Some? && code.value in TRANSPORT_CODES then Retryable
      else if throttling then Retryable
      else if status.Some? then
        if status.value == 429 || 500 <= status.value <= 599 then Retryable else NonRetryable
      else NonRetryable
  }

  /**
   * A failure that another attempt may get past: no response at all, the store asked to be called
   * less often, or a server error. Nothing else is.
   */
  predicate Transient(e: R2Error) {
    && e.R2Error?
    && (|| e.name == "TimeoutError" || e.code == Some("ECONNRESET") || e.code == Some("EPIPE")
        || e.code == Some("ETIMEDOUT") || e.code == Some("ECONNREFUSED") || e.throttling || e.status == Some(429)
        || (e.status.Some? && e.status.value / 100 == 5))
  }

  lemma TransientIsRetryable(e: R2Error)
    ensures ClassifyR2Error(e) == Retryable <==> Transient(e)
  {
  }

  /** A PUT bound to its key and body; `None` is success. */
  type Put<!W> = W -> (W, Option<R2Error>)

  datatype PutOutcome =
    | Succeeded(attempts: nat)
    | GaveUp(attempts: nat, error: R2Error)

  datatype Puts<W> = Puts(world: W, sleeps: seq<nat>, outcome: PutOutcome)

  function PutsFrom<W>(put: Put<W>, maxAttempts: nat, initialDelayMs: nat, w: W, attempt: nat): Puts<W>
    requires 1 <= attempt <= maxAttempts
    decreases maxAttempts - attempt
  {
    var (w1, error) := put(w);
    if error.None? then Puts(w1, [], Succeeded(attempt))
    else if ClassifyR2Error(error.value) == NonRetryable || attempt == maxAttempts then
      Puts(w1, [], GaveUp(attempt, error.value))
    else
      var rest := PutsFrom(put, maxAttempts, initialDelayMs, w1, attempt + 1);
      rest.(sleeps := [SplitRetry.Backoff(initialDelayMs, attempt)] + rest.sleeps)
  }

  /** The world in which attempt number `n` starts, when every attempt runs. */
  function WorldBefore<W>(put: Put<W>, w: W, n: nat): W
    requires n >= 1
  {
    if n == 1 then w else put(WorldBefore(put, w, n - 1)).0
  }

  function AnswerOf<W>(put: Put<W>, w: W, n: nat): Option<R2Error>
    requires n >= 1
  {
    put(WorldBefore(put, w, n)).1
  }

  predicate Retries(answer: Option<R2Error>) { answer.Some? && Transient(answer.value) }

  /** What the answers alone say the outcome has to be: which of them are transient, and how many may be asked for. */
  ghost predicate OutcomeFits<W(!new)>(put: Put<W>, maxAttempts: nat, w: W, o: PutOutcome) {
    && 1 <= o.attempts <= maxAttempts
    && (forall k :: 1 <= k < o.attempts ==> Retries(AnswerOf(put, w, k)))
    && match o
       case Succeeded(n) => AnswerOf(put, w, n).None?
       case GaveUp(n, e) => AnswerOf(put, w, n) == Some(e) && (!Transient(e) || n == maxAttempts)
  }

  lemma {:induction false} PutsFromMeaning<W(!new)>(put: Put<W>, maxAttempts: nat, d: nat, w: W, w0: W, attempt: nat)
    requires 1 <= attempt <= maxAttempts && w == WorldBefore(put, w0, attempt)
    requires forall k :: 1 <= k < attempt ==> Retries(AnswerOf(put, w0, k))
    ensures var p := PutsFrom(put, maxAttempts, d, w, attempt);
            && attempt <= p.outcome.attempts
            && OutcomeFits(put, maxAttempts, w0, p.outcome)
            && p.world == WorldBefore(put, w0, p.outcome.attempts + 1)
            && |p.sleeps| == p.outcome.attempts - attempt
            && forall k :: 0 <= k < |p.sleeps| ==> p.sleeps[k] == SplitRetry.Backoff(d, attempt + k)
    decreases maxAttempts - attempt
  {
    var (w1, error) := put(w);
    assert error == AnswerOf(put, w0, attempt);
    if error.Some? { TransientIsRetryable(error.value); }
    assert w1 == WorldBefore(put, w0, attempt + 1);
    if Retries(error) && attempt < maxAttempts {
      PutsFromMeaning(put, maxAttempts, d, w1, w0, attempt + 1);
    }
  }

  /**
   * The retry is exact: the outcome is the only one the answers allow. An error that is not transient
   * stops it at that very attempt, a transient one never does before the last attempt, and the sleeps
   * are one doubling delay between each attempt and the next.
   */
  lemma RetryR2PutIsExact<W(!new)>(put: Put<W>, maxAttempts: nat, d: nat, w: W, o: PutOutcome)
    requires maxAttempts >= 1
    ensures var p := PutsFrom(put, maxAttempts, d, w, 1);
            && (o == p.outcome <==> OutcomeFits(put, maxAttempts, w, o))
            && p.world == WorldBefore(put, w, p.outcome.attempts + 1)
            && |p.sleeps| == p.outcome.attempts - 1
            && forall k :: 0 <= k < |p.sleeps| ==> p.sleeps[k] == d * Pow2(k)
  {
    PutsFromMeaning(put, maxAttempts, d, w, w, 1);
    var p := PutsFrom(put, maxAttempts, d, w, 1).outcome;
    if OutcomeFits(put, maxAttempts, w, o) {
      SameOutcome(put, maxAttempts, w, p, o);
    }
  }

  lemma SameOutcome<W(!new)>(put: Put<W>, maxAttempts: nat, w: W, a: PutOutcome, b: PutOutcome)
    requires OutcomeFits(put, maxAttempts, w, a) && OutcomeFits(put, maxAttempts, w, b)
    ensures a == b
  {
    var atA, atB := Retries(AnswerOf(put, w, a.attempts)), Retries(AnswerOf(put, w, b.attempts));
  }

  /** The loop of the source, with `lastError` as its memory. */
  class R2Putter<W> {
    const put: Put<W>
    var world: W
    var sleeps: seq<nat>

    constructor (put: Put<W>, world: W)
      ensures this.put == put && this.world == world && sleeps == []
    {
      this.put := put;
      this.world := world;
      sleeps := [];
    }

    method RetryR2Put(maxAttempts: nat, initialDelayMs: nat) returns (o: PutOutcome)
      requires maxAttempts >= 1
      modifies this
      ensures var p := PutsFrom(put, maxAttempts, initialDelayMs, old(world), 1);
              world == p.world && sleeps == old(sleeps) + p.sleeps && o == p.outcome
    {
      ghost var goal := PutsFrom(put, maxAttempts, initialDelayMs, world, 1);
      var lastError := NotAnError;
      var attempt := 1;
      while attempt <= maxAttempts
        invariant 1 <= attempt <= maxAttempts + 1
        invariant attempt == maxAttempts + 1 ==>
          world == goal.world && sleeps == old(sleeps) + goal.sleeps && goal.outcome == GaveUp(maxAttempts, lastError)
        invariant attempt <= maxAttempts ==>
          var p := PutsFrom(put, maxAttempts, initialDelayMs, world, attempt);
          goal.world == p.world && goal.outcome == p.outcome && old(sleeps) + goal.sleeps == sleeps + p.sleeps
      {
        var (w, error) := put(world);
        world := w;
        if error.None? {
          return Succeeded(attempt);
        }
        lastError := error.value;
        if ClassifyR2Error(lastError) == NonRetryable {
          return GaveUp(attempt, lastError);
        }
        if attempt < maxAttempts {
          var delay := SplitRetry.Backoff(initialDelayMs, attempt);
          ghost var rest := PutsFrom(put, maxAttempts, initialDelayMs, world, attempt + 1).sleeps;
          assert sleeps + ([delay] + rest) == (sleeps + [delay]) + rest;
          sleeps := sleeps + [delay];
        }
        attempt := attempt + 1;
      }
      return GaveUp(maxAttempts, lastError);
    }
  }
}
