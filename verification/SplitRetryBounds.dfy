/** How much work split-retry does, and that it isolates exactly the bad rows. */
module SplitRetryBounds {
  import opened Prelude
  import opened ClassifyFlushError
  import opened SplitRetry
  import opened SplitRetryTheorems

  /** The least `l` with `n <= 2^l`. */
  function CeilLog2(n: nat): nat {
    if n <= 1 then 0 else 1 + CeilLog2(Mid(n))
  }

  lemma {:induction false} CeilLog2Meaning(n: nat)
    requires n >= 1
    ensures n <= Pow2(CeilLog2(n))
    ensures n > 1 ==> Pow2(CeilLog2(n) - 1) < n
  {
    if n > 1 {
      CeilLog2Meaning(Mid(n));
      if Mid(n) > 1 {
        assert Pow2(CeilLog2(n) - 1) == 2 * Pow2(CeilLog2(Mid(n)) - 1);
      }
    }
  }

  lemma {:induction false} CeilLog2Monotone(m: nat, n: nat)
    requires m <= n
    ensures CeilLog2(m) <= CeilLog2(n)
  {
    if m > 1 { CeilLog2Monotone(Mid(m), Mid(n)); }
  }

  // ---------------------------------------------------------------------------------------------
  // A flush that fails with a row fault exactly when its batch holds a bad row
  // ---------------------------------------------------------------------------------------------

  predicate HasBad<E>(events: seq<E>, bad: E -> bool) {
    Filter(events, bad) != []
  }

  ghost predicate FailsExactlyOnBadRows<W(!new), E(!new)>(cfg: Config<W, E>, bad: E -> bool) {
    forall w, events, id ::
      var error := cfg.flush(w, events, id).1;
      && (error.Some? <==> HasBad(events, bad))
      && (error.Some? ==> cfg.classify(error.value) == RowFault)
  }

  function Good<E>(bad: E -> bool): E -> bool { e => !bad(e) }

  /** A sub-batch fails, with a row fault, exactly when it holds a bad row. */
  lemma {:induction false} TriesOnBadRows<W(!new), E(!new)>(
    cfg: Config<W, E>, bad: E -> bool, w: W, events: seq<E>, batchId: string, attempt: nat)
    requires FailsExactlyOnBadRows(cfg, bad) && 1 <= attempt <= cfg.maxAttempts
    ensures var t := TriesFrom(cfg, w, events, batchId, attempt);
            && (t.lastError.Some? <==> HasBad(events, bad))
            && (t.lastError.Some? ==> cfg.classify(t.lastError.value) == RowFault)
            && t.journal.log == []
    decreases cfg.maxAttempts - attempt
  {
    var (w1, error) := cfg.flush(w, events, batchId);
    assert error == cfg.flush(w, events, batchId).1;
    if error.Some? && attempt < cfg.maxAttempts {
      TriesOnBadRows(cfg, bad, w1, events, batchId, attempt + 1);
    }
  }

  /** The delays of one failing sub-batch, from attempt `attempt` on, telescope. */
  lemma {:induction false} CostOfTries<W(!new), E(!new)>(
    cfg: Config<W, E>, bad: E -> bool, w: W, events: seq<E>, batchId: string, attempt: nat)
    requires FailsExactlyOnBadRows(cfg, bad) && 1 <= attempt <= cfg.maxAttempts
    ensures var t := TriesFrom(cfg, w, events, batchId, attempt);
            && (t.lastError.Some? ==>
                  && |t.journal.calls| == cfg.maxAttempts - attempt + 1
                  && Succeeded(t.journal.calls) == 0
                  && Sum(t.journal.sleeps) + cfg.initialDelayMs * Pow2(attempt - 1)
                    == cfg.initialDelayMs * Pow2(cfg.maxAttempts - 1))
            && (t.lastError.None? ==>
              |t.journal.calls| == 1 && Succeeded(t.journal.calls) == 1 && t.journal.sleeps == [])
    decreases cfg.maxAttempts - attempt
  {
    var (w1, error) := cfg.flush(w, events, batchId);
    assert error == cfg.flush(w, events, batchId).1;
    OneCall(Call(events, batchId, error));
    hide Pow2, Backoff, Succeeded, Sum;
    if error.Some? && attempt < cfg.maxAttempts {
      TriesOnBadRows(cfg, bad, w, events, batchId, attempt);
      CostOfTries(cfg, bad, w1, events, batchId, attempt + 1);
      var rest := TriesFrom(cfg, w1, events, batchId, attempt + 1).journal;
      hide FailsExactlyOnBadRows;
      OneSleep(Backoff(cfg.initialDelayMs, attempt), rest.sleeps);
      SucceededAppend([Call(events, batchId, error)], rest.calls);
      DelayDoubles(cfg.initialDelayMs, attempt);
    }
  }

  lemma OneCall<E>(c: Call<E>)
    ensures Succeeded([c]) == if c.error.None? then 1 else 0
  {
    assert [c][1..] == [];
  }

  lemma OneSleep(ms: nat, rest: seq<nat>)
    ensures Sum([ms] + rest) == ms + Sum(rest)
  {
    assert ([ms] + rest)[1..] == rest;
  }

  lemma DelayDoubles(d: nat, attempt: nat)
    requires attempt >= 1
    ensures Backoff(d, attempt) + d * Pow2(attempt - 1) == d * Pow2(attempt)
  {
    assert Pow2(attempt) == 2 * Pow2(attempt - 1);
    assert d * (2 * Pow2(attempt - 1)) == d * Pow2(attempt - 1) + d * Pow2(attempt - 1);
  }

  function Succeeded<E>(calls: seq<Call<E>>): nat {
    if calls == [] then 0 else (if calls[0].error.None? then 1 else 0) + Succeeded(calls[1..])
  }

  lemma {:induction false} SucceededAppend<E>(a: seq<Call<E>>, b: seq<Call<E>>)
    ensures Succeeded(a + b) == Succeeded(a) + Succeeded(b)
  {
    if a == [] {
      assert a + b == b;
    } else {
      assert (a + b)[1..] == a[1..] + b;
      SucceededAppend(a[1..], b);
    }
  }

  /** The backoff spent on one sub-batch that fails: the doubling delays telescope. */
  function BackoffPerFailure<W, E>(cfg: Config<W, E>): int
    requires cfg.Valid()
  {
    cfg.initialDelayMs * (Pow2(cfg.maxAttempts - 1) - 1)
  }

  /** The three totals of a run, as functions of the number of sub-batches that fail. */
  ghost predicate TotalsMatch<W, E>(cfg: Config<W, E>, j: Journal<E>)
    requires cfg.Valid()
  {
    && |j.calls| == cfg.maxAttempts * |j.log| + Succeeded(j.calls)
    && Sum(j.sleeps) == |j.log| * BackoffPerFailure(cfg)
  }

  lemma TotalsAdd<W, E>(cfg: Config<W, E>, a: Journal<E>, b: Journal<E>)
    requires cfg.Valid() && TotalsMatch(cfg, a) && TotalsMatch(cfg, b)
    ensures TotalsMatch(cfg, a.Then(b))
  {
    SumAppend(a.sleeps, b.sleeps);
    SucceededAppend(a.calls, b.calls);
    var x := BackoffPerFailure(cfg);
    assert (|a.log| + |b.log|) * x == |a.log| * x + |b.log| * x;
    assert cfg.maxAttempts * (|a.log| + |b.log|) == cfg.maxAttempts * |a.log| + cfg.maxAttempts * |b.log|;
  }

  /** One sub-batch that fails on bad rows matches the totals by itself. */
  lemma TotalsOfTries<W(!new), E(!new)>(
    cfg: Config<W, E>, bad: E -> bool, w: W, events: seq<E>, batchId: string, line: LogLine)
    requires cfg.Valid() && FailsExactlyOnBadRows(cfg, bad)
    ensures var t := TriesFrom(cfg, w, events, batchId, 1);
            && (t.lastError.Some? ==> TotalsMatch(cfg, Noting(t.journal, line)))
            && (t.lastError.None? ==> TotalsMatch(cfg, t.journal))
  {
    var t := TriesFrom(cfg, w, events, batchId, 1);
    TriesOnBadRows(cfg, bad, w, events, batchId, 1);
    CostOfTries(cfg, bad, w, events, batchId, 1);
    Telescoped(cfg.initialDelayMs, cfg.maxAttempts);
    hide TriesFrom, FailsExactlyOnBadRows, Pow2, Succeeded, Sum;
    assert cfg.maxAttempts * 1 == cfg.maxAttempts && 1 * BackoffPerFailure(cfg) == BackoffPerFailure(cfg);
  }

  lemma Telescoped(d: nat, maxAttempts: nat)
    requires maxAttempts >= 1
    ensures d * Pow2(1 - 1) == d && d * (Pow2(maxAttempts - 1) - 1) == d * Pow2(maxAttempts - 1) - d
  {
    var p := Pow2(maxAttempts - 1);
    assert d * (p - 1) == d * p - d * 1;
  }

  /** Calls and backoff of a whole run, exactly. */
  lemma {:induction false} TotalsOfRun<W(!new), E(!new)>(
    cfg: Config<W, E>, bad: E -> bool, w: W, events: seq<E>, batchId: string)
    requires cfg.Valid() && events != [] && FailsExactlyOnBadRows(cfg, bad)
    ensures var run := AttemptRun(cfg, w, events, batchId);
            run.outcome.Resolved? && TotalsMatch(cfg, run.journal)
    decreases |events|
  {
    var run := AttemptRun(cfg, w, events, batchId);
    var t := TriesFrom(cfg, w, events, batchId, 1);
    TriesOnBadRows(cfg, bad, w, events, batchId, 1);
    TotalsOfTries(cfg, bad, w, events, batchId, if |events| == 1 then IsolatedPoison else Splitting(|events|));
    if t.lastError.Some? && |events| > 1 {
      var mid := Mid(|events|);
      var here := Noting(t.journal, Splitting(|events|));
      TotalsOfRun(cfg, bad, t.world, events[..mid], batchId + ".0");
      var left := AttemptRun(cfg, t.world, events[..mid], batchId + ".0");
      TotalsOfRun(cfg, bad, left.world, events[mid..], batchId + ".1");
      var right := AttemptRun(cfg, left.world, events[mid..], batchId + ".1");
      TotalsAdd(cfg, here, left.journal);
      TotalsAdd(cfg, here.Then(left.journal), right.journal);
      assert run.journal == here.Then(left.journal).Then(right.journal);
    }
  }

  /** The number of nodes of the split tree of `events` that hold a bad row. */
  function FailingNodes<E>(events: seq<E>, bad: E -> bool): nat
    requires events != []
    decreases |events|
  {
    if !HasBad(events, bad) then 0
    else if |events| == 1 then 1
    else 1 + FailingNodes(events[..Mid(|events|)], bad) + FailingNodes(events[Mid(|events|)..], bad)
  }

  /** Exactly the nodes that hold a bad row fail. */
  lemma {:induction false} FailuresAreTheBadNodes<W(!new), E(!new)>(
    cfg: Config<W, E>, bad: E -> bool, w: W, events: seq<E>, batchId: string)
    requires cfg.Valid() && events != [] && FailsExactlyOnBadRows(cfg, bad)
    ensures var run := AttemptRun(cfg, w, events, batchId);
            run.outcome.Resolved? && |run.journal.log| == FailingNodes(events, bad)
    decreases |events|
  {
    var run := AttemptRun(cfg, w, events, batchId);
    var t := TriesFrom(cfg, w, events, batchId, 1);
    TriesOnBadRows(cfg, bad, w, events, batchId, 1);
    if t.lastError.Some? && |events| > 1 {
      var mid := Mid(|events|);
      FailuresAreTheBadNodes(cfg, bad, t.world, events[..mid], batchId + ".0");
      var left := AttemptRun(cfg, t.world, events[..mid], batchId + ".0");
      FailuresAreTheBadNodes(cfg, bad, left.world, events[mid..], batchId + ".1");
      var right := AttemptRun(cfg, left.world, events[mid..], batchId + ".1");
      assert |run.journal.log| == 1 + |left.journal.log| + |right.journal.log|;
    }
  }

  /** The budget of `k` bad rows among `n` events. */
  function Levels(k: nat, n: nat): nat { k * (CeilLog2(n) + 1) }

  /** With `k` bad rows among `n` events, at most `k * (ceil(log2 n) + 1)` nodes hold one. */
  lemma {:induction false} FailingNodesBound<E>(events: seq<E>, bad: E -> bool)
    requires events != []
    ensures FailingNodes(events, bad) <= Levels(|Filter(events, bad)|, |events|)
    decreases |events|
  {
    hide Levels, Filter;
    var k, n := |Filter(events, bad)|, |events|;
    LevelsOfOne(k, n);
    if HasBad(events, bad) && n == 1 {
    } else if HasBad(events, bad) {
      var l, r := events[..Mid(n)], events[Mid(n)..];
      assert l + r == events;
      FilterAppend(l, r, bad);
      FailingNodesBound(l, bad);
      FailingNodesBound(r, bad);
      HalvesFitTheBudget(|Filter(l, bad)|, |Filter(r, bad)|, n);
    }
  }

  lemma LevelsOfOne(k: nat, n: nat)
    ensures Levels(k, n) >= k
  {
    assert k * (CeilLog2(n) + 1) == k * CeilLog2(n) + k;
  }

  lemma HalvesFitTheBudget(kl: nat, kr: nat, n: nat)
    requires kl + kr >= 1 && n > 1
    ensures 1 + Levels(kl, Mid(n)) + Levels(kr, n - Mid(n)) <= Levels(kl + kr, n)
  {
    CeilLog2Monotone(n - Mid(n), Mid(n));
    OneMoreLevel(kl, kr, CeilLog2(Mid(n)) + 1, CeilLog2(n - Mid(n)) + 1);
  }

  lemma OneMoreLevel(kl: nat, kr: nat, d: nat, e: nat)
    requires e <= d && kl + kr >= 1
    ensures 1 + kl * d + kr * e <= (kl + kr) * (d + 1)
  {
    assert kr * e <= kr * d;
    assert (kl + kr) * (d + 1) == kl * d + kr * d + (kl + kr);
  }

  /**
   * The work bound. For `n` events with `k` bad ones: `flushBatch` is called `maxAttempts` times
   * per sub-batch that fails and once per sub-batch that succeeds, the total backoff is exactly
   * the number of failing sub-batches times `initialDelay * (2^(maxAttempts-1) - 1)`, and at most
   * `k * (ceil(log2 n) + 1)` sub-batches fail.
   */
  lemma WorkBound<W(!new), E(!new)>(cfg: Config<W, E>, bad: E -> bool, w: W, events: seq<E>, batchId: string)
    requires cfg.Valid() && events != [] && FailsExactlyOnBadRows(cfg, bad)
    ensures var j := AttemptRun(cfg, w, events, batchId).journal;
            && |j.calls| == cfg.maxAttempts * |j.log| + Succeeded(j.calls)
            && Sum(j.sleeps) == |j.log| * (cfg.initialDelayMs * (Pow2(cfg.maxAttempts - 1) - 1))
            && |j.log| <= |Filter(events, bad)| * (CeilLog2(|events|) + 1)
  {
    TotalsOfRun(cfg, bad, w, events, batchId);
    FailuresAreTheBadNodes(cfg, bad, w, events, batchId);
    FailingNodesBound(events, bad);
  }

  /** Exact isolation: the poison is the bad events and the committed ones are the rest, in order. */
  lemma {:induction false} PoisonIsolationIsExact<W(!new), E(!new)>(
    cfg: Config<W, E>, bad: E -> bool, w: W, events: seq<E>, batchId: string)
    requires cfg.Valid() && events != [] && FailsExactlyOnBadRows(cfg, bad)
    ensures var r := AttemptRun(cfg, w, events, batchId).outcome;
            && r.Resolved?
            && r.committed == Filter(events, Good(bad))
            && PoisonEvents(r.poison) == Filter(events, bad)
    decreases |events|
  {
    var t := TriesFrom(cfg, w, events, batchId, 1);
    TriesOnBadRows(cfg, bad, w, events, batchId, 1);
    if !Splits(cfg, t, events) {
      RunOfLeaf(cfg, w, events, batchId);
      LeafIsExact(cfg, bad, t, events);
    } else {
      var mid := Mid(|events|);
      assert 0 < mid < |events|;
      hide AttemptRun, TriesFrom, FailsExactlyOnBadRows, Filter, HasBad, PoisonEvents, Mid;
      RunOfSplit(cfg, w, events, batchId);
      var l, r := events[..mid], events[mid..];
      assert l + r == events;
      FilterAppend(l, r, bad);
      FilterAppend(l, r, Good(bad));
      PoisonIsolationIsExact(cfg, bad, t.world, l, batchId + ".0");
      var left := AttemptRun(cfg, t.world, l, batchId + ".0");
      PoisonIsolationIsExact(cfg, bad, left.world, r, batchId + ".1");
      var right := AttemptRun(cfg, left.world, r, batchId + ".1");
      PoisonAppend(left.outcome.poison, right.outcome.poison);
    }
  }

  lemma LeafIsExact<W(!new), E(!new)>(cfg: Config<W, E>, bad: E -> bool, t: Tries<W, E>, events: seq<E>)
    requires events != [] && !Splits(cfg, t, events) && (t.lastError.Some? <==> HasBad(events, bad))
    requires t.lastError.Some? ==> cfg.classify(t.lastError.value) == RowFault
    ensures t.lastError.None? ==> Filter(events, Good(bad)) == events && PoisonEvents<E>([]) == Filter(events, bad)
    ensures t.lastError.Some? ==>
              Filter(events, Good(bad)) == []
                && PoisonEvents([Poisoned(events[0], t.lastError.value)]) == Filter(events, bad)
  {
    if t.lastError.None? {
      NoneBad(events, bad);
    } else {
      assert events[1..] == [];
      assert Filter(events[1..], bad) == Filter(events[1..], Good(bad)) == [];
    }
  }

  lemma {:induction false} NoneBad<E>(events: seq<E>, bad: E -> bool)
    requires !HasBad(events, bad)
    ensures Filter(events, Good(bad)) == events
  {
    if events != [] {
      NoneBad(events[1..], bad);
      assert events == [events[0]] + events[1..];
    }
  }

  /** The bound is reached: one bad row in front makes the whole chain of left halves fail. */
  lemma {:induction false} BoundIsReached<E>(events: seq<E>, bad: E -> bool)
    requires events != []
    requires bad(events[0]) && Filter(events[1..], bad) == []
    ensures FailingNodes(events, bad) == CeilLog2(|events|) + 1
    decreases |events|
  {
    if |events| > 1 {
      var mid := Mid(|events|);
      var l, r := events[..mid], events[mid..];
      assert l[1..] + r == events[1..];
      FilterAppend(l[1..], r, bad);
      BoundIsReached(l, bad);
      assert FailingNodes(r, bad) == 0;
    }
  }

  /**
   * With production's three attempts and 150 ms, isolating one row out of 100 takes eight failing
   * sub-batches and 3600 ms of backoff when that row comes first, not the seven levels and the
   * "comfortably under 3.5s" that the comment beside those constants counts on.
   */
  lemma BackoffOfOneHundredEvents<W(!new), E(!new)>(
    cfg: Config<W, E>, bad: E -> bool, w: W, events: seq<E>, batchId: string)
    requires cfg.maxAttempts == 3 && cfg.initialDelayMs == 150 && |events| == 100
    requires FailsExactlyOnBadRows(cfg, bad)
    requires bad(events[0]) && Filter(events[1..], bad) == []
    ensures var j := AttemptRun(cfg, w, events, batchId).journal;
            |j.log| == 8 && Sum(j.sleeps) == 3600
  {
    BoundIsReached(events, bad);
    FailuresAreTheBadNodes(cfg, bad, w, events, batchId);
    WorkBound(cfg, bad, w, events, batchId);
    hide FailsExactlyOnBadRows, AttemptRun, FailingNodes, Filter, CeilLog2, Sum;
    LogOfOneHundred();
    assert Pow2(2) == 2 * Pow2(1) == 4;
  }

  lemma LogOfOneHundred()
    ensures CeilLog2(100) == 7
  {
    assert CeilLog2(4) == 1 + CeilLog2(2) == 2 + CeilLog2(1);
    assert CeilLog2(13) == 1 + CeilLog2(7) == 2 + CeilLog2(4);
    assert CeilLog2(50) == 1 + CeilLog2(25) == 2 + CeilLog2(13);
  }

  /** Whatever the stores do, a batch of `n` events costs at most `maxAttempts * (2n - 1)` calls. */
  lemma {:induction false} CallsAreBounded<W, E>(cfg: Config<W, E>, w: W, events: seq<E>, batchId: string)
    requires cfg.Valid() && events != []
    ensures |AttemptRun(cfg, w, events, batchId).journal.calls| <= Budget(cfg.maxAttempts, |events|)
    decreases |events|
  {
    var run := AttemptRun(cfg, w, events, batchId);
    var t := TriesFrom(cfg, w, events, batchId, 1);
    TriesJournal(cfg, w, events, batchId, 1);
    var n, mid := |events|, Mid(|events|);
    BudgetOfOne(cfg.maxAttempts, n);
    if t.lastError.Some? && cfg.classify(t.lastError.value) == RowFault && n > 1 {
      BudgetSplits(cfg.maxAttempts, n, mid);
      var left := AttemptRun(cfg, t.world, events[..mid], batchId + ".0");
      CallsAreBounded(cfg, t.world, events[..mid], batchId + ".0");
      if left.outcome.Resolved? {
        var right := AttemptRun(cfg, left.world, events[mid..], batchId + ".1");
        CallsAreBounded(cfg, left.world, events[mid..], batchId + ".1");
        assert |run.journal.calls| == |t.journal.calls| + |left.journal.calls| + |right.journal.calls|;
      } else {
        assert |run.journal.calls| == |t.journal.calls| + |left.journal.calls|;
      }
    }
  }

  function Budget(m: nat, n: nat): int { m * (2 * n - 1) }

  lemma BudgetOfOne(m: nat, n: nat)
    requires 1 <= n
    ensures m <= Budget(m, n)
  {
  }

  lemma BudgetSplits(m: nat, n: nat, mid: nat)
    requires 1 <= mid < n
    ensures m + Budget(m, mid) + Budget(m, n - mid) == Budget(m, n)
    ensures Budget(m, n - mid) >= 0
  {
  }
}
