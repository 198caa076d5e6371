/** What a run of split-retry guarantees, for every behaviour of `flushBatch`. */
module SplitRetryTheorems {
  import opened Prelude
  import opened ClassifyFlushError
  import opened SplitRetry

  // ---------------------------------------------------------------------------------------------
  // The recursion, unfolded once
  // ---------------------------------------------------------------------------------------------

  predicate Splits<W, E>(cfg: Config<W, E>, t: Tries<W, E>, events: seq<E>) {
    t.lastError.Some? && cfg.classify(t.lastError.value) == RowFault && |events| > 1
  }

  /** A sub-batch that is written, rejected, or poison by itself. */
  lemma RunOfLeaf<W, E>(cfg: Config<W, E>, w: W, events: seq<E>, id: string)
    requires cfg.Valid() && events != [] && !Splits(cfg, TriesFrom(cfg, w, events, id, 1), events)
    ensures var t := TriesFrom(cfg, w, events, id, 1);
            var run := AttemptRun(cfg, w, events, id);
            && run.world == t.world && run.journal.calls == t.journal.calls
            && run.outcome == if t.lastError.None? then Resolved(events, [])
                              else if cfg.classify(t.lastError.value) == Infrastructure then Rejected(t.lastError.value)
                              else Resolved([], [Poisoned(events[0], t.lastError.value)])
  {
  }

  lemma RunOfSplit<W, E>(cfg: Config<W, E>, w: W, events: seq<E>, id: string)
    requires cfg.Valid() && events != [] && Splits(cfg, TriesFrom(cfg, w, events, id, 1), events)
    ensures var t := TriesFrom(cfg, w, events, id, 1);
            var mid := Mid(|events|);
            var left := AttemptRun(cfg, t.world, events[..mid], id + ".0");
            var right := AttemptRun(cfg, left.world, events[mid..], id + ".1");
            var run := AttemptRun(cfg, w, events, id);
            && (left.outcome.Rejected? ==>
                  run.world == left.world && run.outcome == left.outcome
                  && |run.journal.calls| == |t.journal.calls| + |left.journal.calls|)
            && (left.outcome.Resolved? ==>
                  run.world == right.world
                  && |run.journal.calls| == |t.journal.calls| + |left.journal.calls| + |right.journal.calls|
                  && run.outcome == if right.outcome.Rejected? then right.outcome
                                    else Resolved(left.outcome.committed + right.outcome.committed,
                                                  left.outcome.poison + right.outcome.poison))
  {
  }

  lemma PoisonAppend<E>(a: seq<Poisoned<E>>, b: seq<Poisoned<E>>)
    ensures PoisonEvents(a + b) == PoisonEvents(a) + PoisonEvents(b)
  {
  }

  // ---------------------------------------------------------------------------------------------
  // Committed and poisoned events partition the input
  // ---------------------------------------------------------------------------------------------

  function PoisonEvents<E>(poison: seq<Poisoned<E>>): seq<E> {
    seq(|poison|, i requires 0 <= i < |poison| => poison[i].event)
  }

  /** `xs` is a shuffle of `as'` and `bs` that keeps the order of both. */
  ghost predicate Interleaves<T>(xs: seq<T>, as': seq<T>, bs: seq<T>)
    decreases |xs|
  {
    if xs == [] then as' == [] && bs == []
    else
      || (as' != [] && as'[0] == xs[0] && Interleaves(xs[1..], as'[1..], bs))
      || (bs != [] && bs[0] == xs[0] && Interleaves(xs[1..], as', bs[1..]))
  }

  lemma {:induction false} InterleavesAppend<T>(x1: seq<T>, a1: seq<T>, b1: seq<T>, x2: seq<T>, a2: seq<T>, b2: seq<T>)
    requires Interleaves(x1, a1, b1) && Interleaves(x2, a2, b2)
    ensures Interleaves(x1 + x2, a1 + a2, b1 + b2)
    decreases |x1|
  {
    if x1 == [] {
      assert x1 + x2 == x2 && a1 + a2 == a2 && b1 + b2 == b2;
    } else {
      assert (x1 + x2)[1..] == x1[1..] + x2;
      if a1 != [] && a1[0] == x1[0] && Interleaves(x1[1..], a1[1..], b1) {
        InterleavesAppend(x1[1..], a1[1..], b1, x2, a2, b2);
        assert (a1 + a2)[1..] == a1[1..] + a2;
      } else {
        InterleavesAppend(x1[1..], a1, b1[1..], x2, a2, b2);
        assert (b1 + b2)[1..] == b1[1..] + b2;
      }
    }
  }

  lemma {:induction false} InterleavesLeft<T>(xs: seq<T>)
    ensures Interleaves(xs, xs, [])
  {
    if xs != [] { InterleavesLeft(xs[1..]); }
  }

  lemma {:induction false} InterleavesCount<T>(xs: seq<T>, as': seq<T>, bs: seq<T>)
    requires Interleaves(xs, as', bs)
    ensures multiset(xs) == multiset(as') + multiset(bs)
    decreases |xs|
  {
    if xs != [] {
      assert xs == [xs[0]] + xs[1..];
      if as' != [] && as'[0] == xs[0] && Interleaves(xs[1..], as'[1..], bs) {
        InterleavesCount(xs[1..], as'[1..], bs);
        assert as' == [as'[0]] + as'[1..];
      } else {
        InterleavesCount(xs[1..], as', bs[1..]);
        assert bs == [bs[0]] + bs[1..];
      }
    }
  }

  lemma {:induction false} AttemptPartitions<W, E>(cfg: Config<W, E>, w: W, events: seq<E>, batchId: string)
    requires cfg.Valid() && events != []
    ensures var r := AttemptRun(cfg, w, events, batchId).outcome;
            r.Resolved? ==> Interleaves(events, r.committed, PoisonEvents(r.poison))
    decreases |events|
  {
    hide AttemptRun, TriesFrom, Interleaves;
    var t := TriesFrom(cfg, w, events, batchId, 1);
    if !Splits(cfg, t, events) {
      LeafPartitions(cfg, w, events, batchId);
    } else {
      RunOfSplit(cfg, w, events, batchId);
      var mid := Mid(|events|);
      var left := AttemptRun(cfg, t.world, events[..mid], batchId + ".0");
      AttemptPartitions(cfg, t.world, events[..mid], batchId + ".0");
      if left.outcome.Resolved? {
        var right := AttemptRun(cfg, left.world, events[mid..], batchId + ".1");
        AttemptPartitions(cfg, left.world, events[mid..], batchId + ".1");
        if right.outcome.Resolved? {
          InterleavesAppend(events[..mid], left.outcome.committed, PoisonEvents(left.outcome.poison),
                            events[mid..], right.outcome.committed, PoisonEvents(right.outcome.poison));
          assert events[..mid] + events[mid..] == events;
          PoisonAppend(left.outcome.poison, right.outcome.poison);
        }
      }
    }
  }

  lemma LeafPartitions<W, E>(cfg: Config<W, E>, w: W, events: seq<E>, batchId: string)
    requires cfg.Valid() && events != [] && !Splits(cfg, TriesFrom(cfg, w, events, batchId, 1), events)
    ensures var r := AttemptRun(cfg, w, events, batchId).outcome;
            r.Resolved? ==> Interleaves(events, r.committed, PoisonEvents(r.poison))
  {
    hide AttemptRun, TriesFrom, Interleaves;
    var t := TriesFrom(cfg, w, events, batchId, 1);
    RunOfLeaf(cfg, w, events, batchId);
    InterleavesLeft(events);
    assert PoisonEvents<E>([]) == [];
    if |events| == 1 && t.lastError.Some? {
      OneInterleaves(events[0], t.lastError.value);
      assert events == [events[0]];
    }
  }

  lemma OneInterleaves<E>(event: E, error: Thrown)
    ensures Interleaves([event], [], PoisonEvents([Poisoned(event, error)]))
  {
    var p := PoisonEvents([Poisoned(event, error)]);
    assert p == [event] && p[1..] == [] == [event][1..];
  }

  /**
   * Nothing is dropped and nothing is doubled: whenever the promise resolves, the committed and
   * the poisoned events, each in input order, shuffle back into the input.
   */
  lemma ResolvedPartitions<W, E>(cfg: Config<W, E>, w: W, events: seq<E>, batchId: string)
    requires cfg.Valid()
    ensures var r := RetryWithSplitRun(cfg, w, events, batchId).outcome;
            r.Resolved? ==>
              && Interleaves(events, r.committed, PoisonEvents(r.poison))
              && multiset(events) == multiset(r.committed) + multiset(PoisonEvents(r.poison))
  {
    var r := RetryWithSplitRun(cfg, w, events, batchId).outcome;
    if events != [] { AttemptPartitions(cfg, w, events, batchId); }
    if r.Resolved? { InterleavesCount(events, r.committed, PoisonEvents(r.poison)); }
  }

  // ---------------------------------------------------------------------------------------------
  // Infrastructure verdicts reject; poison is only ever a row fault of a single event
  // ---------------------------------------------------------------------------------------------

  ghost predicate HasInfrastructureLine(log: seq<LogLine>) {
    exists k :: 0 <= k < |log| && log[k].RejectedAsInfrastructure?
  }

  lemma {:induction false} TriesJournal<W, E>(cfg: Config<W, E>, w: W, events: seq<E>, batchId: string, attempt: nat)
    requires 1 <= attempt <= cfg.maxAttempts
    ensures var t := TriesFrom(cfg, w, events, batchId, attempt);
            && t.journal.log == []
            && 1 <= |t.journal.calls| <= cfg.maxAttempts - attempt + 1
            && (forall c :: c in t.journal.calls ==> c.events == events && c.batchId == batchId)
            && t.journal.calls[|t.journal.calls| - 1].error == t.lastError
            && (t.lastError.Some? ==> |t.journal.calls| == cfg.maxAttempts - attempt + 1)
            && (t.lastError.None? ==> Call(events, batchId, None) in t.journal.calls)
    decreases cfg.maxAttempts - attempt
  {
    var (w1, error) := cfg.flush(w, events, batchId);
    var t := TriesFrom(cfg, w, events, batchId, attempt);
    if error.None? || attempt == cfg.maxAttempts {
      assert t.journal.calls[0] == Call(events, batchId, error);
    } else {
      TriesJournal(cfg, w1, events, batchId, attempt + 1);
      var rest := TriesFrom(cfg, w1, events, batchId, attempt + 1);
      assert t.journal.calls == [Call(events, batchId, error)] + rest.journal.calls;
    }
  }

  ghost predicate StopsOnInfrastructure<W, E>(cfg: Config<W, E>, j: Journal<E>, o: Outcome<E>) {
    && j.calls != []
    && (o.Rejected? <==> HasInfrastructureLine(j.log))
    && (o.Rejected? ==>
          && cfg.classify(o.error) == Infrastructure
          && j.calls[|j.calls| - 1].error == Some(o.error)
          && j.log[|j.log| - 1].RejectedAsInfrastructure?)
  }

  lemma StopsAfter<W, E>(cfg: Config<W, E>, a: Journal<E>, b: Journal<E>, o: Outcome<E>)
    requires !HasInfrastructureLine(a.log) && StopsOnInfrastructure(cfg, b, o)
    ensures StopsOnInfrastructure(cfg, a.Then(b), o)
  {
    if HasInfrastructureLine(b.log) {
      var k :| 0 <= k < |b.log| && b.log[k].RejectedAsInfrastructure?;
      assert a.Then(b).log[|a.log| + k] == b.log[k];
    }
  }

  /**
   * A run rejects exactly when some sub-batch ended in an infrastructure verdict; it stops there,
   * and what it rejects with is the error of its very last call.
   */
  lemma {:induction false} RejectsExactlyOnInfrastructure<W, E>(cfg: Config<W, E>, w: W, events: seq<E>,
      batchId: string)
    requires cfg.Valid() && events != []
    ensures var run := AttemptRun(cfg, w, events, batchId);
            StopsOnInfrastructure(cfg, run.journal, run.outcome)
    decreases |events|
  {
    var run := AttemptRun(cfg, w, events, batchId);
    var t := TriesFrom(cfg, w, events, batchId, 1);
    TriesJournal(cfg, w, events, batchId, 1);
    if t.lastError.Some? && cfg.classify(t.lastError.value) == Infrastructure {
      assert run.journal.log[0].RejectedAsInfrastructure?;
    } else if t.lastError.Some? && |events| > 1 {
      var mid := Mid(|events|);
      var here := Noting(t.journal, Splitting(|events|));
      var left := AttemptRun(cfg, t.world, events[..mid], batchId + ".0");
      RejectsExactlyOnInfrastructure(cfg, t.world, events[..mid], batchId + ".0");
      StopsAfter(cfg, here, left.journal, left.outcome);
      if left.outcome.Resolved? {
        var right := AttemptRun(cfg, left.world, events[mid..], batchId + ".1");
        RejectsExactlyOnInfrastructure(cfg, left.world, events[mid..], batchId + ".1");
        StopsAfter(cfg, here.Then(left.journal), right.journal, right.outcome);
      }
    }
  }

  /** Poison is a row fault, met by that one event alone in a batch of its own. */
  lemma {:induction false} PoisonIsASingleRowFault<W, E>(
    cfg: Config<W, E>, w: W, events: seq<E>, batchId: string, p: Poisoned<E>)
    requires cfg.Valid() && events != []
    requires var r := AttemptRun(cfg, w, events, batchId).outcome; r.Resolved? && p in r.poison
    ensures cfg.classify(p.error) == RowFault
    ensures exists c :: c in AttemptRun(cfg, w, events, batchId).journal.calls
                        && c.events == [p.event] && c.error == Some(p.error)
    decreases |events|
  {
    var run := AttemptRun(cfg, w, events, batchId);
    var t := TriesFrom(cfg, w, events, batchId, 1);
    TriesJournal(cfg, w, events, batchId, 1);
    if |events| == 1 {
      var last := t.journal.calls[|t.journal.calls| - 1];
      assert events == [events[0]] && last in run.journal.calls;
    } else {
      var mid := Mid(|events|);
      var left := AttemptRun(cfg, t.world, events[..mid], batchId + ".0");
      var right := AttemptRun(cfg, left.world, events[mid..], batchId + ".1");
      if p in left.outcome.poison {
        PoisonIsASingleRowFault(cfg, t.world, events[..mid], batchId + ".0", p);
        var c :| c in left.journal.calls && c.events == [p.event] && c.error == Some(p.error);
        assert c in run.journal.calls;
      } else {
        PoisonIsASingleRowFault(cfg, left.world, events[mid..], batchId + ".1", p);
        var c :| c in right.journal.calls && c.events == [p.event] && c.error == Some(p.error);
        assert c in run.journal.calls;
      }
    }
  }

  /** Every event reported as committed was in a call that resolved. */
  lemma {:induction false} CommittedWasWritten<W, E>(cfg: Config<W, E>, w: W, events: seq<E>, batchId: string, e: E)
    requires cfg.Valid() && events != []
    requires var r := AttemptRun(cfg, w, events, batchId).outcome; r.Resolved? && e in r.committed
    ensures exists c :: c in AttemptRun(cfg, w, events, batchId).journal.calls && c.error.None? && e in c.events
    decreases |events|
  {
    var run := AttemptRun(cfg, w, events, batchId);
    var t := TriesFrom(cfg, w, events, batchId, 1);
    TriesJournal(cfg, w, events, batchId, 1);
    if t.lastError.None? {
      assert Call(events, batchId, None) in run.journal.calls;
    } else {
      var mid := Mid(|events|);
      var left := AttemptRun(cfg, t.world, events[..mid], batchId + ".0");
      var right := AttemptRun(cfg, left.world, events[mid..], batchId + ".1");
      if e in left.outcome.committed {
        CommittedWasWritten(cfg, t.world, events[..mid], batchId + ".0", e);
        var c :| c in left.journal.calls && c.error.None? && e in c.events;
        assert c in run.journal.calls;
      } else {
        CommittedWasWritten(cfg, left.world, events[mid..], batchId + ".1", e);
        var c :| c in right.journal.calls && c.error.None? && e in c.events;
        assert c in run.journal.calls;
      }
    }
  }

  // ---------------------------------------------------------------------------------------------
  // One id, one list of events
  // ---------------------------------------------------------------------------------------------

  /** The id of the sub-batch reached from the top by `path` (`false` is the left half). */
  function NodeId(base: string, path: seq<bool>): string
    decreases |path|
  {
    if path == [] then base else NodeId(base + (if path[0] then ".1" else ".0"), path[1..])
  }

  /** The events of the sub-batch reached by `path`. */
  function SubBatch<E>(events: seq<E>, path: seq<bool>): seq<E>
    decreases |path|
  {
    if path == [] then events
    else SubBatch(if path[0] then events[Mid(|events|)..] else events[..Mid(|events|)], path[1..])
  }

  lemma {:induction false} NodeIdSteps(base: string, path: seq<bool>)
    ensures base <= NodeId(base, path)
    ensures path != [] ==> (base + (if path[0] then ".1" else ".0")) <= NodeId(base, path)
    ensures |NodeId(base, path)| == |base| + 2 * |path|
    decreases |path|
  {
    if path != [] {
      var next := base + (if path[0] then ".1" else ".0");
      NodeIdSteps(next, path[1..]);
      assert base <= next;
    }
  }

  /** One level further down the tree. */
  lemma {:induction false} OneLevelDown<E>(base: string, events: seq<E>, path: seq<bool>, right: bool)
    ensures NodeId(base, path + [right]) == NodeId(base, path) + (if right then ".1" else ".0")
    ensures var here := SubBatch(events, path);
            SubBatch(events, path + [right]) == if right then here[Mid(|here|)..] else here[..Mid(|here|)]
    decreases |path|
  {
    if path == [] {
      assert ([] + [right])[1..] == [];
    } else {
      assert (path + [right])[1..] == path[1..] + [right];
      OneLevelDown(base + (if path[0] then ".1" else ".0"),
                   if path[0] then events[Mid(|events|)..] else events[..Mid(|events|)], path[1..], right);
    }
  }

  lemma {:induction false} NodeIdHasNoSlash(base: string, path: seq<bool>)
    requires '/' !in base
    ensures '/' !in NodeId(base, path)
    decreases |path|
  {
    if path != [] { NodeIdHasNoSlash(base + (if path[0] then ".1" else ".0"), path[1..]); }
  }

  function UpToDot(s: string): string {
    if s == [] || s[0] == '.' then [] else [s[0]] + UpToDot(s[1..])
  }

  lemma {:induction false} UpToDotStops(base: string, s: string)
    requires '.' !in base && base <= s && (base == s || s[|base|] == '.')
    ensures UpToDot(s) == base
  {
    if base != [] {
      UpToDotStops(base[1..], s[1..]);
      assert base == [base[0]] + base[1..];
    }
  }

  /** Different nodes of all split trees have different ids, given that top ids hold no dot. */
  lemma NodeIdInjective(b1: string, p1: seq<bool>, b2: string, p2: seq<bool>)
    requires NodeId(b1, p1) == NodeId(b2, p2)
    requires '.' !in b1 && '.' !in b2
    ensures b1 == b2 && p1 == p2
  {
    NodeIdSteps(b1, p1);
    NodeIdSteps(b2, p2);
    UpToDotStops(b1, NodeId(b1, p1));
    UpToDotStops(b2, NodeId(b2, p2));
    SamePath(b1, p1, p2);
  }

  lemma {:induction false} SamePath(base: string, p1: seq<bool>, p2: seq<bool>)
    requires NodeId(base, p1) == NodeId(base, p2)
    ensures p1 == p2
    decreases |p1|
  {
    NodeIdSteps(base, p1);
    NodeIdSteps(base, p2);
    if p1 != [] {
      var id := NodeId(base, p1);
      assert id[|base| + 1] == (if p1[0] then '1' else '0') == (if p2[0] then '1' else '0');
      SamePath(base + (if p1[0] then ".1" else ".0"), p1[1..], p2[1..]);
      assert p1 == [p1[0]] + p1[1..] && p2 == [p2[0]] + p2[1..];
    }
  }

  ghost predicate IsNodeOf<E(!new)>(events: seq<E>, base: string, c: Call<E>) {
    exists path: seq<bool> :: c.batchId == NodeId(base, path) && c.events == SubBatch(events, path) && c.events != []
  }

  /** Every call carries the id and the events of one node of the split tree. */
  lemma {:induction false} CallsAreNodes<W, E(!new)>(cfg: Config<W, E>, w: W, events: seq<E>, batchId: string)
    requires cfg.Valid() && events != []
    ensures forall c :: c in AttemptRun(cfg, w, events, batchId).journal.calls ==> IsNodeOf(events, batchId, c)
    decreases |events|
  {
    var run := AttemptRun(cfg, w, events, batchId);
    var t := TriesFrom(cfg, w, events, batchId, 1);
    TriesJournal(cfg, w, events, batchId, 1);
    forall c | c in t.journal.calls ensures IsNodeOf(events, batchId, c) {
      assert c.batchId == NodeId(batchId, []) && c.events == SubBatch(events, []);
    }
    if t.lastError.Some? && cfg.classify(t.lastError.value) == RowFault && |events| > 1 {
      var mid := Mid(|events|);
      var left := AttemptRun(cfg, t.world, events[..mid], batchId + ".0");
      CallsAreNodes(cfg, t.world, events[..mid], batchId + ".0");
      forall c | c in left.journal.calls ensures IsNodeOf(events, batchId, c) {
        ChildIsNode(events, batchId, c, false);
      }
      if left.outcome.Resolved? {
        CallsAreNodes(cfg, left.world, events[mid..], batchId + ".1");
        forall c | c in AttemptRun(cfg, left.world, events[mid..], batchId + ".1").journal.calls
          ensures IsNodeOf(events, batchId, c)
        {
          ChildIsNode(events, batchId, c, true);
        }
      }
    }
  }

  lemma ChildIsNode<E(!new)>(events: seq<E>, base: string, c: Call<E>, right: bool)
    requires IsNodeOf(if right then events[Mid(|events|)..] else events[..Mid(|events|)],
                      base + (if right then ".1" else ".0"), c)
    ensures IsNodeOf(events, base, c)
  {
    var half := if right then events[Mid(|events|)..] else events[..Mid(|events|)];
    var path :| c.batchId == NodeId(base + (if right then ".1" else ".0"), path) && c.events == SubBatch(half, path);
    var longer := [right] + path;
    assert longer[1..] == path;
    assert c.batchId == NodeId(base, longer) && c.events == SubBatch(events, longer);
  }

  /**
   * A retry of a sub-batch writes the same events under the same id, and no two sub-batches share
   * an id: within a run the id of a call determines its events.
   */
  lemma SameIdSameEvents<W, E(!new)>(cfg: Config<W, E>, w: W, events: seq<E>, batchId: string, c: Call<E>, d: Call<E>)
    requires cfg.Valid() && events != []
    requires c in AttemptRun(cfg, w, events, batchId).journal.calls
    requires d in AttemptRun(cfg, w, events, batchId).journal.calls
    requires c.batchId == d.batchId
    ensures c.events == d.events
  {
    CallsAreNodes(cfg, w, events, batchId);
    var p :| c.batchId == NodeId(batchId, p) && c.events == SubBatch(events, p);
    var q :| d.batchId == NodeId(batchId, q) && d.events == SubBatch(events, q);
    SamePath(batchId, p, q);
  }
}
