/**
 * Poison isolation seen from the stores: when the stores are up and Postgres refuses a statement
 * exactly for its bad rows, one production flush writes the good events and dead-letters the bad ones.
 */
module PoisonFlush {
  import opened Prelude
  import opened ClassifyFlushError
  import opened EventsTable
  import opened R2Retry
  import opened SplitRetry
  import opened SplitRetryTheorems
  import opened SplitRetryBounds
  import opened Keys
  import opened Flush
  import opened FlushTheorems

  ghost predicate AnyBad(rows: seq<NewEvent>, badRow: NewEvent -> bool) {
    exists i :: 0 <= i < |rows| && badRow(rows[i])
  }

  /** The row of an event, given what the lookup of instant `n` finds. */
  function RowAt(env: Env, n: nat, event: CaptureEvent): NewEvent
    requires env.select(n).Ok?
  {
    ToNewEventRow(ToLoggedEvent(env.enrich, env.select(n).value, event))
  }

  /**
   * Lookups, PUTs and queue writes succeed; an INSERT is refused, with a row fault, exactly for bad rows.
   * A row is bad for its event or for what is derived from it, as long as every lookup agrees on it.
   */
  ghost predicate RefusesBadRows(env: Env, bad: CaptureEvent -> bool, badRow: NewEvent -> bool, fault: Thrown) {
    && Classify(fault) == RowFault
    && (forall n :: env.select(n).Ok? && env.put(n) == Reply(true, None) && env.send(n) == Reply(true, None))
    && (forall n, e :: badRow(RowAt(env, n, e)) == bad(e))
    && (forall n, rows :: env.insert(n, rows) == if AnyBad(rows, badRow) then Reply(false, Some(fault))
      else Reply(true, None))
  }

  lemma {:induction false} BadEventsMakeBadRows(bad: CaptureEvent -> bool, badRow: NewEvent -> bool,
      logged: seq<LoggedEvent>)
    requires forall i :: 0 <= i < |logged| ==> badRow(ToNewEventRow(logged[i])) == bad(logged[i].event)
    ensures AnyBad(RowsOf(logged), badRow) <==> HasBad(EventsOf(logged), bad)
  {
    var events := EventsOf(logged);
    if HasBad(events, bad) {
      var e := Filter(events, bad)[0];
      FilterMembers(events, bad, e);
      var i :| 0 <= i < |events| && events[i] == e;
      assert badRow(RowsOf(logged)[i]);
    }
    if AnyBad(RowsOf(logged), badRow) {
      var i :| 0 <= i < |RowsOf(logged)| && badRow(RowsOf(logged)[i]);
      assert RowsOf(logged)[i] == ToNewEventRow(logged[i]) && events[i] in events && bad(events[i]);
      FilterMembers(events, bad, events[i]);
    }
  }

  function EventKeys(events: seq<CaptureEvent>): set<EventKey> {
    set e | e in events :: e.Key()
  }

  lemma RowsHaveEventKeys(logged: seq<LoggedEvent>)
    ensures KeysOf(RowsOf(logged)) == EventKeys(EventsOf(logged))
  {
    RowKeys(logged);
    forall k | k in KeysOf(RowsOf(logged)) ensures k in EventKeys(EventsOf(logged)) {
      var i :| 0 <= i < |logged| && logged[i].event.Key() == k;
      assert EventsOf(logged)[i] in EventsOf(logged);
    }
    forall k | k in EventKeys(EventsOf(logged)) ensures k in KeysOf(RowsOf(logged)) {
      var e :| e in EventsOf(logged) && e.Key() == k;
      var i :| 0 <= i < |logged| && EventsOf(logged)[i] == e;
      assert logged[i].event.Key() == k;
    }
  }

  lemma LookedUpBadly(env: Env, bad: CaptureEvent -> bool, badRow: NewEvent -> bool, fault: Thrown, n: nat,
      events: seq<CaptureEvent>)
    requires RefusesBadRows(env, bad, badRow, fault)
    ensures var logged := LoggedBy(env.enrich, env.select(n).value, events);
            EventsOf(logged) == events && (AnyBad(RowsOf(logged), badRow) <==> HasBad(events, bad))
  {
    var logged := LoggedBy(env.enrich, env.select(n).value, events);
    assert EventsOf(logged) == events;
    hide HasBad, AnyBad;
    assert forall i :: 0 <= i < |logged| ==> ToNewEventRow(logged[i]) == RowAt(env, n, events[i]);
    BadEventsMakeBadRows(bad, badRow, logged);
  }

  /** One call: it fails exactly on bad events, leaves the queue alone, and otherwise adds the batch's keys. */
  lemma FlushOnBadRows(env: Env, bad: CaptureEvent -> bool, badRow: NewEvent -> bool, fault: Thrown,
                       w: World, events: seq<CaptureEvent>, id: string)
    requires RefusesBadRows(env, bad, badRow, fault)
    ensures var (w', error) := FlushBatchRun(env, w, events, id);
            && (error == if HasBad(events, bad) then Some(fault) else None)
            && w'.stores.dlq == w.stores.dlq
            && w'.stores.table.Keys == w.stores.table.Keys + (if HasBad(events, bad) then {} else EventKeys(events))
  {
    if events != [] {
      FlushSelects(env, w, events, id);
      hide FlushBatchRun, StoreBatch, AnyBad;
      var logged := LoggedBy(env.enrich, env.select(w.now).value, events);
      assert EventsOf(logged) == events && AnyBad(RowsOf(logged), badRow) == HasBad(events, bad) by {
        LookedUpBadly(env, bad, badRow, fault, w.now, events);
      }
      hide RefusesBadRows, HasBad;
      RowsHaveEventKeys(logged);
      StoreOnBadRows(env, bad, badRow, fault, w.(now := w.now + 1), EventBatchKey(id, events[0].occurredAt), logged,
        events);
    }
  }

  lemma FlushSelects(env: Env, w: World, events: seq<CaptureEvent>, id: string)
    requires events != [] && env.select(w.now).Ok?
    ensures FlushBatchRun(env, w, events, id) ==
            StoreBatch(env, w.(now := w.now + 1), EventBatchKey(id, events[0].occurredAt),
                       LoggedBy(env.enrich, env.select(w.now).value, events), events)
  {
  }

  lemma StoreOnBadRows(env: Env, bad: CaptureEvent -> bool, badRow: NewEvent -> bool, fault: Thrown,
                       w: World, key: string, logged: seq<LoggedEvent>, events: seq<CaptureEvent>)
    requires RefusesBadRows(env, bad, badRow, fault)
    ensures var (w', error) := StoreBatch(env, w, key, logged, events);
            && (error == if AnyBad(RowsOf(logged), badRow) then Some(fault) else None)
            && w'.stores.dlq == w.stores.dlq
            && w'.stores.table.Keys == w.stores.table.Keys + (if AnyBad(RowsOf(logged), badRow) then {}
              else KeysOf(RowsOf(logged)))
  {
    assert env.put(w.now) == Reply(true, None);
    var p := PutsFrom(PutOnce(env, key, logged), R2_MAX_ATTEMPTS, R2_INITIAL_DELAY_MS, w, 1);
    assert p.outcome == Succeeded(1);
    InsertMeaning(p.world.stores.table, RowsOf(logged));
  }

  lemma ProductionFailsOnBadRows(env: Env, bad: CaptureEvent -> bool, badRow: NewEvent -> bool, fault: Thrown)
    requires RefusesBadRows(env, bad, badRow, fault)
    ensures FailsExactlyOnBadRows(ProductionConfig(env), bad)
  {
    forall w, events, id
      ensures var error := ProductionConfig(env).flush(w, events, id).1;
              && (error.Some? <==> HasBad(events, bad))
              && (error.Some? ==> ProductionConfig(env).classify(error.value) == RowFault)
    {
      FlushOnBadRows(env, bad, badRow, fault, w, events, id);
    }
  }

  /** The stores after a run of tries: the queue as before, and the keys added if it succeeded. */
  ghost predicate Added(w: World, w': World, keys: set<EventKey>) {
    w'.stores.dlq == w.stores.dlq && w'.stores.table.Keys == w.stores.table.Keys + keys
  }

  lemma {:induction false} TriesAdd(env: Env, bad: CaptureEvent -> bool, badRow: NewEvent -> bool, fault: Thrown,
                                    w: World, events: seq<CaptureEvent>, id: string, attempt: nat)
    requires RefusesBadRows(env, bad, badRow, fault) && 1 <= attempt <= SPLIT_RETRY_MAX_ATTEMPTS_PER_BATCH
    ensures var t := TriesFrom(ProductionConfig(env), w, events, id, attempt);
            && (t.lastError == if HasBad(events, bad) then Some(fault) else None)
            && Added(w, t.world, if HasBad(events, bad) then {} else EventKeys(events))
    decreases SPLIT_RETRY_MAX_ATTEMPTS_PER_BATCH - attempt
  {
    hide FlushBatchRun, RefusesBadRows, EventKeys;
    var cfg := ProductionConfig(env);
    FlushOnBadRows(env, bad, badRow, fault, w, events, id);
    var (w1, error) := FlushBatchRun(env, w, events, id);
    assert (w1, error) == cfg.flush(w, events, id);
    if error.Some? && attempt < SPLIT_RETRY_MAX_ATTEMPTS_PER_BATCH {
      TriesAdd(env, bad, badRow, fault, w1, events, id, attempt + 1);
    }
  }

  lemma KeysTogether(a: seq<CaptureEvent>, b: seq<CaptureEvent>)
    ensures EventKeys(a + b) == EventKeys(a) + EventKeys(b)
  {
  }

  lemma {:induction false} AttemptAdds(env: Env, bad: CaptureEvent -> bool, badRow: NewEvent -> bool, fault: Thrown,
                                       w: World, events: seq<CaptureEvent>, id: string)
    requires RefusesBadRows(env, bad, badRow, fault) && events != []
    ensures var run := AttemptRun(ProductionConfig(env), w, events, id);
            run.outcome.Resolved? && Added(w, run.world, EventKeys(Filter(events, Good(bad))))
    decreases |events|
  {
    hide AttemptRun, TriesFrom, RefusesBadRows;
    var cfg := ProductionConfig(env);
    var t := TriesFrom(cfg, w, events, id, 1);
    TriesAdd(env, bad, badRow, fault, w, events, id, 1);
    FaultIsRowFault(env, bad, badRow, fault);
    if HasBad(events, bad) && |events| > 1 {
      RunOfSplit(cfg, w, events, id);
      var mid := Mid(|events|);
      var l, r := events[..mid], events[mid..];
      assert l + r == events;
      FilterAppend(l, r, Good(bad));
      KeysTogether(Filter(l, Good(bad)), Filter(r, Good(bad)));
      AttemptAdds(env, bad, badRow, fault, t.world, l, id + ".0");
      AttemptAdds(env, bad, badRow, fault, AttemptRun(cfg, t.world, l, id + ".0").world, r, id + ".1");
    } else {
      RunOfLeaf(cfg, w, events, id);
      if !HasBad(events, bad) { NoneBad(events, bad); } else { OnlyBad(events, bad); }
    }
  }

  lemma FaultIsRowFault(env: Env, bad: CaptureEvent -> bool, badRow: NewEvent -> bool, fault: Thrown)
    requires RefusesBadRows(env, bad, badRow, fault)
    ensures ProductionConfig(env).classify(fault) == RowFault
  {
  }

  lemma OnlyBad(events: seq<CaptureEvent>, bad: CaptureEvent -> bool)
    requires |events| == 1 && HasBad(events, bad)
    ensures Filter(events, Good(bad)) == []
  {
    assert events[1..] == [];
    assert Filter(events[1..], bad) == [] && Filter(events[1..], Good(bad)) == [];
  }

  lemma {:induction false} PoisonIsSent(env: Env, w: World, poison: seq<Poisoned<CaptureEvent>>)
    requires forall n :: env.send(n) == Reply(true, None)
    ensures var (w', error) := SendPoison(env, w, poison);
            error.None? && w'.stores.table == w.stores.table
              && w'.stores.dlq == w.stores.dlq + Map(e => FlushPoison(e), PoisonEvents(poison))
    decreases |poison|
  {
    if poison != [] {
      var entry := FlushPoison(poison[0].event);
      var (w1, error) := Send(env, w, entry);
      assert env.send(w.now) == Reply(true, None);
      PoisonIsSent(env, w1, poison[1..]);
      assert PoisonEvents(poison) == [poison[0].event] + PoisonEvents(poison[1..]);
      assert Map(e => FlushPoison(e), PoisonEvents(poison)) == [entry]
        + Map(e => FlushPoison(e), PoisonEvents(poison[1..]));
    } else {
      assert PoisonEvents(poison) == [];
      assert w.stores.dlq + [] == w.stores.dlq;
    }
  }

  /**
   * Exactly the good events reach Postgres and exactly the bad ones the dead-letter queue, one entry
   * each and in input order; the flush resolves.
   */
  lemma BadRowsAreDeadLettered(env: Env, bad: CaptureEvent -> bool, badRow: NewEvent -> bool, fault: Thrown,
                               w: World, events: seq<CaptureEvent>, batchId: string)
    requires RefusesBadRows(env, bad, badRow, fault)
    ensures var (w', error) := ProductionFlushRun(env, w, events, batchId);
            && error.None?
            && w'.stores.table.Keys == w.stores.table.Keys + EventKeys(Filter(events, Good(bad)))
            && w'.stores.dlq == w.stores.dlq + Map(e => FlushPoison(e), Filter(events, bad))
  {
    if events != [] {
      ProductionFailsOnBadRows(env, bad, badRow, fault);
      PoisonIsolationIsExact(ProductionConfig(env), bad, w, events, batchId);
      AttemptAdds(env, bad, badRow, fault, w, events, batchId);
    }
    hide AttemptRun;
    var run := RetryWithSplitRun(ProductionConfig(env), w, events, batchId);
    PoisonIsSent(env, run.world, run.outcome.poison);
  }
}
