/** What the coupling of R2 and Postgres guarantees for one production flush. */
module FlushTheorems {
  import opened Prelude
  import opened ClassifyFlushError
  import opened EventsTable
  import opened R2Retry
  import opened Keys
  import opened KeysTheorems
  import opened SplitRetry
  import opened SplitRetryTheorems
  import opened Flush

  // ---------------------------------------------------------------------------------------------
  // The projection of one event
  // ---------------------------------------------------------------------------------------------

  /** A row never holds a NUL in a signal; a signal that had none is kept as it was, one that had one is null. */
  lemma RowSignals(logged: LoggedEvent, i: nat)
    requires i < |logged.event.signals|
    ensures var was, now := logged.event.signals[i], ToNewEventRow(logged).signals[i];
            && (now.Some? ==> NUL !in now.value)
            && (now == was <==> was.None? || NUL !in was.value)
            && (now != was ==> now.None?)
  {
  }

  /** No signal of the event holds a NUL. */
  predicate NulFree(logged: LoggedEvent) {
    forall i :: 0 <= i < |logged.event.signals| && logged.event.signals[i].Some? ==>
      NUL !in logged.event.signals[i].value
  }

  /** The logged event with the signals that Postgres would refuse taken out. */
  function WithoutNul(logged: LoggedEvent): LoggedEvent {
    logged.(event := logged.event.(signals := Map(SanitizeForPostgresText, logged.event.signals)))
  }

  /**
   * The projection loses nothing but signals with a NUL: every row is the row of exactly one logged
   * event without NUL, and that is the event it came from if and only if that one held none.
   */
  lemma RowHasOneSource(logged: LoggedEvent)
    ensures NulFree(WithoutNul(logged)) && ToNewEventRow(WithoutNul(logged)) == ToNewEventRow(logged)
    ensures forall other :: NulFree(other) && ToNewEventRow(other) == ToNewEventRow(logged) ==>
      other == WithoutNul(logged)
    ensures NulFree(logged) <==> WithoutNul(logged) == logged
  {
    SameWithoutNul(logged);
    SameWithoutNul(WithoutNul(logged));
    forall other | NulFree(other) && ToNewEventRow(other) == ToNewEventRow(logged) ensures other == WithoutNul(logged) {
      SameWithoutNul(other);
    }
  }

  lemma SameWithoutNul(logged: LoggedEvent)
    ensures NulFree(logged) <==> Map(SanitizeForPostgresText, logged.event.signals) == logged.event.signals
  {
    var was, now := logged.event.signals, Map(SanitizeForPostgresText, logged.event.signals);
    if NulFree(logged) {
      assert forall i :: 0 <= i < |was| ==> now[i] == was[i];
    } else {
      var i :| 0 <= i < |was| && was[i].Some? && NUL in was[i].value;
      assert now[i] == None;
    }
  }

  /** Of the links that were found, those of one tenant. */
  function LinksOf(tenantId: string, found: map<string, LinkRow>): map<string, LinkRow> {
    map id | id in found && found[id].tenantId == tenantId :: found[id]
  }

  /**
   * What is derived for a tenant's event depends on that tenant's links only: whatever other links the
   * lookup finds, under whatever ids, the logged event is the same.
   */
  lemma OtherTenantsLinksDoNotShow(enrich: Enrich, f: map<string, LinkRow>, g: map<string, LinkRow>,
      events: seq<CaptureEvent>, i: nat)
    requires i < |events| && LinksOf(events[i].tenantId, f) == LinksOf(events[i].tenantId, g)
    ensures LoggedBy(enrich, f, events)[i] == LoggedBy(enrich, g, events)[i]
  {
    var e := events[i];
    assert (e.linkId in f && f[e.linkId].tenantId == e.tenantId) <==> e.linkId in LinksOf(e.tenantId, f);
    assert (e.linkId in g && g[e.linkId].tenantId == e.tenantId) <==> e.linkId in LinksOf(e.tenantId, g);
  }

  /** The row's columns are those of the event; a signal that holds a NUL is null, and all others are kept. */
  predicate Projects(row: NewEvent, e: CaptureEvent) {
    && row.eventId == e.eventId && row.occurredAt == e.occurredAt && row.tenantId == e.tenantId
    && row.linkId == e.linkId && row.slug == e.slug && row.asn == e.asn && |row.signals| == |e.signals|
    && forall i :: 0 <= i < |e.signals| ==>
         row.signals[i] == if e.signals[i].Some? && (0 as char) in e.signals[i].value then None else e.signals[i]
  }

  /** The destination that an event of this link and tenant is enriched with: its own tenant's link's, if found. */
  ghost predicate IsDestination(found: map<string, LinkRow>, e: CaptureEvent, destination: Option<string>) {
    forall url :: destination == Some(url) <==>
      e.linkId in found && found[e.linkId].tenantId == e.tenantId && found[e.linkId].destination == url
  }

  /**
   * What a flush writes for its events, given what the lookup found: in both stores one record for each
   * event, in order, with the event as it came and what is derived from it and from its own tenant's link.
   */
  lemma RecordsOfABatch(enrich: Enrich, found: map<string, LinkRow>, events: seq<CaptureEvent>)
    ensures var logged := LoggedBy(enrich, found, events);
            var rows := RowsOf(logged);
            && |logged| == |rows| == |events|
            && forall i :: 0 <= i < |events| ==>
                 && logged[i].event == events[i] && Projects(rows[i], events[i])
                 && rows[i].enrichment == logged[i].enrichment
                 && exists d :: IsDestination(found, events[i], d) && logged[i].enrichment == enrich(events[i], d)
  {
    var logged := LoggedBy(enrich, found, events);
    forall i | 0 <= i < |events|
      ensures exists d :: IsDestination(found, events[i], d) && logged[i].enrichment == enrich(events[i], d)
    {
      var e := events[i];
      var own := e.linkId in found && found[e.linkId].tenantId == e.tenantId;
      assert IsDestination(found, e, if own then Some(found[e.linkId].destination) else None);
    }
  }

  lemma RowKeys(logged: seq<LoggedEvent>)
    ensures forall k :: k in KeysOf(RowsOf(logged)) <==> exists i :: 0 <= i < |logged| && logged[i].event.Key() == k
  {
    forall i | 0 <= i < |logged| ensures logged[i].event.Key() in KeysOf(RowsOf(logged)) {
      assert RowsOf(logged)[i].Key() == logged[i].event.Key();
    }
    forall k | k in KeysOf(RowsOf(logged)) ensures exists i :: 0 <= i < |logged| && logged[i].event.Key() == k {
      var row :| row in RowsOf(logged) && row.Key() == k;
      var i :| 0 <= i < |logged| && RowsOf(logged)[i] == row;
      assert logged[i].event.Key() == k;
    }
  }

  // ---------------------------------------------------------------------------------------------
  // Keys of the nodes of split trees
  // ---------------------------------------------------------------------------------------------

  /** The object key under which one sub-batch is filed, on each of its attempts. */
  function NodeKey(base: string, batch: seq<CaptureEvent>, path: seq<bool>): string
    requires SubBatch(batch, path) != []
  {
    EventBatchKey(NodeId(base, path), SubBatch(batch, path)[0].occurredAt)
  }

  /** A ULID: no dot, no slash. */
  predicate PlainId(id: string) { '.' !in id && '/' !in id }

  /** Distinct nodes, of the same batch or of different ones, have distinct object keys. */
  lemma NodeKeyInjective(b1: string, batch1: seq<CaptureEvent>, p1: seq<bool>, b2: string, batch2: seq<CaptureEvent>,
      p2: seq<bool>)
    requires PlainId(b1) && PlainId(b2)
    requires SubBatch(batch1, p1) != [] && SubBatch(batch2, p2) != []
    requires NodeKey(b1, batch1, p1) == NodeKey(b2, batch2, p2)
    ensures b1 == b2 && p1 == p2
  {
    NodeIdHasNoSlash(b1, p1);
    NodeIdHasNoSlash(b2, p2);
    KeyDeterminesBatch(NodeId(b1, p1), SubBatch(batch1, p1)[0].occurredAt, NodeId(b2, p2),
      SubBatch(batch2, p2)[0].occurredAt);
    NodeIdInjective(b1, p1, b2, p2);
  }

  // ---------------------------------------------------------------------------------------------
  // Durability and coverage
  // ---------------------------------------------------------------------------------------------

  ghost predicate Archived(s: Stores, e: CaptureEvent) {
    exists k, i :: k in s.r2 && 0 <= i < |s.r2[k]| && s.r2[k][i].event == e
  }

  ghost predicate InDlq(s: Stores, e: CaptureEvent) {
    exists i :: 0 <= i < |s.dlq| && s.dlq[i].Holds(e)
  }

  /** Where invariant 7 of the repository lets an event end: in both stores, or in the queue. */
  ghost predicate Durable(s: Stores, e: CaptureEvent) {
    (Archived(s, e) && e.Key() in s.table) || InDlq(s, e)
  }

  /** The row that an event projects to with this enrichment. */
  function RowOf(e: CaptureEvent, enrichment: Enrichment): NewEvent { ToNewEventRow(LoggedEvent(e, enrichment)) }

  /**
   * The row is the projection of some archived event. The enrichment may differ from the archived
   * one: each attempt at a flush resolves destinations anew, and a later attempt may overwrite the
   * object that an earlier one stored.
   */
  ghost predicate RowArchived(s: Stores, row: NewEvent) {
    exists k, i :: k in s.r2 && 0 <= i < |s.r2[k]| && RowOf(s.r2[k][i].event, row.enrichment) == row
  }

  /** R2 covers Postgres: every row of the table is the projection of an event of some stored object. */
  ghost predicate Covered(s: Stores) {
    forall key :: key in s.table ==> s.table[key].Key() == key && RowArchived(s, s.table[key])
  }

  /** No store forgets: rows, objects' event lists and queue entries stay. */
  ghost predicate Extends(s: Stores, t: Stores) {
    && (forall key :: key in s.table ==> key in t.table && t.table[key] == s.table[key])
    && (forall k :: k in s.r2 ==> k in t.r2 && EventsOf(t.r2[k]) == EventsOf(s.r2[k]))
    && s.dlq <= t.dlq
  }

  lemma ExtendsSelf(s: Stores)
    ensures Extends(s, s)
  {
  }

  lemma ExtendsTransitive(s: Stores, t: Stores, u: Stores)
    requires Extends(s, t) && Extends(t, u)
    ensures Extends(s, u)
  {
  }

  lemma StaysArchived(s: Stores, t: Stores, e: CaptureEvent)
    requires Extends(s, t)
    ensures Archived(s, e) ==> Archived(t, e)
  {
    if Archived(s, e) {
      var k, i :| k in s.r2 && 0 <= i < |s.r2[k]| && s.r2[k][i].event == e;
      assert EventsOf(t.r2[k])[i] == EventsOf(s.r2[k])[i];
      assert t.r2[k][i].event == e;
    }
  }

  lemma StaysRowArchived(s: Stores, t: Stores, row: NewEvent)
    requires Extends(s, t)
    ensures RowArchived(s, row) ==> RowArchived(t, row)
  {
    if RowArchived(s, row) {
      var k, i :| k in s.r2 && 0 <= i < |s.r2[k]| && RowOf(s.r2[k][i].event, row.enrichment) == row;
      assert EventsOf(t.r2[k])[i] == EventsOf(s.r2[k])[i];
      assert RowOf(t.r2[k][i].event, row.enrichment) == row;
    }
  }

  lemma StaysCovered(s: Stores, t: Stores)
    requires Extends(s, t) && t.table == s.table
    ensures Covered(s) ==> Covered(t)
  {
    if Covered(s) {
      forall key | key in t.table ensures t.table[key].Key() == key && RowArchived(t, t.table[key]) {
        StaysRowArchived(s, t, s.table[key]);
      }
    }
  }

  lemma StaysDurable(s: Stores, t: Stores, e: CaptureEvent)
    requires Extends(s, t)
    ensures Durable(s, e) ==> Durable(t, e)
  {
    StaysArchived(s, t, e);
    if InDlq(s, e) {
      var i :| 0 <= i < |s.dlq| && s.dlq[i].Holds(e);
      assert t.dlq[i].Holds(e);
    }
  }

  /** An object of this content may be written at `key` without forgetting anything. */
  ghost predicate MayPut(s: Stores, key: string, logged: seq<LoggedEvent>) {
    key in s.r2 ==> EventsOf(s.r2[key]) == EventsOf(logged)
  }

  /** A write to R2 archives its events and forgets none, given that a key always carries the same events. */
  lemma PutKeeps(s: Stores, key: string, logged: seq<LoggedEvent>)
    requires MayPut(s, key, logged)
    ensures var t := s.(r2 := s.r2[key := logged]);
            && Extends(s, t)
            && (forall i :: 0 <= i < |logged| ==> Archived(t, logged[i].event))
            && (Covered(s) ==> Covered(t))
  {
    var t := s.(r2 := s.r2[key := logged]);
    forall i | 0 <= i < |logged| ensures Archived(t, logged[i].event) {
      assert t.r2[key][i].event == logged[i].event;
    }
    StaysCovered(s, t);
  }

  /** An insert of archived events keeps R2 ahead of Postgres. */
  lemma InsertKeeps(s: Stores, logged: seq<LoggedEvent>)
    requires forall i :: 0 <= i < |logged| ==> Archived(s, logged[i].event)
    ensures var t := s.(table := InsertAll(s.table, RowsOf(logged)));
            && Extends(s, t)
            && (forall i :: 0 <= i < |logged| ==> Durable(t, logged[i].event))
            && (Covered(s) ==> Covered(t))
  {
    var rows := RowsOf(logged);
    var t := s.(table := InsertAll(s.table, rows));
    InsertMeaning(s.table, rows);
    RowKeys(logged);
    forall i | 0 <= i < |logged| ensures Durable(t, logged[i].event) {
      StaysArchived(s, t, logged[i].event);
      assert logged[i].event.Key() in KeysOf(rows);
    }
    if Covered(s) {
      forall key | key in t.table ensures t.table[key].Key() == key && RowArchived(t, t.table[key]) {
        if key in s.table {
          StaysRowArchived(s, t, s.table[key]);
        } else {
          var i := FirstWriter(rows, key);
          assert t.table[key] == rows[i] == RowOf(logged[i].event, logged[i].enrichment);
          EventIsArchived(t, logged[i].event, logged[i].enrichment);
        }
      }
    }
  }

  lemma EventIsArchived(s: Stores, e: CaptureEvent, enrichment: Enrichment)
    requires Archived(s, e)
    ensures RowArchived(s, RowOf(e, enrichment))
  {
    var k, i :| k in s.r2 && 0 <= i < |s.r2[k]| && s.r2[k][i].event == e;
    assert RowOf(s.r2[k][i].event, enrichment) == RowOf(e, enrichment);
  }

  lemma SendKeeps(s: Stores, entry: DlqEntry)
    ensures var t := s.(dlq := s.dlq + [entry]);
            && Extends(s, t)
            && (forall e :: entry.Holds(e) ==> Durable(t, e))
            && (Covered(s) ==> Covered(t))
  {
    var t := s.(dlq := s.dlq + [entry]);
    forall e | entry.Holds(e) ensures Durable(t, e) {
      assert t.dlq[|s.dlq|].Holds(e);
    }
    StaysCovered(s, t);
  }

  // ---------------------------------------------------------------------------------------------
  // One call of flushBatch
  // ---------------------------------------------------------------------------------------------

  /** Whatever R2 holds under the keys of this batch's tree, it holds the right events. */
  ghost predicate Fits(s: Stores, base: string, batch: seq<CaptureEvent>) {
    forall path | SubBatch(batch, path) != [] ::
      NodeKey(base, batch, path) in s.r2 ==> EventsOf(s.r2[NodeKey(base, batch, path)]) == SubBatch(batch, path)
  }

  lemma PutFits(s: Stores, base: string, batch: seq<CaptureEvent>, path: seq<bool>, logged: seq<LoggedEvent>)
    requires PlainId(base) && Fits(s, base, batch)
    requires SubBatch(batch, path) != [] && EventsOf(logged) == SubBatch(batch, path)
    ensures MayPut(s, NodeKey(base, batch, path), logged)
    ensures Fits(s.(r2 := s.r2[NodeKey(base, batch, path) := logged]), base, batch)
  {
    var key := NodeKey(base, batch, path);
    var t := s.(r2 := s.r2[key := logged]);
    forall other | SubBatch(batch, other) != [] && NodeKey(base, batch, other) in t.r2
      ensures EventsOf(t.r2[NodeKey(base, batch, other)]) == SubBatch(batch, other)
    {
      if NodeKey(base, batch, other) == key {
        NodeKeyInjective(base, batch, other, base, batch, path);
      } else {
        assert NodeKey(base, batch, other) in s.r2;
      }
    }
  }

  ghost predicate Healthy(s: Stores, base: string, batch: seq<CaptureEvent>) {
    Fits(s, base, batch) && Covered(s)
  }

  ghost predicate AllArchived(s: Stores, logged: seq<LoggedEvent>) {
    forall i :: 0 <= i < |logged| ==> Archived(s, logged[i].event)
  }

  lemma OnePutKeeps(env: Env, w: World, base: string, batch: seq<CaptureEvent>, path: seq<bool>,
      logged: seq<LoggedEvent>)
    requires env.Honest() && PlainId(base) && Healthy(w.stores, base, batch)
    requires SubBatch(batch, path) != [] && EventsOf(logged) == SubBatch(batch, path)
    ensures var (w1, error) := PutOnce(env, NodeKey(base, batch, path), logged)(w);
            && Healthy(w1.stores, base, batch) && Extends(w.stores, w1.stores)
            && (error.None? ==> AllArchived(w1.stores, logged))
  {
    hide SubBatch, NodeKey, Covered, Fits, MayPut;
    var key := NodeKey(base, batch, path);
    PutFits(w.stores, base, batch, path, logged);
    PutKeeps(w.stores, key, logged);
    assert env.put(w.now).Honest();
  }

  lemma {:induction false} PutsKeep(env: Env, w: World, base: string, batch: seq<CaptureEvent>, path: seq<bool>,
                                    logged: seq<LoggedEvent>, attempt: nat)
    requires env.Honest() && PlainId(base) && Healthy(w.stores, base, batch) && 1 <= attempt <= R2_MAX_ATTEMPTS
    requires SubBatch(batch, path) != [] && EventsOf(logged) == SubBatch(batch, path)
    ensures var key := NodeKey(base, batch, path);
            var p := PutsFrom(PutOnce(env, key, logged), R2_MAX_ATTEMPTS, R2_INITIAL_DELAY_MS, w, attempt);
            && Healthy(p.world.stores, base, batch) && Extends(w.stores, p.world.stores)
            && (p.outcome.Succeeded? ==> AllArchived(p.world.stores, logged))
    decreases R2_MAX_ATTEMPTS - attempt
  {
    hide SubBatch, NodeKey, Healthy, Extends, AllArchived, PutOnce, ClassifyR2Error, PlainId;
    var put := PutOnce(env, NodeKey(base, batch, path), logged);
    var (w1, error) := put(w);
    OnePutKeeps(env, w, base, batch, path, logged);
    if error.Some? && ClassifyR2Error(error.value) == Retryable && attempt < R2_MAX_ATTEMPTS {
      PutsKeep(env, w1, base, batch, path, logged, attempt + 1);
      ExtendsTransitive(w.stores, w1.stores,
        PutsFrom(put, R2_MAX_ATTEMPTS, R2_INITIAL_DELAY_MS, w1, attempt + 1).world.stores);
    }
  }

  lemma SameTable(s: Stores, t: Stores, base: string, batch: seq<CaptureEvent>)
    requires Fits(s, base, batch) && s.r2 == t.r2
    ensures Fits(t, base, batch)
  {
  }

  /**
   * A sub-batch whose `flushBatch` resolves is durable event by event, and whatever the outcome R2
   * still covers Postgres and nothing stored before is forgotten. `committedEvents` thus includes a
   * sub-batch that went whole to the queue.
   */
  lemma FlushBatchKeeps(env: Env, w: World, base: string, batch: seq<CaptureEvent>, path: seq<bool>)
    requires env.Honest() && PlainId(base) && Healthy(w.stores, base, batch) && SubBatch(batch, path) != []
    ensures var (w', error) := FlushBatchRun(env, w, SubBatch(batch, path), NodeId(base, path));
            && Healthy(w'.stores, base, batch) && Extends(w.stores, w'.stores)
            && (error.None? ==> forall e :: e in SubBatch(batch, path) ==> Durable(w'.stores, e))
  {
    var selected := env.select(w.now);
    FlushBatchUnfolds(env, w, base, batch, path);
    if selected.Ok? {
      var logged := LoggedBy(env.enrich, selected.value, SubBatch(batch, path));
      assert EventsOf(logged) == SubBatch(batch, path);
      StoreBatchKeeps(env, w.(now := w.now + 1), base, batch, path, logged);
    }
  }

  lemma FlushBatchUnfolds(env: Env, w: World, base: string, batch: seq<CaptureEvent>, path: seq<bool>)
    requires SubBatch(batch, path) != []
    ensures var events, selected, w1 := SubBatch(batch, path), env.select(w.now), w.(now := w.now + 1);
            FlushBatchRun(env, w, events, NodeId(base, path)) ==
            if selected.Err? then (w1, Some(selected.error))
            else StoreBatch(env, w1, NodeKey(base, batch, path), LoggedBy(env.enrich, selected.value, events), events)
  {
  }

  lemma StoreBatchKeeps(env: Env, w: World, base: string, batch: seq<CaptureEvent>, path: seq<bool>,
      logged: seq<LoggedEvent>)
    requires env.Honest() && PlainId(base) && Healthy(w.stores, base, batch)
    requires SubBatch(batch, path) != [] && EventsOf(logged) == SubBatch(batch, path)
    ensures var (w', failed) := StoreBatch(env, w, NodeKey(base, batch, path), logged, SubBatch(batch, path));
            && Healthy(w'.stores, base, batch) && Extends(w.stores, w'.stores)
            && (failed.None? ==> forall e :: e in SubBatch(batch, path) ==> Durable(w'.stores, e))
  {
    hide SubBatch, NodeKey, Healthy, Extends, Durable, PutsFrom, PutOnce;
    var events := SubBatch(batch, path);
    PutsKeep(env, w, base, batch, path, logged, 1);
    var p := PutsFrom(PutOnce(env, NodeKey(base, batch, path), logged), R2_MAX_ATTEMPTS, R2_INITIAL_DELAY_MS, w, 1);
    if p.outcome.Succeeded? {
      InsertOnceKeeps(env, p.world, base, batch, logged);
      EventsAreLogged(logged, events);
      ExtendsTransitive(w.stores, p.world.stores, Insert(env, p.world, RowsOf(logged)).0.stores);
    } else {
      SendOnceKeeps(env, p.world, base, batch, R2PutFailed(events));
      ExtendsTransitive(w.stores, p.world.stores, Send(env, p.world, R2PutFailed(events)).0.stores);
      assert forall e :: e in events ==> R2PutFailed(events).Holds(e);
    }
  }

  lemma EventsAreLogged(logged: seq<LoggedEvent>, events: seq<CaptureEvent>)
    requires EventsOf(logged) == events
    ensures forall e :: e in events ==> exists i :: 0 <= i < |logged| && logged[i].event == e
  {
    forall e | e in events ensures exists i :: 0 <= i < |logged| && logged[i].event == e {
      var i :| 0 <= i < |events| && events[i] == e;
      assert EventsOf(logged)[i] == e;
    }
  }

  lemma InsertOnceKeeps(env: Env, w: World, base: string, batch: seq<CaptureEvent>, logged: seq<LoggedEvent>)
    requires env.Honest() && Healthy(w.stores, base, batch) && AllArchived(w.stores, logged)
    ensures var (w1, error) := Insert(env, w, RowsOf(logged));
            && Healthy(w1.stores, base, batch) && Extends(w.stores, w1.stores)
            && (error.None? ==> forall i :: 0 <= i < |logged| ==> Durable(w1.stores, logged[i].event))
  {
    hide Covered, Fits, Durable;
    assert env.insert(w.now, RowsOf(logged)).Honest();
    InsertKeeps(w.stores, logged);
    SameTable(w.stores, Insert(env, w, RowsOf(logged)).0.stores, base, batch);
  }

  lemma SendOnceKeeps(env: Env, w: World, base: string, batch: seq<CaptureEvent>, entry: DlqEntry)
    requires env.Honest() && Healthy(w.stores, base, batch)
    ensures var (w1, error) := Send(env, w, entry);
            && Healthy(w1.stores, base, batch) && Extends(w.stores, w1.stores)
            && (error.None? ==> forall e :: entry.Holds(e) ==> Durable(w1.stores, e))
  {
    hide Covered, Fits, Durable;
    assert env.send(w.now).Honest();
    SendKeeps(w.stores, entry);
    SameTable(w.stores, Send(env, w, entry).0.stores, base, batch);
  }

  // ---------------------------------------------------------------------------------------------
  // A whole production flush
  // ---------------------------------------------------------------------------------------------

  lemma {:induction false} TriesKeep(env: Env, w: World, base: string, batch: seq<CaptureEvent>, path: seq<bool>,
      attempt: nat)
    requires env.Honest() && PlainId(base) && Healthy(w.stores, base, batch) && SubBatch(batch, path) != []
    requires 1 <= attempt <= SPLIT_RETRY_MAX_ATTEMPTS_PER_BATCH
    ensures var t := TriesFrom(ProductionConfig(env), w, SubBatch(batch, path), NodeId(base, path), attempt);
            && Healthy(t.world.stores, base, batch) && Extends(w.stores, t.world.stores)
            && (t.lastError.None? ==> AllDurable(t.world.stores, SubBatch(batch, path)))
    decreases SPLIT_RETRY_MAX_ATTEMPTS_PER_BATCH - attempt
  {
    hide SubBatch, NodeId, FlushBatchRun, Healthy, Extends, Durable;
    var cfg := ProductionConfig(env);
    var events, id := SubBatch(batch, path), NodeId(base, path);
    FlushBatchKeeps(env, w, base, batch, path);
    var (w1, error) := FlushBatchRun(env, w, events, id);
    assert (w1, error) == cfg.flush(w, events, id);
    if error.Some? && attempt < SPLIT_RETRY_MAX_ATTEMPTS_PER_BATCH {
      TriesKeep(env, w1, base, batch, path, attempt + 1);
      ExtendsTransitive(w.stores, w1.stores, TriesFrom(cfg, w1, events, id, attempt + 1).world.stores);
    }
  }

  ghost predicate AllDurable(s: Stores, events: seq<CaptureEvent>) {
    forall e :: e in events ==> Durable(s, e)
  }

  lemma StayDurable(s: Stores, t: Stores, events: seq<CaptureEvent>)
    requires Extends(s, t) && AllDurable(s, events)
    ensures AllDurable(t, events)
  {
    forall e | e in events ensures Durable(t, e) { StaysDurable(s, t, e); }
  }

  lemma DurableTogether(s: Stores, a: seq<CaptureEvent>, b: seq<CaptureEvent>)
    requires AllDurable(s, a) && AllDurable(s, b)
    ensures AllDurable(s, a + b)
  {
  }

  lemma DurableNone(s: Stores)
    ensures AllDurable(s, [])
  {
  }

  lemma {:induction false} AttemptKeeps(env: Env, w: World, base: string, batch: seq<CaptureEvent>, path: seq<bool>)
    requires env.Honest() && PlainId(base) && Healthy(w.stores, base, batch) && SubBatch(batch, path) != []
    ensures var run := AttemptRun(ProductionConfig(env), w, SubBatch(batch, path), NodeId(base, path));
            && Healthy(run.world.stores, base, batch) && Extends(w.stores, run.world.stores)
            && (run.outcome.Resolved? ==> AllDurable(run.world.stores, run.outcome.committed))
    decreases |SubBatch(batch, path)|
  {
    hide Healthy, Extends, AllDurable;
    var cfg := ProductionConfig(env);
    var events, id := SubBatch(batch, path), NodeId(base, path);
    TriesKeep(env, w, base, batch, path, 1);
    DurableNone(w.stores);
    var t := TriesFrom(cfg, w, events, id, 1);
    DurableNone(t.world.stores);
    if t.lastError.Some? && Classify(t.lastError.value) == RowFault && |events| > 1 {
      OneLevelDown(base, batch, path, false);
      OneLevelDown(base, batch, path, true);
      var mid := Mid(|events|);
      AttemptKeeps(env, t.world, base, batch, path + [false]);
      var left := AttemptRun(cfg, t.world, events[..mid], id + ".0");
      ExtendsTransitive(w.stores, t.world.stores, left.world.stores);
      if left.outcome.Resolved? {
        AttemptKeeps(env, left.world, base, batch, path + [true]);
        var right := AttemptRun(cfg, left.world, events[mid..], id + ".1");
        ExtendsTransitive(w.stores, left.world.stores, right.world.stores);
        StayDurable(left.world.stores, right.world.stores, left.outcome.committed);
        if right.outcome.Resolved? {
          DurableTogether(right.world.stores, left.outcome.committed, right.outcome.committed);
        }
      }
    }
  }

  lemma {:induction false} SendPoisonKeeps(env: Env, w: World, base: string, batch: seq<CaptureEvent>,
      poison: seq<Poisoned<CaptureEvent>>)
    requires env.Honest() && Healthy(w.stores, base, batch)
    ensures var (w', error) := SendPoison(env, w, poison);
            && Healthy(w'.stores, base, batch) && Extends(w.stores, w'.stores)
            && (error.None? ==> AllDurable(w'.stores, PoisonEvents(poison)))
    decreases |poison|
  {
    hide Healthy, Durable, Extends;
    if poison != [] {
      var entry := FlushPoison(poison[0].event);
      var (w1, error) := Send(env, w, entry);
      SendOnceKeeps(env, w, base, batch, entry);
      if error.None? {
        SendPoisonKeeps(env, w1, base, batch, poison[1..]);
        var (w', rest) := SendPoison(env, w1, poison[1..]);
        ExtendsTransitive(w.stores, w1.stores, w'.stores);
        assert entry.Holds(poison[0].event);
        StaysDurable(w1.stores, w'.stores, poison[0].event);
        assert PoisonEvents(poison) == [poison[0].event] + PoisonEvents(poison[1..]);
        if rest.None? { DurableTogether(w'.stores, [poison[0].event], PoisonEvents(poison[1..])); }
      }
    } else {
      ExtendsSelf(w.stores);
    }
  }

  /**
   * The production flush, whatever the stores answer: R2 covers Postgres afterwards, nothing is
   * forgotten, and if the promise resolves every event of the batch is in both stores or in the
   * dead-letter queue.
   */
  lemma ProductionFlushIsDurable(env: Env, w: World, base: string, batch: seq<CaptureEvent>)
    requires env.Honest() && PlainId(base) && Healthy(w.stores, base, batch)
    ensures var (w', error) := ProductionFlushRun(env, w, batch, base);
            && Covered(w'.stores) && Extends(w.stores, w'.stores)
            && (error.None? ==> AllDurable(w'.stores, batch))
  {
    var cfg := ProductionConfig(env);
    var run := RetryWithSplitRun(cfg, w, batch, base);
    if batch != [] {
      assert SubBatch(batch, []) == batch && NodeId(base, []) == base;
      AttemptKeeps(env, w, base, batch, []);
    }
    ResolvedPartitions(cfg, w, batch, base);
    if run.outcome.Resolved? {
      var poison := run.outcome.poison;
      SendPoisonKeeps(env, run.world, base, batch, poison);
      var (w', error) := SendPoison(env, run.world, poison);
      ExtendsTransitive(w.stores, run.world.stores, w'.stores);
      if error.None? {
        StayDurable(run.world.stores, w'.stores, run.outcome.committed);
        forall e | e in batch ensures Durable(w'.stores, e) {
          assert e in multiset(batch);
          assert e in multiset(run.outcome.committed) || e in multiset(PoisonEvents(poison));
        }
      }
    }
  }
}
