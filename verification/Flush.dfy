/**
 * apps/worker/src/batch/flush.ts and the composition in apps/worker/src/app.module.ts: write one
 * batch to R2, then to Postgres, and send what cannot be written to the dead-letter queue.
 *
 * `enrich` (user agent, referer and destination host) is an uninterpreted function. The stores
 * answer as an `Env` dictates, call by call: every statement, PUT and queue write can succeed, fail
 * without effect, or take effect and still be reported as failed.
 */
module Flush {
  import opened Prelude
  import opened ClassifyFlushError
  import opened EventsTable
  import opened R2Retry
  import opened Keys
  import SplitRetry

  // ---------------------------------------------------------------------------------------------
  // One event
  // ---------------------------------------------------------------------------------------------

  /** `signals` starts with `user_agent` and `referer` and holds the 18 nullable text columns. */
  datatype CaptureEvent = CaptureEvent(
    eventId: string, occurredAt: int, tenantId: string, linkId: string, slug: string,
    signals: seq<Option<string>>, asn: Option<int>)
  {
    function Key(): EventKey { EventKey(eventId, occurredAt) }
  }

  datatype LoggedEvent = LoggedEvent(event: CaptureEvent, enrichment: Enrichment)

  datatype LinkRow = LinkRow(tenantId: string, destination: string)

  datatype Resolution = Destination(url: string) | NotFound | TenantMismatch

  function ResolveDestination(event: CaptureEvent, found: map<string, LinkRow>): Resolution {
    if event.linkId !in found then NotFound
    else if found[event.linkId].tenantId != event.tenantId then TenantMismatch
    else Destination(found[event.linkId].destination)
  }

  type Enrich = (CaptureEvent, Option<string>) -> Enrichment

  function ToLoggedEvent(enrich: Enrich, found: map<string, LinkRow>, event: CaptureEvent): LoggedEvent {
    var r := ResolveDestination(event, found);
    LoggedEvent(event, enrich(event, if r.Destination? then Some(r.url) else None))
  }

  function LoggedBy(enrich: Enrich, found: map<string, LinkRow>, events: seq<CaptureEvent>): seq<LoggedEvent> {
    Map(e => ToLoggedEvent(enrich, found, e), events)
  }

  const NUL: char := 0 as char

  function SanitizeForPostgresText(value: Option<string>): Option<string> {
    if value.Some? && NUL in value.value then None else value
  }

  function ToNewEventRow(logged: LoggedEvent): NewEvent {
    var e := logged.event;
    NewEvent(e.eventId, e.occurredAt, e.tenantId, e.linkId, e.slug,
             Map(SanitizeForPostgresText, e.signals), e.asn, logged.enrichment)
  }

  function RowsOf(logged: seq<LoggedEvent>): seq<NewEvent> { Map(ToNewEventRow, logged) }

  function EventsOf(logged: seq<LoggedEvent>): seq<CaptureEvent> { Map((l: LoggedEvent) => l.event, logged) }

  // ---------------------------------------------------------------------------------------------
  // The stores
  // ---------------------------------------------------------------------------------------------

  /** One job of the dead-letter queue, by reason. */
  datatype DlqEntry =
    | R2PutFailed(events: seq<CaptureEvent>)
    | FlushPoison(event: CaptureEvent)
    | AttemptsExhausted(event: CaptureEvent)
    | SchemaValidationFailed(raw: string)
  {
    predicate Holds(e: CaptureEvent) {
      match this
      case R2PutFailed(events) => e in events
      case FlushPoison(event) => e == event
      case AttemptsExhausted(event) => e == event
      case SchemaValidationFailed(raw) => false
    }
  }

  datatype Stores = Stores(table: Table, r2: map<string, seq<LoggedEvent>>, dlq: seq<DlqEntry>)

  /** The answer of a store: whether the write took effect, and what the caller is told. */
  datatype Reply<E> = Reply(applied: bool, error: Option<E>) {
    /** Success is never reported for a write that did not happen. */
    predicate Honest() { error.None? ==> applied }
  }

  /** How the stores answer the `n`-th operation on them. */
  datatype Env = Env(
    enrich: Enrich,
    select: nat -> Result<map<string, LinkRow>, Thrown>,
    put: nat -> Reply<R2Error>,
    insert: (nat, seq<NewEvent>) -> Reply<Thrown>,
    send: nat -> Reply<Thrown>)
  {
    ghost predicate Honest() {
      && (forall n :: put(n).Honest() && send(n).Honest())
      && (forall n, rows :: insert(n, rows).Honest())
    }
  }

  datatype World = World(stores: Stores, now: nat)

  function PutOnce(env: Env, key: string, logged: seq<LoggedEvent>): Put<World> {
    (w: World) =>
      var reply := env.put(w.now);
      (World(if reply.applied then w.stores.(r2 := w.stores.r2[key := logged]) else w.stores, w.now + 1), reply.error)
  }

  function Send(env: Env, w: World, entry: DlqEntry): (World, Option<Thrown>) {
    var reply := env.send(w.now);
    (World(if reply.applied then w.stores.(dlq := w.stores.dlq + [entry]) else w.stores, w.now + 1), reply.error)
  }

  function Insert(env: Env, w: World, rows: seq<NewEvent>): (World, Option<Thrown>) {
    var reply := env.insert(w.now, rows);
    (World(if reply.applied then w.stores.(table := InsertAll(w.stores.table, rows)) else w.stores, w.now + 1),
      reply.error)
  }

  // ---------------------------------------------------------------------------------------------
  // flushBatch
  // ---------------------------------------------------------------------------------------------

  const R2_MAX_ATTEMPTS: nat := 5
  const R2_INITIAL_DELAY_MS: nat := 200

  /** The R2 part: PUT with retries and, when they end in failure, the whole batch to the queue. */
  function PutBatch(env: Env, w: World, key: string, logged: seq<LoggedEvent>, events: seq<CaptureEvent>)
    : (r: (World, bool, Option<Thrown>))
  {
    var p := PutsFrom(PutOnce(env, key, logged), R2_MAX_ATTEMPTS, R2_INITIAL_DELAY_MS, w, 1);
    if p.outcome.Succeeded? then (p.world, true, None)
    else
      var (w1, error) := Send(env, p.world, R2PutFailed(events));
      (w1, false, error)
  }

  /** R2 first; the INSERT is reached only when the PUT succeeded. */
  function StoreBatch(env: Env, w: World, key: string, logged: seq<LoggedEvent>, events: seq<CaptureEvent>)
      : (World, Option<Thrown>)
  {
    var (w1, stored, error) := PutBatch(env, w, key, logged, events);
    if !stored then (w1, error) else Insert(env, w1, RowsOf(logged))
  }

  function FlushBatchRun(env: Env, w: World, events: seq<CaptureEvent>, batchId: string): (World, Option<Thrown>) {
    if events == [] then (w, None)
    else
      var w1 := w.(now := w.now + 1);
      match env.select(w.now)
      case Err(error) => (w1, Some(error))
      case Ok(found) =>
        StoreBatch(env, w1, EventBatchKey(batchId, events[0].occurredAt), LoggedBy(env.enrich, found, events), events)
  }

  const SPLIT_RETRY_MAX_ATTEMPTS_PER_BATCH: nat := 3
  const SPLIT_RETRY_INITIAL_DELAY_MS: nat := 150

  function ProductionConfig(env: Env): SplitRetry.Config<World, CaptureEvent> {
    SplitRetry.Config((w, events, id) => FlushBatchRun(env, w, events, id), Classify,
                      SPLIT_RETRY_MAX_ATTEMPTS_PER_BATCH, SPLIT_RETRY_INITIAL_DELAY_MS)
  }

  /** `sendPoisonEventsToDlq`: one entry per event, in order, stopping at the first failure. */
  function SendPoison(env: Env, w: World, poison: seq<SplitRetry.Poisoned<CaptureEvent>>): (World, Option<Thrown>)
    decreases |poison|
  {
    if poison == [] then (w, None)
    else
      var (w1, error) := Send(env, w, FlushPoison(poison[0].event));
      if error.Some? then (w1, error) else SendPoison(env, w1, poison[1..])
  }

  /** The flush callback that production hands to the accumulator. */
  function ProductionFlushRun(env: Env, w: World, events: seq<CaptureEvent>, batchId: string): (World, Option<Thrown>) {
    var run := SplitRetry.RetryWithSplitRun(ProductionConfig(env), w, events, batchId);
    if run.outcome.Rejected? then (run.world, Some(run.outcome.error))
    else SendPoison(env, run.world, run.outcome.poison)
  }

  // ---------------------------------------------------------------------------------------------
  // The code in its own form
  // ---------------------------------------------------------------------------------------------

  class ProductionFlush {
    const env: Env
    var world: World

    constructor (env: Env, world: World)
      ensures this.env == env && this.world == world
    {
      this.env := env;
      this.world := world;
    }

    method DlqSend(entry: DlqEntry) returns (error: Option<Thrown>)
      modifies this
      ensures (world, error) == Send(env, old(world), entry)
    {
      var (w, e) := Send(env, world, entry);
      world := w;
      error := e;
    }

    /** `putR2BatchWithRetry`. */
    method PutR2BatchWithRetry(key: string, logged: seq<LoggedEvent>, events: seq<CaptureEvent>)
      returns (succeeded: bool, error: Option<Thrown>)
      modifies this
      ensures (world, succeeded, error) == PutBatch(env, old(world), key, logged, events)
    {
      var putter := new R2Putter(PutOnce(env, key, logged), world);
      var outcome := putter.RetryR2Put(R2_MAX_ATTEMPTS, R2_INITIAL_DELAY_MS);
      world := putter.world;
      if outcome.Succeeded? {
        return true, None;
      }
      succeeded := false;
      error := DlqSend(R2PutFailed(events));
    }

    method FlushBatch(events: seq<CaptureEvent>, batchId: string) returns (error: Option<Thrown>)
      modifies this
      ensures (world, error) == FlushBatchRun(env, old(world), events, batchId)
    {
      if |events| == 0 {
        return None;
      }
      var selected := env.select(world.now);
      world := world.(now := world.now + 1);
      if selected.Err? {
        return Some(selected.error);
      }
      var logged := LoggedBy(env.enrich, selected.value, events);
      var rows := RowsOf(logged);
      var succeeded, putError := PutR2BatchWithRetry(EventBatchKey(batchId, events[0].occurredAt), logged, events);
      if !succeeded {
        return putError;
      }
      var (w, e) := Insert(env, world, rows);
      world := w;
      error := e;
    }

    /** The loop of `sendPoisonEventsToDlq`. */
    method SendPoisonEventsToDlq(poison: seq<SplitRetry.Poisoned<CaptureEvent>>) returns (error: Option<Thrown>)
      modifies this
      ensures (world, error) == SendPoison(env, old(world), poison)
    {
      var i := 0;
      while i < |poison|
        invariant 0 <= i <= |poison|
        invariant SendPoison(env, old(world), poison) == SendPoison(env, world, poison[i..])
      {
        assert poison[i..][1..] == poison[i + 1..];
        var e := DlqSend(FlushPoison(poison[i].event));
        if e.Some? {
          return e;
        }
        i := i + 1;
      }
      return None;
    }

    method FlushWithSplitRetryAndPoisonDlq(events: seq<CaptureEvent>, batchId: string) returns (error: Option<Thrown>)
      modifies this
      ensures (world, error) == ProductionFlushRun(env, old(world), events, batchId)
    {
      var retrier := new SplitRetry.SplitRetrier(ProductionConfig(env), world);
      var outcome := retrier.RetryWithSplit(events, batchId);
      world := retrier.world;
      if outcome.Rejected? {
        return Some(outcome.error);
      }
      error := SendPoisonEventsToDlq(outcome.poison);
    }
  }
}
