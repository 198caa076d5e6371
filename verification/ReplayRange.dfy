/**
 * apps/worker/src/cli/replay.ts: one `posta replay` end to end. A range of instants becomes prefixes,
 * the prefixes are listed, the objects are streamed and the records are written back; for a range that
 * holds the first instant of every object this is the rebuild of `Rebuild`.
 *
 * A logged event is a record of the log under `encode`, and what the reader makes of it under `decode`.
 * `--dry-run` writes nothing and is not part of this model.
 */
module ReplayRange {
  import opened Prelude
  import opened Utf16
  import opened EventsTable
  import opened Keys
  import opened KeysTheorems
  import opened EventLog
  import opened Ndjson
  import opened LogStream
  import opened SplitRetryTheorems
  import opened Flush
  import FlushTheorems
  import opened Pipeline
  import PipelineInvariant
  import PipelineTheorems
  import opened Replay
  import opened Rebuild

  // ---------------------------------------------------------------------------------------------
  // Which objects a range lists
  // ---------------------------------------------------------------------------------------------

  /** Every object is filed under the day and hour of its first event. */
  ghost predicate FiledByFirst(r2: Archive) {
    forall k :: k in r2 ==> r2[k] != [] && exists id :: k == EventBatchKey(id, r2[k][0].event.occurredAt)
  }

  lemma ReachableIsFiledByFirst(cfg: Pipeline.Config, steps: seq<Step>)
    requires Run(cfg, Init(), steps).Some?
    ensures FiledByFirst(Run(cfg, Init(), steps).value.stores.r2)
  {
    var s := Run(cfg, Init(), steps).value;
    PipelineTheorems.InitHolds();
    PipelineTheorems.RunKeeps(cfg, Init(), steps);
    forall k | k in s.stores.r2
      ensures s.stores.r2[k] != [] && exists id :: k == EventBatchKey(id, s.stores.r2[k][0].event.occurredAt)
    {
      assert PipelineInvariant.Filed(s.batches, k, PipelineInvariant.Ever(s).r2[k]);
      FiledFirst(s.batches, k, s.stores.r2[k]);
    }
  }

  lemma FiledFirst(batches: map<string, seq<CaptureEvent>>, key: string, logged: seq<LoggedEvent>)
    requires PipelineInvariant.Filed(batches, key, logged)
    ensures logged != [] && exists id :: key == EventBatchKey(id, logged[0].event.occurredAt)
  {
    hide EventBatchKey, SubBatch, NodeId;
    var base, path :| base in batches && FlushTheorems.PlainId(base) && SubBatch(batches[base], path) != []
                      && key == FlushTheorems.NodeKey(base, batches[base], path)
                        && EventsOf(logged) == SubBatch(batches[base], path);
    var events := SubBatch(batches[base], path);
    assert |EventsOf(logged)| == |logged| && EventsOf(logged)[0] == logged[0].event == events[0];
    assert key == EventBatchKey(NodeId(base, path), logged[0].event.occurredAt);
  }

  /** The keys of the archive under one prefix, each once. */
  ghost predicate ListsUnder(keys: seq<string>, prefix: string, r2: Archive) {
    NoDup(keys) && forall k :: k in keys <==> k in r2 && prefix <= k
  }

  /** The keys under each of the prefixes of the walked days. */
  ghost predicate ListsDays(keys: seq<seq<string>>, fromDay: int, toDay: int, r2: Archive)
    requires fromDay <= toDay
  {
    && |keys| == |PrefixesOfDays(fromDay, toDay)|
    && forall i :: 0 <= i < |keys| ==> ListsUnder(keys[i], PrefixesOfDays(fromDay, toDay)[i], r2)
  }

  /** The object's first event is of one of these days. */
  predicate WithinDays(fromDay: int, toDay: int, logged: seq<LoggedEvent>)
    requires logged != []
  {
    fromDay <= DayOf(logged[0].event.occurredAt) <= toDay
  }

  /** The range lists each object at most once, and exactly those whose first event is of its days. */
  lemma RangeListsItsDays(r2: Archive, fromDay: int, toDay: int, keys: seq<seq<string>>)
    requires FiledByFirst(r2) && fromDay <= toDay && ListsDays(keys, fromDay, toDay, r2)
    ensures NoDup(Flatten(keys))
    ensures forall k :: k in Flatten(keys) <==> k in r2 && WithinDays(fromDay, toDay, r2[k])
  {
    EachKeyIsVisitedOnce(fromDay, toDay, keys);
    forall k ensures k in Flatten(keys) <==> k in r2 && WithinDays(fromDay, toDay, r2[k]) {
      FlattenMembers(keys, k);
      if k in r2 { UnderItsHour(r2, fromDay, toDay, keys, k); }
    }
  }

  lemma UnderItsHour(r2: Archive, fromDay: int, toDay: int, keys: seq<seq<string>>, k: string)
    requires FiledByFirst(r2) && fromDay <= toDay && ListsDays(keys, fromDay, toDay, r2) && k in r2
    ensures (exists i :: 0 <= i < |keys| && k in keys[i]) <==> WithinDays(fromDay, toDay, r2[k])
  {
    hide PrefixesOfDays, EventBatchKey;
    var t := r2[k][0].event.occurredAt;
    var id :| k == EventBatchKey(id, t);
    forall i: nat | i < |keys| ensures k in keys[i] <==> i == SlotOf(fromDay, t) {
      ExactlyOnePrefix(fromDay, toDay, id, t, i);
      assert ListsUnder(keys[i], PrefixesOfDays(fromDay, toDay)[i], r2);
    }
    AtLeastADay(fromDay, toDay);
    ExactlyOnePrefix(fromDay, toDay, id, t, 0);
    if WithinDays(fromDay, toDay, r2[k]) { assert k in keys[SlotOf(fromDay, t)]; }
  }

  lemma AtLeastADay(fromDay: int, toDay: int)
    requires fromDay <= toDay
    ensures |PrefixesOfDays(fromDay, toDay)| > 0
  {
  }

  /** The range lists the whole archive exactly when it holds the first instant of every object. */
  lemma RangeListsTheArchive(r2: Archive, fromDay: int, toDay: int, keys: seq<seq<string>>)
    requires FiledByFirst(r2) && fromDay <= toDay && ListsDays(keys, fromDay, toDay, r2)
    ensures Lists(Flatten(keys), r2) <==> forall k :: k in r2 ==> WithinDays(fromDay, toDay, r2[k])
  {
    RangeListsItsDays(r2, fromDay, toDay, keys);
  }

  // ---------------------------------------------------------------------------------------------
  // What the stream yields
  // ---------------------------------------------------------------------------------------------

  /** How logged events are written to and read from the log. */
  datatype Codec = Codec(encode: LoggedEvent -> Record, decode: Record -> LoggedEvent, ends: Ends)

  function Records(c: Codec, r2: Archive): map<string, seq<Record>> { map k | k in r2 :: Map(c.encode, r2[k]) }

  /** R2 holds the serialized batches, and nothing else. */
  function Log(c: Codec, r2: Archive): map<string, Text> { map k | k in r2 :: SerializeBatch(Map(c.encode, r2[k])) }

  /** An event that is the same again when its columns are read, and whose strings do not break the line. */
  ghost predicate Survives(c: Codec, l: LoggedEvent) {
    c.decode(Allowed(c.encode(l))) == l && Loggable(c.encode(l), c.ends)
  }

  ghost predicate AllSurvive(c: Codec, r2: Archive) {
    (forall u :: u in c.ends ==> Verbatim(u)) && forall k, l :: k in r2 && l in r2[k] ==> Survives(c, l)
  }

  lemma {:induction false} ArchivedDecodes(c: Codec, r2: Archive, keys: seq<string>)
    requires AllSurvive(c, r2) && forall k :: k in keys ==> k in r2
    ensures Map(c.decode, Archived(Records(c, r2), keys)) == Stream(r2, keys)
    decreases |keys|
  {
    if keys != [] {
      var k, rest := keys[0], keys[1..];
      ArchivedDecodes(c, r2, rest);
      BatchDecodes(c, r2, k);
      hide AllSurvive, AllowedAll;
      MapAppend(c.decode, AllowedAll(Records(c, r2)[k]), Archived(Records(c, r2), rest));
    }
  }

  lemma BatchDecodes(c: Codec, r2: Archive, k: string)
    requires AllSurvive(c, r2) && k in r2
    ensures Map(c.decode, AllowedAll(Records(c, r2)[k])) == r2[k]
  {
    hide Loggable, Allowed;
    var first := AllowedAll(Records(c, r2)[k]);
    forall i | 0 <= i < |r2[k]| ensures Map(c.decode, first)[i] == r2[k][i] { assert Survives(c, r2[k][i]); }
  }

  /** Streaming the log's objects under these keys gives back their events, in order and without an error. */
  lemma LogStreamsBack(c: Codec, r2: Archive, keys: seq<string>)
    requires AllSurvive(c, r2) && forall k :: k in keys ==> k in r2
    ensures StreamOf(Log(c, r2), keys, c.ends).error.None?
    ensures Map(c.decode, StreamOf(Log(c, r2), keys, c.ends).records) == Stream(r2, keys)
  {
    hide StreamOf, Archived, SerializeBatch, Stream, Loggable;
    ArchivedDecodes(c, r2, keys);
    forall k | k in keys ensures AllLoggable(Records(c, r2)[k], c.ends) {
      forall i | 0 <= i < |r2[k]| ensures Loggable(Records(c, r2)[k][i], c.ends) { assert Survives(c, r2[k][i]); }
    }
    StreamRecoversTheBatches(Log(c, r2), Records(c, r2), keys, c.ends);
  }

  // ---------------------------------------------------------------------------------------------
  // The command
  // ---------------------------------------------------------------------------------------------

  datatype ReplayError = BadRange(range: PrefixError) | Failed(failure: ReplayFailure<StreamError>)

  function MatchesTenant(tenant: Option<string>): LoggedEvent -> bool {
    (l: LoggedEvent) => tenant.None? || l.event.tenantId == tenant.value
  }

  /** R2 lists, page by page and without breaking off, what it holds under each prefix. */
  ghost predicate ListsR2(listingOf: string -> Listing, keysUnder: string -> seq<string>, r2: Archive) {
    forall prefix ::
      && ListsUnder(keysUnder(prefix), prefix, r2)
      && Serves(listingOf(prefix), keysUnder(prefix)) && Continues(listingOf(prefix))
  }

  /** The keys that the range's prefixes list, in order. */
  function KeysOfRange(keysUnder: string -> seq<string>, fromDay: int, toDay: int): seq<seq<string>>
    requires fromDay <= toDay
  {
    Map(keysUnder, PrefixesOfDays(fromDay, toDay))
  }

  lemma RangeIsServed(listingOf: string -> Listing, keysUnder: string -> seq<string>, r2: Archive, fromDay: int,
      toDay: int)
    requires ListsR2(listingOf, keysUnder, r2) && fromDay <= toDay
    ensures var ps, keys := PrefixesOfDays(fromDay, toDay), KeysOfRange(keysUnder, fromDay, toDay);
            && ListsDays(keys, fromDay, toDay, r2)
            && AllServe(Map(listingOf, ps), keys)
            && (forall i :: 0 <= i < |ps| ==> Continues(Map(listingOf, ps)[i]))
            && (forall k :: k in Flatten(keys) ==> k in r2)
  {
    hide PrefixesOfDays, Serves, Continues;
    var keys := KeysOfRange(keysUnder, fromDay, toDay);
    forall k | k in Flatten(keys) ensures k in r2 {
      FlattenMembers(keys, k);
      var i :| 0 <= i < |keys| && k in keys[i];
      assert ListsUnder(keys[i], PrefixesOfDays(fromDay, toDay)[i], r2);
    }
  }

  /** What a replay of these records into `before` is to leave, for any batch size. */
  ghost predicate Replayed(before: Table, records: seq<LoggedEvent>, tenant: Option<string>, accepts: NewEvent -> bool,
                           r: Result<ReplaySummary, ReplayError>, after: Table)
  {
    && (r.Ok? <==> AllAccepted(Kept(records, MatchesTenant(tenant)), accepts))
    && (r.Ok? ==> r.value.recordsRead == |records| && after == InsertAll(before, Kept(records, MatchesTenant(tenant))))
  }

  /**
   * `runReplayCli` past its arguments. A range that names days is replayed exactly when the table
   * accepts every matching row; then the table is what one insert of all the matching events under
   * the range's prefixes makes of it. Into an empty table and without a tenant, that is the rebuild.
   */
  method RunReplay(db: EventsDb, from: int, to: int, tenant: Option<string>, batchSize: nat, c: Codec,
                   store: map<string, Text>, listingOf: string -> Listing, ghost keysUnder: string -> seq<string>,
                   ghost r2: Archive)
    returns (r: Result<ReplaySummary, ReplayError>)
    requires store == Log(c, r2) && ListsR2(listingOf, keysUnder, r2)
    modifies db`table
    ensures var f, t := DateUtc(DateOf(DayOf(from))), DateUtc(DateOf(DayOf(to)));
            if f > t || t - f + 1 > MAX_RANGE_DAYS then r.Err? && r.error.BadRange? && db.table == old(db.table)
            else
              var keys := Flatten(KeysOfRange(keysUnder, f, t));
              && (forall k :: k in keys ==> k in r2)
              && (AllSurvive(c, r2) ==> Replayed(old(db.table), Stream(r2, keys), tenant, db.accepts, r, db.table))
              && (AllSurvive(c, r2) && r.Ok? && tenant.None? && old(db.table) == map[] ==>
                db.table == Rebuilt(r2, keys))
  {
    hide PrefixesOfDays, KeysOfRange, StreamOf, Stream, AllAccepted, InsertAll, SerializeBatch;
    hide AllSurvive, AllServe, Continues, DateUtc, DateOf;
    var prefixes := EventPrefixes(Some(from), Some(to));
    if prefixes.Err? {
      return Err(BadRange(prefixes.error));
    }
    ghost var f, t := DateUtc(DateOf(DayOf(from))), DateUtc(DateOf(DayOf(to)));
    ghost var keys := KeysOfRange(keysUnder, f, t);
    RangeIsServed(listingOf, keysUnder, r2, f, t);
    var streamed := StreamEventLog(store, Map(listingOf, prefixes.value), keys, c.ends);
    if AllSurvive(c, r2) {
      LogStreamsBack(c, r2, Flatten(keys));
      if tenant.None? { KeepsAll(Stream(r2, Flatten(keys))); }
    }
    var summary := ReplayEventLog(db, Map(c.decode, streamed.records), streamed.error, batchSize,
      MatchesTenant(tenant));
    r := if summary.Ok? then Ok(summary.value) else Err(ReplayError.Failed(summary.error));
  }

  lemma KeepsAll(records: seq<LoggedEvent>)
    ensures Kept(records, MatchesTenant(None)) == RowsOf(records)
  {
    FilterAll(records, MatchesTenant(None));
  }

  /**
   * From any reachable state: the keys that a range lists are a listing of the whole archive if and
   * only if the walked days hold the first instant of every object, as they do when the range itself
   * does and does not start in the years 0 to 99. Then `RunReplay` of that range into an empty table
   * yields one row per archived key and covers the table that was live.
   */
  lemma RangeRebuilds(cfg: Pipeline.Config, steps: seq<Step>, from: int, to: int,
                      listingOf: string -> Listing, keysUnder: string -> seq<string>)
    requires Run(cfg, Init(), steps).Some?
    requires ListsR2(listingOf, keysUnder, Run(cfg, Init(), steps).value.stores.r2)
    requires DateUtc(DateOf(DayOf(from))) <= DateUtc(DateOf(DayOf(to)))
    ensures var s := Run(cfg, Init(), steps).value.stores;
            var f, t := DateUtc(DateOf(DayOf(from))), DateUtc(DateOf(DayOf(to)));
            var keys := Flatten(KeysOfRange(keysUnder, f, t));
            && FiledByFirst(s.r2)
            && (Lists(keys, s.r2) <==> forall k :: k in s.r2 ==> WithinDays(f, t, s.r2[k]))
            && (!TwoDigitYear(DayOf(from)) ==>
                  (forall k :: k in s.r2 ==> WithinDays(DayOf(from), DayOf(to), s.r2[k])) ==> Lists(keys, s.r2))
            && (Lists(keys, s.r2) ==>
                  && (forall key :: key in Rebuilt(s.r2, keys) <==> HasKey(s.r2, key))
                  && s.table.Keys <= Rebuilt(s.r2, keys).Keys)
  {
    hide DateUtc, DateOf, PrefixesOfDays, Rebuilt, KeysOfRange, TwoDigitYear;
    var s := Run(cfg, Init(), steps).value.stores;
    var f, t := DateUtc(DateOf(DayOf(from))), DateUtc(DateOf(DayOf(to)));
    DateUtcInvertsDateOf(DayOf(from));
    DateUtcInvertsDateOf(DayOf(to));
    ReachableIsFiledByFirst(cfg, steps);
    RangeIsServed(listingOf, keysUnder, s.r2, f, t);
    var keys := Flatten(KeysOfRange(keysUnder, f, t));
    RangeListsTheArchive(s.r2, f, t, KeysOfRange(keysUnder, f, t));
    if Lists(keys, s.r2) { PostgresIsRebuildable(cfg, steps, keys); }
  }
}
