/**
 * apps/worker/src/cli/replay-driver.ts and apps/worker/src/cli/replay-report.ts: write an archived
 * stream of records back into the events table, in chunks.
 *
 * The stream is the sequence of records read from R2 and, if it breaks off there, the error it ends with.
 */
module Replay {
  import opened Prelude
  import opened ClassifyFlushError
  import opened EventsTable
  import opened Flush

  // ---------------------------------------------------------------------------------------------
  // Reading a stream record by record
  // ---------------------------------------------------------------------------------------------

  function Kept(records: seq<LoggedEvent>, keep: LoggedEvent -> bool): seq<NewEvent> {
    RowsOf(Filter(records, keep))
  }

  lemma KeptNext(records: seq<LoggedEvent>, keep: LoggedEvent -> bool, i: nat)
    requires i < |records|
    ensures Kept(records[..i + 1], keep) == if keep(records[i])
      then Kept(records[..i], keep) + [ToNewEventRow(records[i])] else Kept(records[..i], keep)
    ensures |Filter(records[..i + 1], keep)| == |Filter(records[..i], keep)| + (if keep(records[i]) then 1 else 0)
  {
    FilterNext(records, keep, i);
    var before := Filter(records[..i], keep);
    if keep(records[i]) {
      assert RowsOf(before + [records[i]]) == RowsOf(before) + [ToNewEventRow(records[i])];
    }
  }

  lemma FilterNext<T>(xs: seq<T>, keep: T -> bool, i: nat)
    requires i < |xs|
    ensures Filter(xs[..i + 1], keep) == Filter(xs[..i], keep) + (if keep(xs[i]) then [xs[i]] else [])
  {
    assert xs[..i + 1] == xs[..i] + [xs[i]];
    FilterAppend(xs[..i], [xs[i]], keep);
    assert [xs[i]][1..] == [];
  }

  lemma KeptPrefix(records: seq<LoggedEvent>, keep: LoggedEvent -> bool, i: nat)
    requires i <= |records|
    ensures Kept(records[..i], keep) <= Kept(records, keep)
  {
    assert records[..i] + records[i..] == records;
    FilterAppend(records[..i], records[i..], keep);
    var a, b := Filter(records[..i], keep), Filter(records[i..], keep);
    assert RowsOf(a + b)[..|a|] == RowsOf(a);
  }

  // ---------------------------------------------------------------------------------------------
  // replayEventLog
  // ---------------------------------------------------------------------------------------------

  datatype ReplayFailure<+R> = BatchSizeTooLarge | InsertFailed(insert: Thrown) | ReadFailed(read: R)

  datatype ReplaySummary = ReplaySummary(recordsRead: nat, batchesWritten: nat)

  /** A chunk is written as soon as the buffer holds `batchSize` rows, and never without a row. */
  function ChunkSize(batchSize: nat): nat { if batchSize == 0 then 1 else batchSize }

  /** `batches` chunks are in the table, all accepted, and the next chunk holds a row that is refused. */
  ghost predicate StoppedAfter(before: Table, kept: seq<NewEvent>, chunk: nat, accepts: NewEvent -> bool, batches: nat,
      after: Table)
  {
    && chunk * batches < |kept| && after == InsertAll(before, kept[..chunk * batches])
    && AllAccepted(kept[..chunk * batches], accepts)
    && exists i :: chunk * batches <= i < chunk * batches + chunk && i < |kept| && !accepts(kept[i])
  }

  ghost predicate AllAccepted(rows: seq<NewEvent>, accepts: NewEvent -> bool) {
    forall i :: 0 <= i < |rows| ==> accepts(rows[i])
  }

  /** The state of the loop: whole chunks are written, the rest is in the buffer. */
  ghost predicate Written(before: Table, kept: seq<NewEvent>, chunk: nat, accepts: NewEvent -> bool, batches: nat,
      buffer: seq<NewEvent>, after: Table)
  {
    && chunk * batches <= |kept| && buffer == kept[chunk * batches..]
    && AllAccepted(kept[..chunk * batches], accepts)
    && after == InsertAll(before, kept[..chunk * batches])
  }

  lemma ChunkWritten(before: Table, kept: seq<NewEvent>, chunk: nat, accepts: NewEvent -> bool, batches: nat,
      buffer: seq<NewEvent>, after: Table)
    requires Written(before, kept, chunk, accepts, batches, buffer, after) && |buffer| == chunk
    requires forall row :: row in buffer ==> accepts(row)
    ensures Written(before, kept, chunk, accepts, batches + 1, [], InsertAll(after, buffer))
  {
    assert chunk * (batches + 1) == chunk * batches + chunk == |kept|;
    WholeWritten(before, kept, chunk, accepts, batches, buffer, after);
    assert kept[..|kept|] == kept;
  }

  lemma WholeWritten(before: Table, kept: seq<NewEvent>, chunk: nat, accepts: NewEvent -> bool, batches: nat,
      buffer: seq<NewEvent>, after: Table)
    requires Written(before, kept, chunk, accepts, batches, buffer, after)
    requires forall row :: row in buffer ==> accepts(row)
    ensures AllAccepted(kept, accepts) && InsertAll(after, buffer) == InsertAll(before, kept)
  {
    var n := chunk * batches;
    assert kept == kept[..n] + buffer;
    InsertAppend(before, kept[..n], buffer);
    forall i | 0 <= i < |kept| ensures accepts(kept[i]) {
      if i < n { assert kept[i] == kept[..n][i]; } else { assert kept[i] == buffer[i - n]; }
    }
  }

  lemma ChunkRefused(before: Table, kept: seq<NewEvent>, chunk: nat, accepts: NewEvent -> bool, batches: nat,
      buffer: seq<NewEvent>, after: Table)
    requires Written(before, kept, chunk, accepts, batches, buffer, after) && 0 < |buffer| <= chunk
    requires exists row :: row in buffer && !accepts(row)
    ensures StoppedAfter(before, kept, chunk, accepts, batches, after)
  {
    var n := chunk * batches;
    var row :| row in buffer && !accepts(row);
    var j :| 0 <= j < |buffer| && buffer[j] == row;
    assert kept[n + j] == row;
  }

  /** All whole chunks are in the table, all accepted, and the rows beyond them are not. */
  ghost predicate WholeChunksOnly(before: Table, kept: seq<NewEvent>, chunk: nat, accepts: NewEvent -> bool,
      after: Table)
  {
    exists batches: nat ::
      && chunk * batches <= |kept| < chunk * batches + chunk
      && AllAccepted(kept[..chunk * batches], accepts) && after == InsertAll(before, kept[..chunk * batches])
  }

  lemma BufferIsDropped(before: Table, kept: seq<NewEvent>, chunk: nat, accepts: NewEvent -> bool, batches: nat,
                        buffer: seq<NewEvent>, after: Table)
    requires Written(before, kept, chunk, accepts, batches, buffer, after) && |buffer| < chunk
    ensures WholeChunksOnly(before, kept, chunk, accepts, after)
  {
    assert |kept| == chunk * batches + |buffer|;
  }

  /** What is refused in a prefix is refused in the whole. */
  lemma StoppedInWhole(before: Table, kept: seq<NewEvent>, all: seq<NewEvent>, chunk: nat, accepts: NewEvent -> bool,
      batches: nat, after: Table)
    requires StoppedAfter(before, kept, chunk, accepts, batches, after) && kept <= all
    ensures StoppedAfter(before, all, chunk, accepts, batches, after) && !AllAccepted(all, accepts)
  {
    assert all[..chunk * batches] == kept[..chunk * batches];
    var i :| chunk * batches <= i < chunk * batches + chunk && i < |kept| && !accepts(kept[i]);
    assert all[i] == kept[i];
  }

  /** The inner function of both replays: insert the buffered rows. */
  method FlushBuffer(db: EventsDb, buffer: seq<NewEvent>, ghost before: Table, ghost kept: seq<NewEvent>,
      ghost chunk: nat, ghost batches: nat)
    returns (r: Result<seq<string>, Thrown>)
    requires Written(before, kept, chunk, db.accepts, batches, buffer, db.table) && 0 < |buffer| <= chunk
    modifies db`table
    ensures r.Ok? ==>
      && AllAccepted(kept, db.accepts) && db.table == InsertAll(before, kept)
      && |db.table| == |old(db.table)| + |r.value| && |r.value| <= |buffer|
      && (|buffer| == chunk ==> Written(before, kept, chunk, db.accepts, batches + 1, [], db.table))
    ensures r.Err? ==> r.error == db.refusal && StoppedAfter(before, kept, chunk, db.accepts, batches, db.table)
  {
    ghost var table := db.table;
    ReturningCountsGrowth(table, buffer);
    r := db.InsertEventsBatchWithCounts(buffer);
    if r.Err? {
      ChunkRefused(before, kept, chunk, db.accepts, batches, buffer, table);
    } else {
      WholeWritten(before, kept, chunk, db.accepts, batches, buffer, table);
      if |buffer| == chunk { ChunkWritten(before, kept, chunk, db.accepts, batches, buffer, table); }
    }
  }

  /**
   * A replay ends well exactly when the stream does and no kept record is refused. Then the table is
   * what one insert of all kept records would make it, whatever the batch size. A refused row leaves
   * the chunks before its own in the table and nothing of its chunk: replay does not split. A stream
   * that breaks off leaves the whole chunks that were read; the rest of the buffer is lost.
   */
  method ReplayEventLog<R>(db: EventsDb, records: seq<LoggedEvent>, readError: Option<R>, batchSize: nat,
      keep: LoggedEvent -> bool)
    returns (r: Result<ReplaySummary, ReplayFailure<R>>)
    modifies db`table
    ensures r.Ok? ==> readError.None? && AllAccepted(Kept(records, keep), db.accepts)
    ensures readError.None? ==> (r.Ok? <==> AllAccepted(Kept(records, keep), db.accepts))
    ensures r.Ok? ==> db.table == InsertAll(old(db.table), Kept(records, keep))
    ensures r.Ok? ==> r.value.recordsRead == |records|
    ensures r.Ok? ==>
      var n, chunk := |Kept(records, keep)|, ChunkSize(batchSize);
      chunk * r.value.batchesWritten >= n && (n > 0 ==> chunk * (r.value.batchesWritten - 1) < n)
    ensures r.Err? ==>
      match r.error
      case ReadFailed(error) =>
        && readError == Some(error)
        && WholeChunksOnly(old(db.table), Kept(records, keep), ChunkSize(batchSize), db.accepts, db.table)
      case InsertFailed(error) =>
        && error == db.refusal
        && exists batches: nat ::
          StoppedAfter(old(db.table), Kept(records, keep), ChunkSize(batchSize), db.accepts, batches, db.table)
      case BatchSizeTooLarge => false
  {
    hide Written, StoppedAfter, AllAccepted, Kept, InsertAll, WholeChunksOnly;
    ghost var before, all, chunk := db.table, Kept(records, keep), ChunkSize(batchSize);
    var recordsRead: nat, batchesWritten: nat := 0, 0;
    var buffer: seq<NewEvent> := [];
    NothingRead(before, records, keep, chunk, db.accepts);
    while recordsRead < |records|
      invariant 0 <= recordsRead <= |records| && |buffer| < chunk
      invariant Written(before, Kept(records[..recordsRead], keep), chunk, db.accepts, batchesWritten, buffer, db.table)
    {
      var logged := records[recordsRead];
      KeptNext(records, keep, recordsRead);
      KeptPrefix(records, keep, recordsRead + 1);
      recordsRead := recordsRead + 1;
      if keep(logged) {
        ghost var kept := Kept(records[..recordsRead], keep);
        OneMoreBuffered(before, Kept(records[..recordsRead - 1], keep), ToNewEventRow(logged), chunk, db.accepts,
          batchesWritten, buffer, db.table);
        buffer := buffer + [ToNewEventRow(logged)];
        if |buffer| >= batchSize {
          var flushed := FlushBuffer(db, buffer, before, kept, chunk, batchesWritten);
          if flushed.Err? {
            StoppedInWhole(before, kept, all, chunk, db.accepts, batchesWritten, db.table);
            return Err(InsertFailed(flushed.error));
          }
          batchesWritten := batchesWritten + 1;
          buffer := [];
        }
      }
    }
    assert records[..recordsRead] == records;
    if readError.Some? {
      BufferIsDropped(before, all, chunk, db.accepts, batchesWritten, buffer, db.table);
      return Err(ReadFailed(readError.value));
    }
    WrittenSize(before, all, chunk, db.accepts, batchesWritten, buffer, db.table);
    if |buffer| > 0 {
      var flushed := FlushBuffer(db, buffer, before, all, chunk, batchesWritten);
      if flushed.Err? {
        StoppedInWhole(before, all, all, chunk, db.accepts, batchesWritten, db.table);
        return Err(InsertFailed(flushed.error));
      }
      batchesWritten := batchesWritten + 1;
    } else {
      WholeWritten(before, all, chunk, db.accepts, batchesWritten, buffer, db.table);
      InsertNone(db.table);
    }
    return Ok(ReplaySummary(recordsRead, batchesWritten));
  }

  lemma NothingRead(before: Table, records: seq<LoggedEvent>, keep: LoggedEvent -> bool, chunk: nat,
      accepts: NewEvent -> bool)
    ensures Kept(records[..0], keep) == [] && Written(before, Kept(records[..0], keep), chunk, accepts, 0, [], before)
  {
    assert records[..0] == [];
  }

  lemma InsertNone(t: Table)
    ensures InsertAll(t, []) == t
  {
  }

  lemma WrittenSize(before: Table, kept: seq<NewEvent>, chunk: nat, accepts: NewEvent -> bool, batches: nat,
      buffer: seq<NewEvent>, after: Table)
    requires Written(before, kept, chunk, accepts, batches, buffer, after) && |buffer| < chunk
    ensures buffer != [] ==> chunk * (batches + 1) >= |kept| && chunk * batches < |kept|
    ensures buffer == [] ==> chunk * batches >= |kept| && (|kept| > 0 ==> chunk * (batches - 1) < |kept|)
  {
    assert |kept| == chunk * batches + |buffer|;
    assert chunk * (batches + 1) == chunk * batches + chunk;
    assert chunk * (batches - 1) == chunk * batches - chunk;
  }

  lemma OneMoreBuffered(before: Table, kept: seq<NewEvent>, row: NewEvent, chunk: nat, accepts: NewEvent -> bool,
      batches: nat, buffer: seq<NewEvent>, after: Table)
    requires Written(before, kept, chunk, accepts, batches, buffer, after)
    ensures Written(before, kept + [row], chunk, accepts, batches, buffer + [row], after)
  {
    var n := chunk * batches;
    assert (kept + [row])[..n] == kept[..n];
    assert (kept + [row])[n..] == kept[n..] + [row];
  }

  // ---------------------------------------------------------------------------------------------
  // replayWithReport
  // ---------------------------------------------------------------------------------------------

  const MAX_BATCH_SIZE: nat := 500
  const EXIT_OK: nat := 0
  const EXIT_RECONCILIATION_MISMATCH: nat := 3

  datatype ReplayReport = ReplayReport(
    objectsRead: nat, recordsParsed: nat, rowsInserted: nat, rowsSkipped: nat, rejections: map<string, nat>,
    reconciled: bool, exitCode: nat)

  function BuildReplayReport(objectsRead: nat, recordsParsed: nat, rowsInserted: nat, rowsSkipped: nat,
      rejections: map<string, nat>): ReplayReport
  {
    var reconciled := rowsInserted + rowsSkipped == recordsParsed;
    ReplayReport(objectsRead, recordsParsed, rowsInserted, rowsSkipped, rejections,
                 reconciled, if reconciled then EXIT_OK else EXIT_RECONCILIATION_MISMATCH)
  }

  /** What the record schema says of a record: fine, or the reason it is rejected. */
  type Schema = LoggedEvent -> Option<string>

  function Accepted(schema: Schema): LoggedEvent -> bool { l => schema(l).None? }
  function RejectedFor(schema: Schema, reason: string): LoggedEvent -> bool { l => schema(l) == Some(reason) }

  /** The buckets hold exactly the reasons that occur, each with the number of its records. */
  ghost predicate Buckets(rejections: map<string, nat>, schema: Schema, records: seq<LoggedEvent>) {
    forall reason ::
      && (reason in rejections <==> Filter(records, RejectedFor(schema, reason)) != [])
      && (reason in rejections ==> rejections[reason] == |Filter(records, RejectedFor(schema, reason))|)
  }

  function OneMoreRejected(rejections: map<string, nat>, reason: string): map<string, nat> {
    rejections[reason := (if reason in rejections then rejections[reason] else 0) + 1]
  }

  lemma BucketsNext(rejections: map<string, nat>, schema: Schema, records: seq<LoggedEvent>, i: nat)
    requires i < |records| && Buckets(rejections, schema, records[..i])
    ensures match schema(records[i])
            case None => Buckets(rejections, schema, records[..i + 1])
            case Some(reason) =>
              Buckets(OneMoreRejected(rejections, reason), schema, records[..i + 1])
  {
    forall reason
      ensures Filter(records[..i + 1], RejectedFor(schema, reason))
              == Filter(records[..i], RejectedFor(schema, reason))
                + (if schema(records[i]) == Some(reason) then [records[i]] else [])
    {
      FilterNext(records, RejectedFor(schema, reason), i);
    }
  }

  lemma {:induction false} EveryRecordCounted(schema: Schema, records: seq<LoggedEvent>)
    ensures |Filter(records, Accepted(schema))| + |Filter(records, (l: LoggedEvent) => schema(l).Some?)| == |records|
  {
    if records != [] { EveryRecordCounted(schema, records[1..]); }
  }

  /**
   * The reconciliation of a report always holds: inserted is the growth of the table, and inserted
   * plus skipped is parsed, so the mismatch exit code is never returned. A batch size above the
   * limit is refused before anything is written. A refused row or a stream that breaks off ends the
   * replay as in `ReplayEventLog`, without a report.
   */
  method ReplayWithReport<R>(db: EventsDb, records: seq<LoggedEvent>, readError: Option<R>, objectsRead: nat,
      batchSize: nat, schema: Schema)
    returns (r: Result<ReplayReport, ReplayFailure<R>>)
    modifies db`table
    ensures batchSize > MAX_BATCH_SIZE <==> r == Err(BatchSizeTooLarge)
    ensures batchSize > MAX_BATCH_SIZE ==> db.table == old(db.table)
    ensures batchSize <= MAX_BATCH_SIZE && readError.None? ==>
      (r.Ok? <==> AllAccepted(Kept(records, Accepted(schema)), db.accepts))
    ensures r.Ok? ==> readError.None? && AllAccepted(Kept(records, Accepted(schema)), db.accepts)
    ensures r.Ok? ==>
      && db.table == InsertAll(old(db.table), Kept(records, Accepted(schema)))
      && r.value.objectsRead == objectsRead
      && r.value.recordsParsed == |Filter(records, Accepted(schema))|
      && r.value.rowsInserted == |db.table| - |old(db.table)|
      && r.value.rowsInserted + r.value.rowsSkipped == r.value.recordsParsed
      && r.value.reconciled && r.value.exitCode == EXIT_OK
      && Buckets(r.value.rejections, schema, records)
    ensures r.Err? && batchSize <= MAX_BATCH_SIZE ==>
      var kept, chunk := Kept(records, Accepted(schema)), ChunkSize(batchSize);
      match r.error
      case ReadFailed(error) =>
        readError == Some(error) && WholeChunksOnly(old(db.table), kept, chunk, db.accepts, db.table)
      case InsertFailed(error) =>
        error == db.refusal && exists batches: nat ::
          StoppedAfter(old(db.table), kept, chunk, db.accepts, batches, db.table)
      case BatchSizeTooLarge => false
  {
    hide Written, StoppedAfter, AllAccepted, Kept, InsertAll, Buckets, Filter, WholeChunksOnly, OneMoreRejected;
    if batchSize > MAX_BATCH_SIZE {
      return Err(BatchSizeTooLarge);
    }
    ghost var keep := Accepted(schema);
    ghost var before, all, chunk := db.table, Kept(records, keep), ChunkSize(batchSize);
    var recordsParsed: nat, rowsInserted: nat, rowsSkipped: nat := 0, 0, 0;
    var rejections: map<string, nat> := map[];
    var buffer: seq<NewEvent> := [];
    ghost var batches: nat := 0;
    var i := 0;
    NothingRead(before, records, keep, chunk, db.accepts);
    NothingBucketed(schema, records);
    while i < |records|
      invariant 0 <= i <= |records| && |buffer| < chunk
      invariant Written(before, Kept(records[..i], keep), chunk, db.accepts, batches, buffer, db.table)
      invariant recordsParsed == |Filter(records[..i], keep)|
      invariant |db.table| == |before| + rowsInserted
      invariant rowsInserted + rowsSkipped + |buffer| == recordsParsed
      invariant Buckets(rejections, schema, records[..i])
    {
      var record := records[i];
      KeptNext(records, keep, i);
      KeptPrefix(records, keep, i + 1);
      BucketsNext(rejections, schema, records, i);
      i := i + 1;
      match schema(record)
      case Some(reason) =>
        rejections := OneMoreRejected(rejections, reason);
      case None =>
        recordsParsed := recordsParsed + 1;
        ghost var kept := Kept(records[..i], keep);
        OneMoreBuffered(before, Kept(records[..i - 1], keep), ToNewEventRow(record), chunk, db.accepts, batches,
          buffer, db.table);
        buffer := buffer + [ToNewEventRow(record)];
        if |buffer| >= batchSize {
          var flushed := FlushBuffer(db, buffer, before, kept, chunk, batches);
          if flushed.Err? {
            StoppedInWhole(before, kept, all, chunk, db.accepts, batches, db.table);
            return Err(InsertFailed(flushed.error));
          }
          rowsInserted := rowsInserted + |flushed.value|;
          rowsSkipped := rowsSkipped + (|buffer| - |flushed.value|);
          batches := batches + 1;
          buffer := [];
        }
    }
    assert records[..i] == records;
    if readError.Some? {
      BufferIsDropped(before, all, chunk, db.accepts, batches, buffer, db.table);
      return Err(ReadFailed(readError.value));
    }
    if |buffer| > 0 {
      var flushed := FlushBuffer(db, buffer, before, all, chunk, batches);
      if flushed.Err? {
        StoppedInWhole(before, all, all, chunk, db.accepts, batches, db.table);
        return Err(InsertFailed(flushed.error));
      }
      rowsInserted := rowsInserted + |flushed.value|;
      rowsSkipped := rowsSkipped + (|buffer| - |flushed.value|);
    } else {
      WholeWritten(before, all, chunk, db.accepts, batches, buffer, db.table);
      InsertNone(db.table);
    }
    return Ok(BuildReplayReport(objectsRead, recordsParsed, rowsInserted, rowsSkipped, rejections));
  }

  lemma NothingBucketed(schema: Schema, records: seq<LoggedEvent>)
    ensures Buckets(map[], schema, records[..0]) && Filter(records[..0], Accepted(schema)) == []
  {
    assert records[..0] == [];
  }
}
