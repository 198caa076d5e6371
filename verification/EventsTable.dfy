/**
 * packages/core/src/db/events.ts: the one statement that writes events,
 * `INSERT ... ON CONFLICT (event_id, occurred_at) DO NOTHING`.
 *
 * Timestamps are carried as the instant they denote, in milliseconds since 1970.
 */
module EventsTable {
  import opened Prelude
  import opened ClassifyFlushError

  datatype EventKey = EventKey(eventId: string, occurredAt: int)

  /** The seven columns the worker derives. */
  datatype Enrichment = Enrichment(
    browser: Option<string>, browserVersion: Option<string>, os: Option<string>, deviceType: Option<string>,
    sourcePlatform: string, isInApp: bool, destHost: Option<string>)

  /** `signals` are the 18 nullable text columns taken from request headers and the geo lookup. */
  datatype NewEvent = NewEvent(
    eventId: string, occurredAt: int, tenantId: string, linkId: string, slug: string,
    signals: seq<Option<string>>, asn: Option<int>, enrichment: Enrichment)
  {
    function Key(): EventKey { EventKey(eventId, occurredAt) }
  }

  type Table = map<EventKey, NewEvent>

  function InsertOne(t: Table, row: NewEvent): Table {
    if row.Key() in t then t else t[row.Key() := row]
  }

  /** The effect of one multi-row statement. */
  function InsertAll(t: Table, rows: seq<NewEvent>): Table
    decreases |rows|
  {
    if rows == [] then t else InsertAll(InsertOne(t, rows[0]), rows[1..])
  }

  /** What `RETURNING event_id` yields: one id for each row that was really inserted. */
  function Returning(t: Table, rows: seq<NewEvent>): seq<string>
    decreases |rows|
  {
    if rows == [] then []
    else (if rows[0].Key() in t then [] else [rows[0].eventId]) + Returning(InsertOne(t, rows[0]), rows[1..])
  }

  function KeysOf(rows: seq<NewEvent>): set<EventKey> {
    set row | row in rows :: row.Key()
  }

  /** No earlier row of the statement has the key of row `i`. */
  ghost predicate IsFirst(rows: seq<NewEvent>, i: nat)
    requires i < |rows|
  {
    forall j :: 0 <= j < i ==> rows[j].Key() != rows[i].Key()
  }

  /** What DO NOTHING promises, without saying how it is done: old rows stay, the first writer of a new key wins. */
  ghost predicate FirstWriterWins(before: Table, rows: seq<NewEvent>, after: Table) {
    && after.Keys == before.Keys + KeysOf(rows)
    && (forall k :: k in before ==> k in after && after[k] == before[k])
    && (forall i :: 0 <= i < |rows| && IsFirst(rows, i) && rows[i].Key() !in before ==>
          rows[i].Key() in after && after[rows[i].Key()] == rows[i])
  }

  lemma {:induction false} InsertMeaning(t: Table, rows: seq<NewEvent>)
    ensures FirstWriterWins(t, rows, InsertAll(t, rows))
    decreases |rows|
  {
    if rows == [] {
      assert KeysOf(rows) == {};
    } else {
      InsertMeaning(InsertOne(t, rows[0]), rows[1..]);
      InsertFirst(t, rows, InsertAll(t, rows));
    }
  }

  /** One row and then the others. */
  lemma InsertFirst(t: Table, rows: seq<NewEvent>, after: Table)
    requires rows != [] && FirstWriterWins(InsertOne(t, rows[0]), rows[1..], after)
    ensures FirstWriterWins(t, rows, after)
  {
    var t1 := InsertOne(t, rows[0]);
    KeysOfFirst(rows);
    hide KeysOf;
    assert t1.Keys == t.Keys + {rows[0].Key()};
    forall i | 0 <= i < |rows| && IsFirst(rows, i) && rows[i].Key() !in t
      ensures rows[i].Key() in after && after[rows[i].Key()] == rows[i]
    {
      if i > 0 { FirstInRest(rows, i); }
    }
  }

  lemma KeysOfFirst(rows: seq<NewEvent>)
    requires rows != []
    ensures KeysOf(rows) == {rows[0].Key()} + KeysOf(rows[1..])
  {
    assert rows == [rows[0]] + rows[1..];
  }

  lemma FirstInRest(rows: seq<NewEvent>, i: nat)
    requires 0 < i < |rows| && IsFirst(rows, i)
    ensures rows[1..][i - 1] == rows[i] && IsFirst(rows[1..], i - 1) && rows[i].Key() != rows[0].Key()
  {
    forall j | 0 <= j < i - 1 ensures rows[1..][j].Key() != rows[1..][i - 1].Key() {
      assert rows[1..][j] == rows[j + 1];
    }
  }

  lemma {:induction false} FirstWriter(rows: seq<NewEvent>, k: EventKey) returns (i: nat)
    requires k in KeysOf(rows)
    ensures i < |rows| && rows[i].Key() == k && IsFirst(rows, i)
  {
    if rows[0].Key() == k {
      i := 0;
    } else {
      assert rows == [rows[0]] + rows[1..];
      var h := FirstWriter(rows[1..], k);
      i := h + 1;
      forall j | 0 <= j < i ensures rows[j].Key() != rows[i].Key() {
        if j > 0 { assert rows[j] == rows[1..][j - 1]; }
      }
    }
  }

  /** The promise leaves no freedom: it determines the table. */
  lemma FirstWriterWinsIsExact(before: Table, rows: seq<NewEvent>, after: Table)
    ensures FirstWriterWins(before, rows, after) <==> after == InsertAll(before, rows)
  {
    InsertMeaning(before, rows);
    var done := InsertAll(before, rows);
    if FirstWriterWins(before, rows, after) {
      forall k | k in after.Keys ensures k in done && after[k] == done[k] {
        if k !in before {
          var i := FirstWriter(rows, k);
          assert rows[i].Key() == k && rows[i].Key() !in before;
        }
      }
      assert after.Keys == done.Keys;
      assert after == done;
    }
  }

  lemma {:induction false} InsertAppend(t: Table, a: seq<NewEvent>, b: seq<NewEvent>)
    ensures InsertAll(t, a + b) == InsertAll(InsertAll(t, a), b)
    decreases |a|
  {
    if a == [] {
      assert a + b == b;
    } else {
      assert (a + b)[1..] == a[1..] + b;
      InsertAppend(InsertOne(t, a[0]), a[1..], b);
    }
  }

  /** Rows whose keys are all present change nothing, whatever their other columns hold. */
  lemma {:induction false} InsertPresent(t: Table, rows: seq<NewEvent>)
    requires KeysOf(rows) <= t.Keys
    ensures InsertAll(t, rows) == t
    ensures Returning(t, rows) == []
  {
    if rows != [] {
      assert rows == [rows[0]] + rows[1..];
      assert rows[0].Key() in KeysOf(rows);
      assert KeysOf(rows[1..]) <= KeysOf(rows);
      InsertPresent(t, rows[1..]);
    }
  }

  /** Invariant 8 of the repository: flushing the same batch again changes nothing. */
  lemma InsertIdempotent(t: Table, rows: seq<NewEvent>)
    ensures InsertAll(InsertAll(t, rows), rows) == InsertAll(t, rows)
    ensures Returning(InsertAll(t, rows), rows) == []
  {
    InsertMeaning(t, rows);
    InsertPresent(InsertAll(t, rows), rows);
  }

  /** The number of returned ids is the growth of the table. */
  lemma {:induction false} ReturningCountsGrowth(t: Table, rows: seq<NewEvent>)
    ensures |InsertAll(t, rows)| == |t| + |Returning(t, rows)|
    ensures |Returning(t, rows)| <= |rows|
    decreases |rows|
  {
    if rows != [] {
      ReturningCountsGrowth(InsertOne(t, rows[0]), rows[1..]);
      var k := rows[0].Key();
      if k !in t {
        assert t[k := rows[0]].Keys == t.Keys + {k};
        assert |t[k := rows[0]].Keys| == |t.Keys| + 1;
      }
    }
  }

  /** The table of one database, with the rows that its constraints accept. */
  class EventsDb {
    var table: Table
    const accepts: NewEvent -> bool
    const refusal: Thrown

    constructor (table: Table, accepts: NewEvent -> bool, refusal: Thrown)
      ensures this.table == table && this.accepts == accepts && this.refusal == refusal
    {
      this.table := table;
      this.accepts := accepts;
      this.refusal := refusal;
    }

    /** One statement: all rows or, when a constraint refuses one of them, none. */
    method Execute(rows: seq<NewEvent>) returns (r: Result<seq<string>, Thrown>)
      modifies this`table
      ensures r.Ok? <==> forall row :: row in rows ==> accepts(row)
      ensures r.Ok? ==> table == InsertAll(old(table), rows) && r.value == Returning(old(table), rows)
      ensures r.Err? ==> table == old(table) && r.error == refusal
    {
      var next := table;
      var returned: seq<string> := [];
      var i := 0;
      while i < |rows|
        invariant 0 <= i <= |rows|
        invariant forall j :: 0 <= j < i ==> accepts(rows[j])
        invariant InsertAll(table, rows) == InsertAll(next, rows[i..])
        invariant Returning(table, rows) == returned + Returning(next, rows[i..])
      {
        if !accepts(rows[i]) {
          return Err(refusal);
        }
        assert rows[i..][1..] == rows[i + 1..];
        if rows[i].Key() !in next {
          returned := returned + [rows[i].eventId];
        }
        next := InsertOne(next, rows[i]);
        i := i + 1;
      }
      table := next;
      r := Ok(returned);
    }

    method InsertEventsBatch(rows: seq<NewEvent>) returns (error: Option<Thrown>)
      modifies this`table
      ensures error.None? <==> forall row :: row in rows ==> accepts(row)
      ensures error.None? ==> table == InsertAll(old(table), rows)
      ensures error.Some? ==> table == old(table) && error.value == refusal
    {
      if |rows| == 0 {
        return None;
      }
      var r := Execute(rows);
      error := if r.Err? then Some(r.error) else None;
    }

    method InsertEventsBatchWithCounts(rows: seq<NewEvent>) returns (r: Result<seq<string>, Thrown>)
      modifies this`table
      ensures r.Ok? <==> forall row :: row in rows ==> accepts(row)
      ensures r.Ok? ==> table == InsertAll(old(table), rows) && |r.value| == |table| - |old(table)|
      ensures r.Ok? ==> r.value == Returning(old(table), rows)
      ensures r.Err? ==> table == old(table) && r.error == refusal
    {
      ReturningCountsGrowth(table, rows);
      if |rows| == 0 {
        return Ok([]);
      }
      r := Execute(rows);
    }
  }
}
