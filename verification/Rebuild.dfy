/** Postgres is a rebuildable projection of R2, from any reachable state of the pipeline. */
module Rebuild {
  import opened Prelude
  import opened EventsTable
  import opened Flush
  import opened FlushTheorems
  import opened Pipeline
  import opened PipelineTheorems

  type Archive = map<string, seq<LoggedEvent>>

  /** A listing visits each object once. */
  ghost predicate Lists(keys: seq<string>, r2: Archive) {
    NoDup(keys) && forall k :: k in keys <==> k in r2
  }

  /** The records of the objects, one object after the other. */
  function Stream(r2: Archive, keys: seq<string>): seq<LoggedEvent>
    requires forall k :: k in keys ==> k in r2
  {
    if keys == [] then [] else r2[keys[0]] + Stream(r2, keys[1..])
  }

  lemma {:induction false} StreamMembers(r2: Archive, keys: seq<string>, l: LoggedEvent)
    requires forall k :: k in keys ==> k in r2
    ensures l in Stream(r2, keys) <==> exists k :: k in keys && l in r2[k]
  {
    if keys != [] {
      assert keys == [keys[0]] + keys[1..];
      StreamMembers(r2, keys[1..], l);
    }
  }

  /** The table that a replay of the whole archive builds from nothing. */
  function Rebuilt(r2: Archive, keys: seq<string>): Table
    requires forall k :: k in keys ==> k in r2
  {
    InsertAll(map[], RowsOf(Stream(r2, keys)))
  }

  ghost predicate HasKey(r2: Archive, key: EventKey) {
    exists k, l :: k in r2 && l in r2[k] && l.event.Key() == key
  }

  /** No two different captured events share an id and an instant. */
  ghost predicate KeysIdentifyEvents(r2: Archive) {
    forall k, l, j, m :: k in r2 && l in r2[k] && j in r2 && m in r2[j] && l.event.Key() == m.event.Key() ==>
      l.event == m.event
  }

  /** Exactly one row per archived key, and each is the projection of an archived record. */
  lemma RebuiltTable(r2: Archive, keys: seq<string>)
    requires Lists(keys, r2)
    ensures forall key :: key in Rebuilt(r2, keys) <==> HasKey(r2, key)
    ensures forall key :: key in Rebuilt(r2, keys) ==>
              exists k, l :: k in r2 && l in r2[k] && l.event.Key() == key && Rebuilt(r2, keys)[key] == ToNewEventRow(l)
  {
    hide Rebuilt, HasKey, Stream, RowsOf;
    forall key ensures key in Rebuilt(r2, keys) <==> HasKey(r2, key) {
      RebuiltKeys(r2, keys, key);
      StreamKeys(r2, keys, key);
    }
    forall key | key in Rebuilt(r2, keys)
      ensures exists k, l :: k in r2 && l in r2[k] && l.event.Key() == key && Rebuilt(r2, keys)[key] == ToNewEventRow(l)
    {
      var i := RebuiltRow(r2, keys, key);
      RowCame(r2, keys, i);
    }
  }

  lemma RebuiltKeys(r2: Archive, keys: seq<string>, key: EventKey)
    requires forall k :: k in keys ==> k in r2
    ensures key in Rebuilt(r2, keys) <==>
      exists i :: 0 <= i < |Stream(r2, keys)| && Stream(r2, keys)[i].event.Key() == key
  {
    hide Stream, RowsOf, InsertAll;
    InsertMeaning(map[], RowsOf(Stream(r2, keys)));
    RowKeys(Stream(r2, keys));
  }

  /** The row of a rebuilt table is the one written first. */
  lemma RebuiltRow(r2: Archive, keys: seq<string>, key: EventKey) returns (i: nat)
    requires (forall k :: k in keys ==> k in r2) && key in Rebuilt(r2, keys)
    ensures i < |RowsOf(Stream(r2, keys))| && RowsOf(Stream(r2, keys))[i].Key() == key
    ensures Rebuilt(r2, keys)[key] == RowsOf(Stream(r2, keys))[i]
  {
    hide Stream, RowsOf, InsertAll, KeysOf;
    InsertMeaning(map[], RowsOf(Stream(r2, keys)));
    i := FirstWriter(RowsOf(Stream(r2, keys)), key);
  }

  /** The keys of the streamed records are those of the archive. */
  lemma StreamKeys(r2: Archive, keys: seq<string>, key: EventKey)
    requires Lists(keys, r2)
    ensures (exists i :: 0 <= i < |Stream(r2, keys)| && Stream(r2, keys)[i].event.Key() == key) <==> HasKey(r2, key)
  {
    hide Stream;
    var records := Stream(r2, keys);
    if i :| 0 <= i < |records| && records[i].event.Key() == key {
      StreamMembers(r2, keys, records[i]);
    }
    if k, l :| k in r2 && l in r2[k] && l.event.Key() == key {
      StreamMembers(r2, keys, l);
      var i :| 0 <= i < |records| && records[i] == l;
      assert records[i].event.Key() == key;
    }
  }

  lemma RowCame(r2: Archive, keys: seq<string>, i: nat)
    requires Lists(keys, r2) && i < |RowsOf(Stream(r2, keys))|
    ensures exists k, l :: k in r2 && l in r2[k] && l.event.Key() == RowsOf(Stream(r2, keys))[i].Key()
                           && RowsOf(Stream(r2, keys))[i] == ToNewEventRow(l)
  {
    hide Stream;
    var records := Stream(r2, keys);
    StreamMembers(r2, keys, records[i]);
    var k :| k in keys && records[i] in r2[k];
    assert RowsOf(records)[i] == ToNewEventRow(records[i]);
  }

  /**
   * From any reachable state: replaying R2 into an empty table yields exactly one row per archived
   * key, in whatever order the objects are listed, covers every key the live table holds, and a
   * second replay changes nothing.
   */
  lemma PostgresIsRebuildable(cfg: Config, steps: seq<Step>, keys: seq<string>)
    requires Run(cfg, Init(), steps).Some?
    requires Lists(keys, Run(cfg, Init(), steps).value.stores.r2)
    ensures var s := Run(cfg, Init(), steps).value.stores;
            && (forall key :: key in Rebuilt(s.r2, keys) <==> HasKey(s.r2, key))
            && s.table.Keys <= Rebuilt(s.r2, keys).Keys
            && InsertAll(Rebuilt(s.r2, keys), RowsOf(Stream(s.r2, keys))) == Rebuilt(s.r2, keys)
  {
    var s := Run(cfg, Init(), steps).value.stores;
    R2CoversPostgres(cfg, steps);
    RebuiltTable(s.r2, keys);
    forall key | key in s.table ensures HasKey(s.r2, key) {
      var k, i :| k in s.r2 && 0 <= i < |s.r2[k]| && RowOf(s.r2[k][i].event, s.table[key].enrichment) == s.table[key];
      assert s.r2[k][i] in s.r2[k] && s.r2[k][i].event.Key() == key;
    }
    InsertIdempotent(map[], RowsOf(Stream(s.r2, keys)));
  }

  /**
   * When ids are unique, the rebuilt row of a live key agrees with the live row in every captured
   * column; only what the worker derived may differ, since each attempt derives it anew.
   */
  lemma RebuiltRowsAgree(cfg: Config, steps: seq<Step>, keys: seq<string>, key: EventKey)
    requires Run(cfg, Init(), steps).Some?
    requires var s := Run(cfg, Init(), steps).value.stores;
             Lists(keys, s.r2) && KeysIdentifyEvents(s.r2) && key in s.table
    ensures var s := Run(cfg, Init(), steps).value.stores;
            key in Rebuilt(s.r2, keys)
              && Rebuilt(s.r2, keys)[key].(enrichment := s.table[key].enrichment) == s.table[key]
  {
    R2CoversPostgres(cfg, steps);
    RowAgrees(Run(cfg, Init(), steps).value.stores, keys, key);
  }

  lemma RowAgrees(s: Stores, keys: seq<string>, key: EventKey)
    requires Covered(s) && Lists(keys, s.r2) && KeysIdentifyEvents(s.r2) && key in s.table
    ensures key in Rebuilt(s.r2, keys)
      && Rebuilt(s.r2, keys)[key].(enrichment := s.table[key].enrichment) == s.table[key]
  {
    hide Rebuilt, KeysIdentifyEvents;
    RebuiltTable(s.r2, keys);
    var k, i :| k in s.r2 && 0 <= i < |s.r2[k]| && RowOf(s.r2[k][i].event, s.table[key].enrichment) == s.table[key];
    var live := s.r2[k][i];
    assert live in s.r2[k] && live.event.Key() == key;
    assert HasKey(s.r2, key);
    var j, l :| j in s.r2 && l in s.r2[j] && l.event.Key() == key && Rebuilt(s.r2, keys)[key] == ToNewEventRow(l);
    SameEvent(s.r2, k, live, j, l);
  }

  lemma SameEvent(r2: Archive, k: string, l: LoggedEvent, j: string, m: LoggedEvent)
    requires KeysIdentifyEvents(r2) && k in r2 && l in r2[k] && j in r2 && m in r2[j] && l.event.Key() == m.event.Key()
    ensures l.event == m.event
  {
  }

  /** Replaying into the live table instead adds what is missing and leaves every live row as it is. */
  lemma ReplayIntoLive(r2: Archive, keys: seq<string>, live: Table)
    requires Lists(keys, r2)
    ensures var after := InsertAll(live, RowsOf(Stream(r2, keys)));
            && (forall key :: key in live ==> key in after && after[key] == live[key])
            && (forall key :: key in after <==> key in live || HasKey(r2, key))
  {
    RebuiltTable(r2, keys);
    InsertMeaning(live, RowsOf(Stream(r2, keys)));
    InsertMeaning(map[], RowsOf(Stream(r2, keys)));
  }
}
