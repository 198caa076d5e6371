/**
 * packages/core/src/db/sql-migrate.ts: apply each migration file once, in its own transaction together
 * with its tracking row, and roll one file back, in one transaction with the removal of that row.
 *
 * Any number of runners work on one database, statement by statement. A statement may fail at any
 * point, a COMMIT may be reported as failed although it took effect, and a runner may crash anywhere;
 * the transaction it leaves behind aborts, or commits if its COMMIT was already on the way. The
 * primary key of the tracking table makes a second INSERT of a name wait for the first one's
 * transaction, and fail if that commits. Each runner reads its own list of files, so two runners may
 * hold different versions of a file. A file is its name and the checksum of its content.
 *
 * The down SQL of a file undoes it if it is applied when that SQL runs, and does nothing (or fails)
 * otherwise; two transactions do not undo one file at a time, since they lock what they drop. A DELETE
 * takes the row that is there when it runs, waits for another one of the same row, and does not see an
 * INSERT that has not committed.
 */
module Migrations {
  import opened Prelude

  datatype File = File(name: string, checksum: string)

  /** Where a runner stands; the number is the index of the file at hand. */
  datatype Phase =
    | Checking(i: nat)
    | Connecting(i: nat)
    | Beginning(i: nat)
    | Running(i: nat)
    | Recording(i: nat)
    | Committing(i: nat)
    | RollingBack(i: nat)
    | Finished
    | Stopped

  /** `conn` is the connection checked out of the pool; a `down` runner rolls its one file back. */
  datatype Runner = Runner(files: seq<File>, down: bool, phase: Phase, conn: Option<nat>)

  /**
   * An open transaction, by connection: has the file's SQL run, is its row inserted or deleted, is COMMIT
   * on the way? Of a rollback: did its SQL find the file applied, did its DELETE find the row?
   */
  datatype Tx = Tx(file: File, down: bool, ran: bool, recorded: bool, committing: bool, undid: bool, found: bool)

  /**
   * `applied` lists the files whose SQL has committed and is not undone, in order; `returned` and
   * `destroyed` the released connections, `lost` those that went down with their runner.
   */
  datatype State = State(
    tracking: map<string, string>, applied: seq<File>, txs: map<nat, Tx>, runners: map<nat, Runner>,
    nextConn: nat, returned: seq<nat>, destroyed: seq<nat>, lost: set<nat>)

  datatype CommitFate = Done | NotCommitted | CommittedButFailed

  datatype Step =
    | Start(runner: nat, files: seq<File>)
    | StartDown(runner: nat, name: string)
    | Check(runner: nat)
    | CheckFails(runner: nat)
    | Connect(runner: nat, ok: bool)
    | Begin(runner: nat, ok: bool)
    | RunSql(runner: nat, ok: bool)
    | Record(runner: nat, ok: bool)
    | Commit(runner: nat, fate: CommitFate)
    | Rollback(runner: nat, ok: bool)
    | Crash(runner: nat)
    | Abort(conn: nat)
    | LateCommit(conn: nat)

  ghost predicate DistinctNames(files: seq<File>) {
    forall i, j :: 0 <= i < j < |files| ==> files[i].name != files[j].name
  }

  predicate IsApplied(applied: seq<File>, name: string) { exists i :: 0 <= i < |applied| && applied[i].name == name }

  function Without(applied: seq<File>, name: string): seq<File> { Filter(applied, (f: File) => f.name != name) }

  /** Has it inserted or deleted a row? */
  predicate HoldsRow(tx: Tx) { tx.recorded && (tx.down ==> tx.found) }

  /** Another open transaction holds the row of this name. */
  predicate Blocked(s: State, conn: nat, name: string) {
    exists c :: c in s.txs && c != conn && HoldsRow(s.txs[c]) && s.txs[c].file.name == name
  }

  /** Another open transaction has undone this file. */
  predicate Undone(s: State, conn: nat, name: string) {
    exists c :: c in s.txs && c != conn && s.txs[c].undid && s.txs[c].file.name == name
  }

  /** Is the connection still in the hands of a runner? */
  predicate Owned(s: State, conn: nat) {
    exists r :: r in s.runners && s.runners[r].conn == Some(conn)
  }

  predicate InTx(s: State, r: nat) {
    && r in s.runners && s.runners[r].conn.Some? && s.runners[r].conn.value in s.txs
    && HoldsConn(s.runners[r].phase) && s.runners[r].phase.i < |s.runners[r].files|
  }

  function TxOf(s: State, r: nat): Tx
    requires InTx(s, r)
  {
    s.txs[s.runners[r].conn.value]
  }

  ghost predicate Enabled(s: State, step: Step) {
    match step
    case Start(r, files) => r !in s.runners && DistinctNames(files)
    case StartDown(r, _) => r !in s.runners
    case Check(r) => r in s.runners && s.runners[r].phase.Checking?
    case CheckFails(r) => r in s.runners && s.runners[r].phase.Checking?
    case Connect(r, _) => r in s.runners && s.runners[r].phase.Connecting?
    case Begin(r, _) =>
      r in s.runners && s.runners[r].phase.Beginning? && s.runners[r].conn.Some?
        && s.runners[r].phase.i < |s.runners[r].files|
    case RunSql(r, ok) =>
      && r in s.runners && s.runners[r].phase.Running? && InTx(s, r)
      && (ok && TxOf(s, r).down && IsApplied(s.applied, TxOf(s, r).file.name) ==>
            !Undone(s, s.runners[r].conn.value, TxOf(s, r).file.name))
    case Record(r, ok) =>
      && r in s.runners && s.runners[r].phase.Recording? && InTx(s, r)
      && (ok ==>
            var name := TxOf(s, r).file.name;
            if name in s.tracking then TxOf(s, r).down && !Blocked(s, s.runners[r].conn.value, name)
            else TxOf(s, r).down || !Blocked(s, s.runners[r].conn.value, name))
    case Commit(r, _) => r in s.runners && s.runners[r].phase.Committing? && InTx(s, r)
    case Rollback(r, _) => r in s.runners && s.runners[r].phase.RollingBack? && s.runners[r].conn.Some?
    case Crash(r) => r in s.runners
    case Abort(c) => c in s.txs && !Owned(s, c)
    case LateCommit(c) => c in s.txs && !Owned(s, c) && s.txs[c].committing
  }

  function SetPhase(s: State, r: nat, phase: Phase): State
    requires r in s.runners
  {
    s.(runners := s.runners[r := s.runners[r].(phase := phase)])
  }

  /** What COMMIT does to the database: the file's SQL and its row, together. */
  function Committed(s: State, conn: nat): State
    requires conn in s.txs
  {
    var tx := s.txs[conn];
    if tx.down then
      s.(tracking := if tx.found then s.tracking - {tx.file.name} else s.tracking,
         applied := if tx.undid then Without(s.applied, tx.file.name) else s.applied, txs := s.txs - {conn})
    else
      s.(tracking := s.tracking[tx.file.name := tx.file.checksum], applied := s.applied + [tx.file],
         txs := s.txs - {conn})
  }

  /** The connection leaves the runner, back to the pool or destroyed. */
  function Released(s: State, r: nat, destroy: bool, phase: Phase): State
    requires r in s.runners && s.runners[r].conn.Some?
  {
    var c := s.runners[r].conn.value;
    s.(runners := s.runners[r := s.runners[r].(phase := phase, conn := None)],
       returned := if destroy then s.returned else s.returned + [c],
       destroyed := if destroy then s.destroyed + [c] else s.destroyed)
  }

  function NewTx(runner: Runner, i: nat): Tx
    requires i < |runner.files|
  {
    Tx(runner.files[i], runner.down, false, false, false, false, false)
  }

  function AfterSql(s: State, tx: Tx): Tx {
    tx.(ran := true, undid := tx.down && IsApplied(s.applied, tx.file.name))
  }

  function AfterRow(s: State, tx: Tx): Tx {
    tx.(recorded := true, committing := true, found := tx.down && tx.file.name in s.tracking)
  }

  /** Where a runner goes after the commit of its file `i`. */
  function Next(runner: Runner, i: nat): Phase { if runner.down then Finished else Checking(i + 1) }

  function Apply(s: State, step: Step): State
    requires Enabled(s, step)
  {
    match step
    case Start(r, files) => s.(runners := s.runners[r := Runner(files, false, Checking(0), None)])
    case StartDown(r, name) => s.(runners := s.runners[r := Runner([File(name, "")], true, Connecting(0), None)])
    case Check(r) =>
      var runner := s.runners[r];
      var i := runner.phase.i;
      if i >= |runner.files| then SetPhase(s, r, Finished)
      else if runner.files[i].name !in s.tracking then SetPhase(s, r, Connecting(i))
      else if s.tracking[runner.files[i].name] != runner.files[i].checksum then SetPhase(s, r, Stopped)
      else SetPhase(s, r, Checking(i + 1))
    case CheckFails(r) => SetPhase(s, r, Stopped)
    case Connect(r, ok) =>
      if !ok then SetPhase(s, r, Stopped)
      else s.(runners := s.runners[r := s.runners[r].(phase := Beginning(s.runners[r].phase.i),
                                                      conn := Some(s.nextConn))],
              nextConn := s.nextConn + 1)
    case Begin(r, ok) =>
      var i := s.runners[r].phase.i;
      if ok then SetPhase(s.(txs := s.txs[s.runners[r].conn.value := NewTx(s.runners[r], i)]), r, Running(i))
      else SetPhase(s, r, RollingBack(i))
    case RunSql(r, ok) =>
      var c, i := s.runners[r].conn.value, s.runners[r].phase.i;
      if ok then SetPhase(s.(txs := s.txs[c := AfterSql(s, s.txs[c])]), r, Recording(i))
      else SetPhase(s, r, RollingBack(i))
    case Record(r, ok) =>
      var c, i := s.runners[r].conn.value, s.runners[r].phase.i;
      if ok then SetPhase(s.(txs := s.txs[c := AfterRow(s, s.txs[c])]), r, Committing(i))
      else SetPhase(s, r, RollingBack(i))
    case Commit(r, fate) =>
      var c, i := s.runners[r].conn.value, s.runners[r].phase.i;
      (match fate
       case Done => Released(Committed(s, c), r, false, Next(s.runners[r], i))
       case NotCommitted => SetPhase(s.(txs := s.txs[c := s.txs[c].(committing := false)]), r, RollingBack(i))
       case CommittedButFailed => SetPhase(Committed(s, c), r, RollingBack(i)))
    case Rollback(r, ok) =>
      var c := s.runners[r].conn.value;
      Released(if ok then s.(txs := s.txs - {c}) else s, r, !ok, Stopped)
    case Crash(r) =>
      s.(runners := s.runners - {r}, lost := s.lost + if s.runners[r].conn.Some? then {s.runners[r].conn.value} else {})
    case Abort(c) => s.(txs := s.txs - {c})
    case LateCommit(c) => Committed(s, c)
  }

  function Init(tracking: map<string, string>, applied: seq<File>): State {
    State(tracking, applied, map[], map[], 0, [], [], {})
  }

  ghost predicate Runs(s: State, steps: seq<Step>)
    decreases |steps|
  {
    steps == [] || (Enabled(s, steps[0]) && Runs(Apply(s, steps[0]), steps[1..]))
  }

  ghost function After(s: State, steps: seq<Step>): State
    requires Runs(s, steps)
    decreases |steps|
  {
    if steps == [] then s else After(Apply(s, steps[0]), steps[1..])
  }

  // ---------------------------------------------------------------------------------------------
  // What every step keeps
  // ---------------------------------------------------------------------------------------------

  /** The tracking rows are exactly the files whose SQL has committed, each once. */
  ghost predicate TrackingMatches(tracking: map<string, string>, applied: seq<File>) {
    && DistinctNames(applied)
    && (forall i :: 0 <= i < |applied| ==>
      applied[i].name in tracking && tracking[applied[i].name] == applied[i].checksum)
    && (forall n :: n in tracking ==> exists i :: 0 <= i < |applied| && applied[i].name == n)
  }

  /** An inserted row is new, a deleted one there, an undone file applied; COMMIT goes out for complete work only. */
  predicate TxOk(tracking: map<string, string>, applied: seq<File>, tx: Tx) {
    && (tx.committing ==> tx.recorded) && (tx.recorded ==> tx.ran) && (!tx.down ==> !tx.undid && !tx.found)
    && (HoldsRow(tx) ==> (tx.down <==> tx.file.name in tracking))
    && (tx.undid ==> IsApplied(applied, tx.file.name))
  }

  /** No two transactions hold one row or have undone one file. */
  ghost predicate TxsOk(s: State) {
    && (forall c :: c in s.txs ==> c < s.nextConn && TxOk(s.tracking, s.applied, s.txs[c]))
    && (forall c, d :: c in s.txs && d in s.txs && c != d && HoldsRow(s.txs[c]) && HoldsRow(s.txs[d]) ==>
          s.txs[c].file.name != s.txs[d].file.name)
    && (forall c, d :: c in s.txs && d in s.txs && c != d && s.txs[c].undid && s.txs[d].undid ==>
          s.txs[c].file.name != s.txs[d].file.name)
  }

  predicate HoldsConn(phase: Phase) { !phase.Checking? && !phase.Connecting? && !phase.Finished? && !phase.Stopped? }

  ghost predicate RunnerOk(s: State, r: nat) {
    r in s.runners ==>
      var runner := s.runners[r];
      && DistinctNames(runner.files) && (runner.down ==> !runner.phase.Checking?)
      && (runner.conn.Some? <==> HoldsConn(runner.phase))
      && (runner.conn.Some? ==> runner.conn.value < s.nextConn)
      && match runner.phase
         case Connecting(i) => i < |runner.files|
         case Beginning(i) => i < |runner.files| && runner.conn.value !in s.txs
         case Running(i) => TxAt(s, runner, i) && !s.txs[runner.conn.value].recorded
         case Recording(i) =>
           TxAt(s, runner, i) && s.txs[runner.conn.value].ran && !s.txs[runner.conn.value].recorded
         case Committing(i) =>
           TxAt(s, runner, i) && s.txs[runner.conn.value].recorded && s.txs[runner.conn.value].committing
         case RollingBack(i) => i < |runner.files|
         case _ => true
  }

  predicate TxAt(s: State, runner: Runner, i: nat) {
    runner.conn.Some? && i < |runner.files| && runner.conn.value in s.txs
      && s.txs[runner.conn.value].file == runner.files[i] && s.txs[runner.conn.value].down == runner.down
  }

  /** No connection is released twice, while in use, or to the pool with a transaction still open on it. */
  ghost predicate PoolOk(s: State) {
    && (forall i, j :: 0 <= i < j < |s.returned| ==> s.returned[i] != s.returned[j])
    && (forall i, j :: 0 <= i < j < |s.destroyed| ==> s.destroyed[i] != s.destroyed[j])
    && (forall c :: c in s.returned ==> c < s.nextConn && c !in s.destroyed && c !in s.txs && !Owned(s, c))
    && (forall c :: c in s.destroyed ==> c < s.nextConn && !Owned(s, c))
    && (forall q, r :: q in s.runners && r in s.runners && q != r && s.runners[q].conn.Some? ==>
      s.runners[q].conn != s.runners[r].conn)
  }

  ghost predicate Inv(s: State) {
    TxsOk(s) && PoolOk(s) && forall r :: RunnerOk(s, r)
  }

  // ---------------------------------------------------------------------------------------------
  // Proof, step by step
  // ---------------------------------------------------------------------------------------------

  /** Runners other than `r` see only that their own transactions stay. */
  lemma OthersStay(s: State, t: State, r: nat)
    requires forall q :: RunnerOk(s, q)
    requires t.nextConn >= s.nextConn
    requires forall q :: q != r && q in t.runners ==> q in s.runners && t.runners[q] == s.runners[q]
    requires forall q :: q != r && q in s.runners && s.runners[q].conn.Some? ==>
               var c := s.runners[q].conn.value; (c in s.txs <==> c in t.txs) && (c in s.txs ==> t.txs[c] == s.txs[c])
    ensures forall q :: q != r ==> RunnerOk(t, q)
  {
    forall q | q != r ensures RunnerOk(t, q) { assert RunnerOk(s, q); }
  }

  lemma PhaseMoves(s: State, r: nat, phase: Phase)
    requires Inv(s) && r in s.runners && HoldsConn(phase) == HoldsConn(s.runners[r].phase)
    requires RunnerOk(SetPhase(s, r, phase), r)
    ensures Inv(SetPhase(s, r, phase))
  {
    var t := SetPhase(s, r, phase);
    OthersStay(s, t, r);
    forall c: nat ensures Owned(t, c) == Owned(s, c) { SameOwners(s, t, r, c); }
  }

  lemma SameOwners(s: State, t: State, r: nat, c: nat)
    requires r in s.runners && r in t.runners && t.runners[r].conn == s.runners[r].conn
    requires forall q :: q != r ==>
      (q in s.runners <==> q in t.runners) && (q in s.runners ==> t.runners[q] == s.runners[q])
    ensures Owned(t, c) == Owned(s, c)
  {
    if Owned(s, c) {
      var q :| q in s.runners && s.runners[q].conn == Some(c);
      assert q in t.runners && t.runners[q].conn == Some(c);
    }
    if Owned(t, c) {
      var q :| q in t.runners && t.runners[q].conn == Some(c);
      assert q in s.runners && s.runners[q].conn == Some(c);
    }
  }

  lemma CheckKeeps(s: State, r: nat)
    requires Inv(s) && Enabled(s, Check(r))
    ensures Inv(Apply(s, Check(r)))
  {
    assert RunnerOk(s, r);
    PhaseMoves(s, r, Apply(s, Check(r)).runners[r].phase);
  }

  lemma CheckFailsKeeps(s: State, r: nat)
    requires Inv(s) && Enabled(s, CheckFails(r))
    ensures Inv(Apply(s, CheckFails(r)))
  {
    assert RunnerOk(s, r);
    PhaseMoves(s, r, Stopped);
  }

  lemma StartKeeps(s: State, step: Step)
    requires Inv(s) && Enabled(s, step) && (step.Start? || step.StartDown?)
    ensures Inv(Apply(s, step))
  {
    hide RunnerOk, PoolOk, TxsOk, Enabled, Apply;
    var r := step.runner;
    var t := Apply(s, step);
    Newcomer(s, step);
    NewcomerPool(s, t, r);
    OthersStay(s, t, r);
  }

  lemma Newcomer(s: State, step: Step)
    requires Enabled(s, step) && (step.Start? || step.StartDown?)
    ensures var t, r := Apply(s, step), step.runner;
            r !in s.runners && r in t.runners && t.runners[r].conn == None && RunnerOk(t, r)
              && t == s.(runners := s.runners[r := t.runners[r]])
  {
  }

  /** A runner that holds nothing joins. */
  lemma NewcomerPool(s: State, t: State, r: nat)
    requires PoolOk(s) && TxsOk(s) && r !in s.runners && r in t.runners && t.runners[r].conn == None
    requires t == s.(runners := s.runners[r := t.runners[r]])
    ensures PoolOk(t) && TxsOk(t)
  {
    forall c: nat ensures Owned(t, c) == Owned(s, c) {
      if Owned(s, c) {
        var q :| q in s.runners && s.runners[q].conn == Some(c);
        assert q in t.runners && t.runners[q].conn == Some(c);
      }
    }
  }

  lemma ConnectKeeps(s: State, r: nat, ok: bool)
    requires Inv(s) && Enabled(s, Connect(r, ok))
    ensures Inv(Apply(s, Connect(r, ok)))
  {
    assert RunnerOk(s, r);
    if !ok {
      PhaseMoves(s, r, Stopped);
    } else {
      var t := Apply(s, Connect(r, ok));
      ConnectedOk(s, r);
      hide RunnerOk, PoolOk, TxsOk;
      ConnectedPool(s, t, r);
      OthersStay(s, t, r);
    }
  }

  lemma ConnectedOk(s: State, r: nat)
    requires RunnerOk(s, r) && TxsOk(s) && Enabled(s, Connect(r, true))
    ensures RunnerOk(Apply(s, Connect(r, true)), r)
  {
  }

  /** The runner takes a connection that nobody has had before. */
  lemma ConnectedPool(s: State, t: State, r: nat)
    requires PoolOk(s) && TxsOk(s) && r in s.runners && r in t.runners && forall q :: RunnerOk(s, q)
    requires t == s.(runners := s.runners[r := t.runners[r]], nextConn := s.nextConn + 1)
      && t.runners[r].conn == Some(s.nextConn)
    ensures PoolOk(t) && TxsOk(t)
  {
    forall q | q in s.runners && s.runners[q].conn.Some?
      ensures s.runners[q].conn.value < s.nextConn
    {
      assert RunnerOk(s, q);
    }
    hide RunnerOk;
    forall c: nat | Owned(t, c) && c != s.nextConn ensures Owned(s, c) {
      var q :| q in t.runners && t.runners[q].conn == Some(c);
      assert q in s.runners && s.runners[q].conn == Some(c);
    }
  }

  /** The transaction of the runner moves on and takes nothing that another one has. */
  lemma TxMoves(s: State, r: nat, tx: Tx, phase: Phase)
    requires Inv(s) && r in s.runners && s.runners[r].conn.Some? && HoldsConn(phase)
    requires var c := s.runners[r].conn.value;
             && TxOk(s.tracking, s.applied, tx) && TakesNothing(s, c, tx)
             && RunnerOk(SetPhase(s.(txs := s.txs[c := tx]), r, phase), r)
    ensures Inv(SetPhase(s.(txs := s.txs[s.runners[r].conn.value := tx]), r, phase))
  {
    var c := s.runners[r].conn.value;
    var u := s.(txs := s.txs[c := tx]);
    assert RunnerOk(s, r) && c < s.nextConn && c !in s.returned by { assert RunnerOk(s, r); assert Owned(s, c); }
    TxChanges(s, c, tx);
    TxPool(s, u, c);
    hide PoolOk, TxsOk;
    OthersHoldOthers(s, r);
    hide RunnerOk;
    SamePool(u, SetPhase(u, r, phase), r);
    OthersStay(s, SetPhase(u, r, phase), r);
  }

  predicate TakesNothing(s: State, c: nat, tx: Tx) {
    (HoldsRow(tx) ==> !Blocked(s, c, tx.file.name)) && (tx.undid ==> !Undone(s, c, tx.file.name))
  }

  lemma TxChanges(s: State, c: nat, tx: Tx)
    requires TxsOk(s) && c < s.nextConn && TxOk(s.tracking, s.applied, tx) && TakesNothing(s, c, tx)
    ensures TxsOk(s.(txs := s.txs[c := tx]))
  {
    hide TxOk, HoldsRow;
    forall d | d in s.txs && d != c && HoldsRow(tx) && HoldsRow(s.txs[d]) ensures s.txs[d].file.name != tx.file.name {
      assert !Blocked(s, c, tx.file.name);
    }
    forall d | d in s.txs && d != c && tx.undid && s.txs[d].undid ensures s.txs[d].file.name != tx.file.name {
      assert !Undone(s, c, tx.file.name);
    }
  }

  /** What a transaction has it has alone. */
  lemma HasAlone(s: State, c: nat)
    requires TxsOk(s) && c in s.txs
    ensures TakesNothing(s, c, s.txs[c])
  {
  }

  lemma TxPool(s: State, u: State, c: nat)
    requires PoolOk(s) && u == s.(txs := u.txs) && c !in s.returned && forall d :: d in u.txs && d != c ==> d in s.txs
    ensures PoolOk(u)
  {
    forall d: nat ensures Owned(u, d) == Owned(s, d) { SameRunnersOwn(s, u, d); }
  }

  lemma SameRunnersOwn(s: State, u: State, c: nat)
    requires u.runners == s.runners
    ensures Owned(u, c) == Owned(s, c)
  {
    if q :| q in s.runners && s.runners[q].conn == Some(c) { assert u.runners[q].conn == Some(c); }
    if q :| q in u.runners && u.runners[q].conn == Some(c) { assert s.runners[q].conn == Some(c); }
  }

  /** No other runner holds this runner's connection. */
  lemma OthersHoldOthers(s: State, r: nat)
    requires PoolOk(s) && r in s.runners && s.runners[r].conn.Some?
    ensures forall q :: q in s.runners && q != r ==> s.runners[q].conn != s.runners[r].conn
  {
  }

  lemma BeginKeeps(s: State, r: nat, ok: bool)
    requires Inv(s) && Enabled(s, Begin(r, ok))
    ensures Inv(Apply(s, Begin(r, ok)))
  {
    assert RunnerOk(s, r);
    var i := s.runners[r].phase.i;
    if ok { TxMoves(s, r, NewTx(s.runners[r], i), Running(i)); } else { PhaseMoves(s, r, RollingBack(i)); }
  }

  lemma RunSqlKeeps(s: State, r: nat, ok: bool)
    requires Inv(s) && Enabled(s, RunSql(r, ok))
    ensures Inv(Apply(s, RunSql(r, ok)))
  {
    assert RunnerOk(s, r);
    var c, i := s.runners[r].conn.value, s.runners[r].phase.i;
    if ok {
      HasAlone(s, c);
      TxMoves(s, r, AfterSql(s, s.txs[c]), Recording(i));
    } else {
      PhaseMoves(s, r, RollingBack(i));
    }
  }

  lemma RecordKeeps(s: State, r: nat, ok: bool)
    requires Inv(s) && Enabled(s, Record(r, ok))
    ensures Inv(Apply(s, Record(r, ok)))
  {
    assert RunnerOk(s, r);
    var c, i := s.runners[r].conn.value, s.runners[r].phase.i;
    if ok {
      HasAlone(s, c);
      TxMoves(s, r, AfterRow(s, s.txs[c]), Committing(i));
    } else {
      PhaseMoves(s, r, RollingBack(i));
    }
  }

  lemma StillApplied(applied: seq<File>, name: string, other: string)
    requires IsApplied(applied, other) && other != name
    ensures IsApplied(Without(applied, name), other)
  {
    var i :| 0 <= i < |applied| && applied[i].name == other;
    FilterMembers(applied, (f: File) => f.name != name, applied[i]);
    assert applied[i] in Without(applied, name);
  }

  /** To another transaction, a COMMIT changes nothing that it relies on. */
  lemma CommitLeavesTx(s: State, c: nat, d: nat)
    requires TxsOk(s) && c in s.txs && s.txs[c].recorded && d in s.txs && c != d
    ensures var t := Committed(s, c); TxOk(t.tracking, t.applied, s.txs[d])
  {
    var t, tx, other := Committed(s, c), s.txs[c], s.txs[d];
    assert TxOk(s.tracking, s.applied, tx) && TxOk(s.tracking, s.applied, other);
    if other.undid {
      if tx.undid {
        StillApplied(s.applied, tx.file.name, other.file.name);
      } else {
        var i :| 0 <= i < |s.applied| && s.applied[i].name == other.file.name;
        assert t.applied[i] == s.applied[i];
      }
    }
  }

  /** The effect of COMMIT by itself, on a recorded transaction. */
  lemma CommittedKeeps(s: State, c: nat)
    requires TxsOk(s) && PoolOk(s) && c in s.txs && s.txs[c].recorded
    ensures var t := Committed(s, c); TxsOk(t) && PoolOk(t)
  {
    var t := Committed(s, c);
    hide TxOk, IsApplied, Without;
    forall d | d in t.txs ensures TxOk(t.tracking, t.applied, t.txs[d]) { CommitLeavesTx(s, c, d); }
    forall d: nat ensures Owned(t, d) == Owned(s, d) { SameRunnersOwn(s, t, d); }
  }

  /** Handing the connection over to the pool or to destruction. */
  lemma ReleasedKeeps(s: State, r: nat, destroy: bool, phase: Phase)
    requires TxsOk(s) && PoolOk(s)
    requires r in s.runners && s.runners[r].conn.Some? && s.runners[r].conn.value < s.nextConn && !HoldsConn(phase)
    requires !destroy ==> s.runners[r].conn.value !in s.txs
    ensures var t := Released(s, r, destroy, phase); TxsOk(t) && PoolOk(t)
  {
    var c := s.runners[r].conn.value;
    var t := Released(s, r, destroy, phase);
    assert Owned(s, c);
    forall d: nat | Owned(t, d) ensures Owned(s, d) && d != c {
      var q :| q in t.runners && t.runners[q].conn == Some(d);
      assert q in s.runners && s.runners[q].conn == Some(d);
    }
  }

  /** For every other runner, a COMMIT takes away a transaction that is not its own. */
  lemma CommittedOthers(s: State, c: nat, t: State, r: nat)
    requires Inv(s) && r in s.runners && s.runners[r].conn == Some(c) && c in s.txs && s.txs[c].recorded
    requires t.txs == Committed(s, c).txs && t.nextConn == s.nextConn
    requires forall q :: q != r && q in t.runners ==> q in s.runners && t.runners[q] == s.runners[q]
    ensures forall q :: q != r ==> RunnerOk(t, q)
  {
    OthersStay(s, t, r);
  }

  lemma CommitFailsKeeps(s: State, r: nat)
    requires Inv(s) && Enabled(s, Commit(r, CommittedButFailed))
    ensures Inv(Apply(s, Commit(r, CommittedButFailed)))
  {
    assert RunnerOk(s, r);
    var c := s.runners[r].conn.value;
    var t := Apply(s, Commit(r, CommittedButFailed));
    OwnRunnerAfterLostAnswer(s, r);
    hide RunnerOk, PoolOk, TxsOk;
    CommittedKeeps(s, c);
    CommittedOthers(s, c, t, r);
    SamePool(Committed(s, c), t, r);
  }

  lemma OwnRunnerAfterLostAnswer(s: State, r: nat)
    requires RunnerOk(s, r) && Enabled(s, Commit(r, CommittedButFailed))
    ensures RunnerOk(Apply(s, Commit(r, CommittedButFailed)), r)
  {
  }

  lemma OwnRunnerAfterCommit(s: State, r: nat)
    requires RunnerOk(s, r) && Enabled(s, Commit(r, Done))
    ensures RunnerOk(Apply(s, Commit(r, Done)), r)
  {
  }

  lemma CommitDoneKeeps(s: State, r: nat)
    requires Inv(s) && Enabled(s, Commit(r, Done))
    ensures Inv(Apply(s, Commit(r, Done)))
  {
    assert RunnerOk(s, r);
    var c, i := s.runners[r].conn.value, s.runners[r].phase.i;
    OwnRunnerAfterCommit(s, r);
    var t := Released(Committed(s, c), r, false, Next(s.runners[r], i));
    assert t == Apply(s, Commit(r, Done));
    hide RunnerOk, PoolOk, TxsOk, Enabled, Apply;
    CommittedKeeps(s, c);
    CommittedOthers(s, c, t, r);
    ReleasedKeeps(Committed(s, c), r, false, Next(s.runners[r], i));
  }

  lemma CommitKeeps(s: State, r: nat, fate: CommitFate)
    requires Inv(s) && Enabled(s, Commit(r, fate))
    ensures Inv(Apply(s, Commit(r, fate)))
  {
    match fate
    case Done => CommitDoneKeeps(s, r);
    case CommittedButFailed => CommitFailsKeeps(s, r);
    case NotCommitted =>
      assert RunnerOk(s, r);
      HasAlone(s, s.runners[r].conn.value);
      TxMoves(s, r, s.txs[s.runners[r].conn.value].(committing := false), RollingBack(s.runners[r].phase.i));
  }

  lemma SamePool(s: State, t: State, r: nat)
    requires PoolOk(s) && TxsOk(s) && r in s.runners && r in t.runners && t == SetPhase(s, r, t.runners[r].phase)
    ensures PoolOk(t) && TxsOk(t)
  {
    forall c: nat ensures Owned(t, c) == Owned(s, c) { SameOwners(s, t, r, c); }
  }

  lemma RollbackKeeps(s: State, r: nat, ok: bool)
    requires Inv(s) && Enabled(s, Rollback(r, ok))
    ensures Inv(Apply(s, Rollback(r, ok)))
  {
    assert RunnerOk(s, r);
    var c := s.runners[r].conn.value;
    var u := if ok then s.(txs := s.txs - {c}) else s;
    OthersHoldOthers(s, r);
    OwnRunnerAfterRollback(s, r, ok);
    hide RunnerOk, PoolOk, TxsOk;
    FewerTxs(s, u);
    ReleasedKeeps(u, r, !ok, Stopped);
    OthersStay(s, Apply(s, Rollback(r, ok)), r);
  }

  lemma OwnRunnerAfterRollback(s: State, r: nat, ok: bool)
    requires RunnerOk(s, r) && Enabled(s, Rollback(r, ok))
    ensures RunnerOk(Apply(s, Rollback(r, ok)), r)
  {
  }

  lemma FewerTxs(s: State, u: State)
    requires TxsOk(s) && PoolOk(s) && u == s.(txs := u.txs) && forall c :: c in u.txs ==>
      c in s.txs && u.txs[c] == s.txs[c]
    ensures TxsOk(u) && PoolOk(u)
  {
    forall c: nat ensures Owned(u, c) == Owned(s, c) { SameRunnersOwn(s, u, c); }
  }

  lemma CrashKeeps(s: State, r: nat)
    requires Inv(s) && Enabled(s, Crash(r))
    ensures Inv(Apply(s, Crash(r)))
  {
    var t := Apply(s, Crash(r));
    OthersStay(s, t, r);
    forall c: nat | Owned(t, c) ensures Owned(s, c) {
      var q :| q in t.runners && t.runners[q].conn == Some(c);
      assert q in s.runners && s.runners[q].conn == Some(c);
    }
  }

  lemma AbortKeeps(s: State, c: nat)
    requires Inv(s) && Enabled(s, Abort(c))
    ensures Inv(Apply(s, Abort(c)))
  {
    var t := Apply(s, Abort(c));
    FewerTxs(s, t);
    forall q ensures RunnerOk(t, q) {
      assert RunnerOk(s, q);
      assert q in s.runners ==> s.runners[q].conn != Some(c);
    }
  }

  lemma LateCommitKeeps(s: State, c: nat)
    requires Inv(s) && Enabled(s, LateCommit(c))
    ensures Inv(Apply(s, LateCommit(c)))
  {
    var t := Apply(s, LateCommit(c));
    NobodyHolds(s, c);
    CommittedKeeps(s, c);
    hide PoolOk;
    forall q ensures RunnerOk(t, q) { LateCommitSeen(s, c, q); }
  }

  lemma LateCommitSeen(s: State, c: nat, q: nat)
    requires RunnerOk(s, q) && c in s.txs && (q in s.runners ==> s.runners[q].conn != Some(c))
    ensures RunnerOk(Committed(s, c), q)
  {
  }

  lemma NobodyHolds(s: State, c: nat)
    requires !Owned(s, c)
    ensures forall q :: q in s.runners ==> s.runners[q].conn != Some(c)
  {
  }

  lemma StepKeeps(s: State, step: Step)
    requires Inv(s) && Enabled(s, step)
    ensures Inv(Apply(s, step))
  {
    match step
    case Start(_, _) => StartKeeps(s, step);
    case StartDown(_, _) => StartKeeps(s, step);
    case Check(r) => CheckKeeps(s, r);
    case CheckFails(r) => CheckFailsKeeps(s, r);
    case Connect(r, ok) => ConnectKeeps(s, r, ok);
    case Begin(r, ok) => BeginKeeps(s, r, ok);
    case RunSql(r, ok) => RunSqlKeeps(s, r, ok);
    case Record(r, ok) => RecordKeeps(s, r, ok);
    case Commit(r, fate) => CommitKeeps(s, r, fate);
    case Rollback(r, ok) => RollbackKeeps(s, r, ok);
    case Crash(r) => CrashKeeps(s, r);
    case Abort(c) => AbortKeeps(s, c);
    case LateCommit(c) => LateCommitKeeps(s, c);
  }

  lemma {:induction false} RunKeeps(s: State, steps: seq<Step>)
    requires Inv(s) && Runs(s, steps)
    ensures Inv(After(s, steps))
    decreases |steps|
  {
    if steps != [] {
      StepKeeps(s, steps[0]);
      RunKeeps(Apply(s, steps[0]), steps[1..]);
    }
  }

  /** Where a connection that was checked out can be. */
  ghost predicate Placed(s: State, c: nat) { c in s.returned || c in s.destroyed || c in s.lost || Owned(s, c) }

  ghost predicate NoneForgotten(s: State) { forall c: nat :: c < s.nextConn ==> Placed(s, c) }

  /** What lies between two checks of who holds what: only runner `r` changes hands. */
  lemma StillPlaced(s: State, t: State, r: nat, c: nat)
    requires Placed(s, c) && s.returned <= t.returned && s.destroyed <= t.destroyed && s.lost <= t.lost
    requires forall q :: q != r && q in s.runners ==> q in t.runners && t.runners[q] == s.runners[q]
    requires r in s.runners && s.runners[r].conn == Some(c) ==>
               c in t.returned || c in t.destroyed || c in t.lost || (r in t.runners && t.runners[r].conn == Some(c))
    ensures Placed(t, c)
  {
    if Owned(s, c) {
      var q :| q in s.runners && s.runners[q].conn == Some(c);
      if q != r { assert t.runners[q].conn == Some(c); }
    }
  }

  lemma StepForgetsNone(s: State, step: Step)
    requires Inv(s) && NoneForgotten(s) && Enabled(s, step)
    ensures NoneForgotten(Apply(s, step))
  {
    var t := Apply(s, step);
    if step.Abort? || step.LateCommit? {
      forall c: nat | c < t.nextConn ensures Placed(t, c) { SameHands(s, t, c); }
    } else {
      assert RunnerOk(s, step.runner);
      hide Inv, RunnerOk, Placed, Enabled, Apply;
      forall c: nat | c < t.nextConn ensures Placed(t, c) { HandsChange(s, step, c); }
    }
  }

  /** One runner's step: what it gives away is returned, destroyed or lost, and what is new it holds. */
  lemma HandsChange(s: State, step: Step, c: nat)
    requires OfRunner(step) && RunnerOk(s, step.runner) && Enabled(s, step) && c < Apply(s, step).nextConn
    requires c < s.nextConn ==> Placed(s, c)
    ensures Placed(Apply(s, step), c)
  {
    hide RunnerOk, Enabled, Apply;
    OthersUntouched(s, step);
    GivesAway(s, step);
    NewConnection(s, step);
    if c < s.nextConn { StillPlaced(s, Apply(s, step), step.runner, c); }
  }

  predicate OfRunner(step: Step) { !step.Abort? && !step.LateCommit? }

  lemma OthersUntouched(s: State, step: Step)
    requires Enabled(s, step) && OfRunner(step)
    ensures var t := Apply(s, step);
            forall q :: q != step.runner && q in s.runners ==> q in t.runners && t.runners[q] == s.runners[q]
  {
  }

  lemma GivesAway(s: State, step: Step)
    requires Enabled(s, step) && OfRunner(step) && (step.runner in s.runners ==> RunnerOk(s, step.runner))
    ensures var t, r := Apply(s, step), step.runner;
            && s.returned <= t.returned && s.destroyed <= t.destroyed && s.lost <= t.lost
            && (r in s.runners && s.runners[r].conn.Some? ==>
                  var c := s.runners[r].conn.value;
                  c in t.returned || c in t.destroyed || c in t.lost
                    || (r in t.runners && t.runners[r].conn == Some(c)))
  {
    hide Committed, NewTx, AfterSql, AfterRow, Blocked, Undone, IsApplied, TxAt;
    if step.Commit? { CommitLeavesRunners(s, s.runners[step.runner].conn.value); }
  }

  lemma CommitLeavesRunners(s: State, c: nat)
    requires c in s.txs
    ensures var t := Committed(s, c);
            t.runners == s.runners && t.returned == s.returned && t.destroyed == s.destroyed && t.lost == s.lost
  {
  }

  lemma NewConnection(s: State, step: Step)
    requires Enabled(s, step) && OfRunner(step)
    ensures var t, r := Apply(s, step), step.runner;
            t.nextConn == s.nextConn || (t.nextConn == s.nextConn + 1 && r in t.runners
              && t.runners[r].conn == Some(s.nextConn))
  {
  }

  lemma SameHands(s: State, t: State, c: nat)
    requires Placed(s, c) && t.runners == s.runners && t.returned == s.returned && t.destroyed == s.destroyed
      && t.lost == s.lost
    ensures Placed(t, c)
  {
    if Owned(s, c) {
      var q :| q in s.runners && s.runners[q].conn == Some(c);
      assert t.runners[q].conn == Some(c);
    }
  }

  lemma {:induction false} RunForgetsNone(s: State, steps: seq<Step>)
    requires Inv(s) && NoneForgotten(s) && Runs(s, steps)
    ensures NoneForgotten(After(s, steps))
    decreases |steps|
  {
    if steps != [] {
      StepKeeps(s, steps[0]);
      StepForgetsNone(s, steps[0]);
      RunForgetsNone(Apply(s, steps[0]), steps[1..]);
    }
  }
}
