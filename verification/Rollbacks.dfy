/**
 * When the tracking rows are the applied files, with rollbacks among the runners' work: exactly, and what
 * that asks of a rollback.
 */
module Rollbacks {
  import opened Prelude
  import opened Migrations

  lemma OneMoreApplied(tracking: map<string, string>, applied: seq<File>, file: File)
    requires TrackingMatches(tracking, applied) && file.name !in tracking
    ensures TrackingMatches(tracking[file.name := file.checksum], applied + [file])
  {
    var more := applied + [file];
    var after := tracking[file.name := file.checksum];
    forall n | n in after ensures exists i :: 0 <= i < |more| && more[i].name == n {
      if n == file.name {
        assert more[|applied|].name == n;
      } else {
        var i :| 0 <= i < |applied| && applied[i].name == n;
        assert more[i].name == n;
      }
    }
  }

  lemma {:induction false} FilterKeepsDistinct(files: seq<File>, keep: File -> bool)
    requires DistinctNames(files)
    ensures DistinctNames(Filter(files, keep))
  {
    if files != [] {
      FilterKeepsDistinct(files[1..], keep);
      var rest := Filter(files[1..], keep);
      forall i | 0 <= i < |rest| ensures rest[i].name != files[0].name {
        FilterMembers(files[1..], keep, rest[i]);
        var j :| 0 <= j < |files[1..]| && files[1..][j] == rest[i];
        assert files[j + 1].name != files[0].name;
      }
    }
  }

  /** Rolling one file back keeps the rows equal to the applied files. */
  lemma DownKeepsTracking(tracking: map<string, string>, applied: seq<File>, name: string)
    requires TrackingMatches(tracking, applied)
    ensures TrackingMatches(tracking - {name}, Without(applied, name))
  {
    var keep := (f: File) => f.name != name;
    var rest := Without(applied, name);
    FilterKeepsDistinct(applied, keep);
    forall i | 0 <= i < |rest| ensures rest[i].name in tracking - {name} && tracking[rest[i].name] == rest[i].checksum {
      FilterMembers(applied, keep, rest[i]);
    }
    forall n | n in tracking - {name} ensures exists i :: 0 <= i < |rest| && rest[i].name == n {
      var k :| 0 <= k < |applied| && applied[k].name == n;
      FilterMembers(applied, keep, applied[k]);
      assert applied[k] in rest;
    }
  }

  /** Taking away only one of a row and its file does not. */
  lemma OneSideOnly(tracking: map<string, string>, applied: seq<File>, name: string)
    requires TrackingMatches(tracking, applied) && name in tracking
    ensures !TrackingMatches(tracking, Without(applied, name)) && !TrackingMatches(tracking - {name}, applied)
  {
    var rest := Without(applied, name);
    forall i | 0 <= i < |rest| ensures rest[i].name != name {
      FilterMembers(applied, (f: File) => f.name != name, rest[i]);
    }
    var i :| 0 <= i < |applied| && applied[i].name == name;
    assert applied[i].name !in tracking - {name};
  }

  ghost predicate Matches(s: State) { TrackingMatches(s.tracking, s.applied) }

  lemma TrackedIsApplied(tracking: map<string, string>, applied: seq<File>, name: string)
    requires TrackingMatches(tracking, applied)
    ensures name in tracking <==> IsApplied(applied, name)
  {
  }

  /** A rollback deleted its row if and only if it undid its file. */
  predicate Even(tx: Tx) { tx.down ==> tx.undid == tx.found }

  lemma CommitMatches(s: State, c: nat)
    requires TxsOk(s) && Matches(s) && c in s.txs && s.txs[c].recorded
    ensures Matches(Committed(s, c)) <==> Even(s.txs[c])
  {
    var tx := s.txs[c];
    assert TxOk(s.tracking, s.applied, tx);
    TrackedIsApplied(s.tracking, s.applied, tx.file.name);
    hide TrackingMatches, TxsOk;
    if !tx.down {
      OneMoreApplied(s.tracking, s.applied, tx.file);
    } else if tx.undid && tx.found {
      DownKeepsTracking(s.tracking, s.applied, tx.file.name);
    } else if tx.undid || tx.found {
      OneSideOnly(s.tracking, s.applied, tx.file.name);
    }
  }

  /** The transaction that takes effect with a step. */
  ghost function CommitOf(s: State, step: Step): Option<nat>
    requires Enabled(s, step)
  {
    match step
    case Commit(r, fate) => if fate == NotCommitted then None else s.runners[r].conn
    case LateCommit(c) => Some(c)
    case _ => None
  }

  ghost predicate StepEven(s: State, step: Step)
    requires Enabled(s, step)
  {
    CommitOf(s, step).Some? ==> Even(s.txs[CommitOf(s, step).value])
  }

  /** Rows and files change by commits only. */
  lemma CommitsAlone(s: State, step: Step)
    requires Enabled(s, step)
    ensures var t, c := Apply(s, step), CommitOf(s, step);
            && (c.None? ==> t.tracking == s.tracking && t.applied == s.applied)
            && (c.Some? ==> t.tracking == Committed(s, c.value).tracking && t.applied == Committed(s, c.value).applied)
  {
  }

  lemma CommitsRecorded(s: State, step: Step)
    requires Inv(s) && Enabled(s, step) && CommitOf(s, step).Some?
    ensures s.txs[CommitOf(s, step).value].recorded
  {
    if step.Commit? { assert RunnerOk(s, step.runner); }
  }

  lemma StepMatches(s: State, step: Step)
    requires Inv(s) && Matches(s) && Enabled(s, step)
    ensures Matches(Apply(s, step)) <==> StepEven(s, step)
  {
    CommitsAlone(s, step);
    if CommitOf(s, step).Some? {
      CommitsRecorded(s, step);
      hide RunnerOk, PoolOk, TxsOk, Apply, Enabled, TrackingMatches, Committed;
      CommitMatches(s, CommitOf(s, step).value);
    }
  }

  ghost predicate AlwaysMatches(s: State, steps: seq<Step>)
    requires Runs(s, steps)
    decreases |steps|
  {
    Matches(s) && (steps != [] ==> AlwaysMatches(Apply(s, steps[0]), steps[1..]))
  }

  ghost predicate AllEven(s: State, steps: seq<Step>)
    requires Runs(s, steps)
    decreases |steps|
  {
    steps != [] ==> StepEven(s, steps[0]) && AllEven(Apply(s, steps[0]), steps[1..])
  }

  /**
   * All along a run the rows are the applied files if and only if every rollback that committed in it
   * deleted its row exactly if it undid its file.
   */
  lemma {:induction false} MatchingIsExact(s: State, steps: seq<Step>)
    requires Inv(s) && Matches(s) && Runs(s, steps)
    ensures AlwaysMatches(s, steps) <==> AllEven(s, steps)
    decreases |steps|
  {
    if steps != [] {
      hide Inv, Matches, Enabled, Apply, StepEven;
      StepMatches(s, steps[0]);
      StepKeeps(s, steps[0]);
      if StepEven(s, steps[0]) {
        MatchingIsExact(Apply(s, steps[0]), steps[1..]);
      } else {
        assert !AlwaysMatches(Apply(s, steps[0]), steps[1..]);
      }
    }
  }

  // ---------------------------------------------------------------------------------------------
  // Rollbacks of tracked files
  // ---------------------------------------------------------------------------------------------

  /** If the step runs the SQL of a rollback, the file is tracked. */
  ghost predicate OnTracked(s: State, step: Step)
    requires Enabled(s, step)
  {
    step.RunSql? && step.ok && TxOf(s, step.runner).down ==> TxOf(s, step.runner).file.name in s.tracking
  }

  ghost predicate RollsBackTracked(s: State, steps: seq<Step>)
    requires Runs(s, steps)
    decreases |steps|
  {
    steps != [] ==> OnTracked(s, steps[0]) && RollsBackTracked(Apply(s, steps[0]), steps[1..])
  }

  predicate Undoes(tx: Tx) { tx.down ==> (tx.ran ==> tx.undid) && (tx.recorded ==> tx.found) }

  ghost predicate AllUndo(s: State) { forall c :: c in s.txs ==> Undoes(s.txs[c]) }

  /** The only transactions that a step changes are its runner's own. */
  lemma OwnTxOnly(s: State, step: Step, c: nat)
    requires Enabled(s, step) && c in Apply(s, step).txs
    ensures var tx := Apply(s, step).txs[c];
            || (c in s.txs && tx == s.txs[c])
            || (step.Begin? && tx == NewTx(s.runners[step.runner], s.runners[step.runner].phase.i))
            || (c in s.txs && step.RunSql? && s.runners[step.runner].conn == Some(c) && step.ok
                && tx == AfterSql(s, s.txs[c]))
            || (c in s.txs && step.Record? && s.runners[step.runner].conn == Some(c) && step.ok
                && tx == AfterRow(s, s.txs[c]))
            || (c in s.txs && step.Commit? && tx == s.txs[c].(committing := false))
  {
  }

  lemma StepUndoes(s: State, step: Step)
    requires Inv(s) && Matches(s) && AllUndo(s) && Enabled(s, step) && OnTracked(s, step)
    ensures AllUndo(Apply(s, step)) && StepEven(s, step)
  {
    if CommitOf(s, step).Some? { EvenCommit(s, step); }
    hide StepEven;
    forall c | c in Apply(s, step).txs ensures Undoes(Apply(s, step).txs[c]) {
      OwnTxOnly(s, step, c);
      if c in s.txs { TxUndoes(s, step, c); }
    }
  }

  lemma EvenCommit(s: State, step: Step)
    requires Inv(s) && AllUndo(s) && Enabled(s, step) && CommitOf(s, step).Some?
    ensures StepEven(s, step)
  {
    CommitsRecorded(s, step);
    var c := CommitOf(s, step).value;
    assert TxOk(s.tracking, s.applied, s.txs[c]) && Undoes(s.txs[c]);
  }

  /** On a tracked file the SQL finds the file applied and the DELETE finds the row. */
  lemma TxUndoes(s: State, step: Step, c: nat)
    requires Inv(s) && Matches(s) && AllUndo(s) && Enabled(s, step) && OnTracked(s, step) && c in s.txs
    ensures step.RunSql? && s.runners[step.runner].conn == Some(c) && step.ok ==> Undoes(AfterSql(s, s.txs[c]))
    ensures step.Record? && s.runners[step.runner].conn == Some(c) && step.ok ==> Undoes(AfterRow(s, s.txs[c]))
  {
    if step.RunSql? || step.Record? { assert RunnerOk(s, step.runner); }
    assert TxOk(s.tracking, s.applied, s.txs[c]) && Undoes(s.txs[c]);
    TrackedIsApplied(s.tracking, s.applied, s.txs[c].file.name);
  }

  /** Rollbacks whose SQL runs while the file is tracked keep rows and files equal, whatever else goes on. */
  lemma {:induction false} TrackedRollbacksMatch(s: State, steps: seq<Step>)
    requires Inv(s) && Matches(s) && AllUndo(s) && Runs(s, steps) && RollsBackTracked(s, steps)
    ensures AllEven(s, steps) && Matches(After(s, steps))
    decreases |steps|
  {
    if steps != [] {
      hide Inv, Matches, AllUndo, Enabled, Apply, StepEven, OnTracked;
      StepUndoes(s, steps[0]);
      StepMatches(s, steps[0]);
      StepKeeps(s, steps[0]);
      TrackedRollbacksMatch(Apply(s, steps[0]), steps[1..]);
    }
  }

  ghost predicate NoDowns(s: State) {
    (forall r :: r in s.runners ==> !s.runners[r].down) && (forall c :: c in s.txs ==> !s.txs[c].down)
  }

  lemma StaysWithoutDowns(s: State, step: Step)
    requires NoDowns(s) && Enabled(s, step) && !step.StartDown?
    ensures NoDowns(Apply(s, step)) && OnTracked(s, step)
  {
    var t := Apply(s, step);
    forall c | c in t.txs ensures !t.txs[c].down { OwnTxOnly(s, step, c); }
  }

  lemma {:induction false} WithoutRollbacks(s: State, steps: seq<Step>)
    requires NoDowns(s) && Runs(s, steps) && forall x :: x in steps ==> !x.StartDown?
    ensures RollsBackTracked(s, steps)
    decreases |steps|
  {
    if steps != [] {
      assert steps[0] in steps && forall x :: x in steps[1..] ==> x in steps;
      StaysWithoutDowns(s, steps[0]);
      WithoutRollbacks(Apply(s, steps[0]), steps[1..]);
    }
  }

  /**
   * In every state that any number of runners can reach, crashing and failing anywhere: each checked out
   * connection is released exactly once, unless its runner still holds it or took it down, and to the
   * pool only with no transaction open on it. And the tracking rows are exactly the files whose SQL has
   * committed, none twice, if there was no rollback, or none whose SQL ran while its file was untracked.
   */
  lemma MigrationsAreSafe(tracking: map<string, string>, applied: seq<File>, steps: seq<Step>)
    requires TrackingMatches(tracking, applied) && Runs(Init(tracking, applied), steps)
    ensures var s := After(Init(tracking, applied), steps);
            && PoolOk(s) && NoneForgotten(s)
            && (RollsBackTracked(Init(tracking, applied), steps) ==> TrackingMatches(s.tracking, s.applied))
            && ((forall x :: x in steps ==> !x.StartDown?) ==> TrackingMatches(s.tracking, s.applied))
  {
    var start := Init(tracking, applied);
    RunKeeps(start, steps);
    RunForgetsNone(start, steps);
    if forall x :: x in steps ==> !x.StartDown? { WithoutRollbacks(start, steps); }
    if RollsBackTracked(start, steps) { TrackedRollbacksMatch(start, steps); }
  }

  // ---------------------------------------------------------------------------------------------
  // A rollback of an untracked file
  // ---------------------------------------------------------------------------------------------

  ghost predicate Leads(s: State, steps: seq<Step>, t: State) { Runs(s, steps) && After(s, steps) == t }

  lemma {:induction false} LeadsOn(s: State, steps: seq<Step>, t: State, step: Step)
    requires Leads(s, steps, t) && Enabled(t, step)
    ensures Leads(s, steps + [step], Apply(t, step))
    decreases |steps|
  {
    hide Enabled, Apply;
    if steps == [] {
      assert [step][1..] == [] && steps + [step] == [step];
      assert Runs(Apply(t, step), []) && After(Apply(t, step), []) == Apply(t, step);
    } else {
      assert (steps + [step])[0] == steps[0] && (steps + [step])[1..] == steps[1..] + [step];
      LeadsOn(Apply(s, steps[0]), steps[1..], t, step);
    }
  }

  /** Four statements of runner `r` up to where its SQL has run. */
  lemma RunsItsSql(s: State, steps: seq<Step>, t: State, r: nat) returns (more: seq<Step>, u: State)
    requires Leads(s, steps, t) && r in t.runners && t.runners[r].phase == Connecting(0) && |t.runners[r].files| == 1
    requires t.runners[r].conn == None && t.nextConn !in t.txs && !IsApplied(t.applied, t.runners[r].files[0].name)
    ensures Leads(s, more, u) && steps <= more
    ensures forall x :: x in more[|steps|..] ==> !x.StartDown?
    ensures u == t.(nextConn := t.nextConn + 1,
                    txs := t.txs[t.nextConn := NewTx(t.runners[r], 0).(ran := true)],
                    runners := t.runners[r := t.runners[r].(phase := Recording(0), conn := Some(t.nextConn))])
  {
    var runner := t.runners[r];
    var c := t.nextConn;
    var t1 := t.(nextConn := c + 1, runners := t.runners[r := runner.(phase := Beginning(0), conn := Some(c))]);
    var t2 := t1.(txs := t.txs[c := NewTx(runner, 0)],
                  runners := t.runners[r := runner.(phase := Running(0), conn := Some(c))]);
    u := t2.(txs := t.txs[c := NewTx(runner, 0).(ran := true)],
             runners := t.runners[r := runner.(phase := Recording(0), conn := Some(c))]);
    Connects(t, r, t1);
    Begins(t1, r, c, t2);
    RunsSql(t2, r, c, u);
    hide Enabled, Apply, Leads;
    LeadsOn(s, steps, t, Connect(r, true));
    LeadsOn(s, steps + [Connect(r, true)], t1, Begin(r, true));
    LeadsOn(s, steps + [Connect(r, true)] + [Begin(r, true)], t2, RunSql(r, true));
    more := steps + [Connect(r, true)] + [Begin(r, true)] + [RunSql(r, true)];
    assert more[|steps|..] == [Connect(r, true), Begin(r, true), RunSql(r, true)];
  }

  lemma Connects(t: State, r: nat, u: State)
    requires r in t.runners && t.runners[r].phase == Connecting(0)
    requires u == t.(nextConn := t.nextConn + 1,
      runners := t.runners[r := t.runners[r].(phase := Beginning(0), conn := Some(t.nextConn))])
    ensures Enabled(t, Connect(r, true)) && Apply(t, Connect(r, true)) == u
  {
  }

  lemma Begins(t: State, r: nat, c: nat, u: State)
    requires r in t.runners && t.runners[r].phase == Beginning(0) && t.runners[r].conn == Some(c)
      && |t.runners[r].files| == 1
    requires u == t.(txs := t.txs[c := NewTx(t.runners[r], 0)],
      runners := t.runners[r := t.runners[r].(phase := Running(0))])
    ensures Enabled(t, Begin(r, true)) && Apply(t, Begin(r, true)) == u
  {
  }

  lemma RunsSql(t: State, r: nat, c: nat, u: State)
    requires r in t.runners && t.runners[r].phase == Running(0) && t.runners[r].conn == Some(c)
      && |t.runners[r].files| == 1
    requires c in t.txs && !t.txs[c].undid && !IsApplied(t.applied, t.txs[c].file.name)
    requires u == t.(txs := t.txs[c := t.txs[c].(ran := true)],
      runners := t.runners[r := t.runners[r].(phase := Recording(0))])
    ensures Enabled(t, RunSql(r, true)) && Apply(t, RunSql(r, true)) == u
  {
    assert AfterSql(t, t.txs[c]) == t.txs[c].(ran := true);
  }

  /** The row is inserted or deleted, and the transaction commits. */
  lemma Commits(s: State, steps: seq<Step>, t: State, r: nat, c: nat) returns (more: seq<Step>, u: State)
    requires Leads(s, steps, t) && r in t.runners && t.runners[r].phase == Recording(0) && |t.runners[r].files| == 1
    requires t.runners[r].conn == Some(c) && c in t.txs && !t.txs[c].undid
    requires forall d :: d in t.txs && d != c ==> !HoldsRow(t.txs[d])
    requires t.txs[c].down == t.runners[r].down && (t.txs[c].file.name in t.tracking <==> t.runners[r].down)
    ensures Leads(s, more, u) && steps <= more
    ensures forall x :: x in more[|steps|..] ==> !x.StartDown?
    ensures u.txs == t.txs - {c} && u.nextConn == t.nextConn
    ensures u.runners == t.runners[r := t.runners[r].(phase := Next(t.runners[r], 0), conn := None)]
    ensures var file := t.txs[c].file;
            if t.runners[r].down then u.tracking == t.tracking - {file.name} && u.applied == t.applied
            else u.tracking == t.tracking[file.name := file.checksum] && u.applied == t.applied + [file]
  {
    var t1 := t.(txs := t.txs[c := AfterRow(t, t.txs[c])],
                 runners := t.runners[r := t.runners[r].(phase := Committing(0))]);
    RowGoes(t, r, c, t1);
    u := CommitGoes(t1, r, c);
    assert u.txs == t.txs - {c};
    hide Enabled, Apply, Leads;
    LeadsOn(s, steps, t, Record(r, true));
    LeadsOn(s, steps + [Record(r, true)], t1, Commit(r, Done));
    more := steps + [Record(r, true)] + [Commit(r, Done)];
    assert more[|steps|..] == [Record(r, true), Commit(r, Done)];
  }

  lemma RowGoes(t: State, r: nat, c: nat, u: State)
    requires r in t.runners && t.runners[r].phase == Recording(0) && |t.runners[r].files| == 1
    requires t.runners[r].conn == Some(c) && c in t.txs
    requires forall d :: d in t.txs && d != c ==> !HoldsRow(t.txs[d])
    requires t.txs[c].file.name in t.tracking <==> t.txs[c].down
    requires u == t.(txs := t.txs[c := AfterRow(t, t.txs[c])],
      runners := t.runners[r := t.runners[r].(phase := Committing(0))])
    ensures Enabled(t, Record(r, true)) && Apply(t, Record(r, true)) == u
  {
    assert !Blocked(t, c, t.txs[c].file.name);
  }

  lemma CommitGoes(t: State, r: nat, c: nat) returns (u: State)
    requires r in t.runners && t.runners[r].phase == Committing(0) && |t.runners[r].files| == 1
    requires t.runners[r].conn == Some(c) && c in t.txs && !t.txs[c].undid
    ensures Enabled(t, Commit(r, Done)) && u == Apply(t, Commit(r, Done))
    ensures u.txs == t.txs - {c} && u.nextConn == t.nextConn
    ensures u.runners == t.runners[r := t.runners[r].(phase := Next(t.runners[r], 0), conn := None)]
    ensures u.tracking == Committed(t, c).tracking && u.applied == Committed(t, c).applied
  {
    u := Apply(t, Commit(r, Done));
  }

  /**
   * For every database and every file that is not tracked: one rollback of it and one runner that
   * applies it can leave the file applied without its row, with no failure anywhere. The rollback looks
   * at nothing before its SQL runs, which then does nothing, while its DELETE comes late enough to
   * find the row.
   */
  lemma UntrackedRollbackCanTear(tracking: map<string, string>, applied: seq<File>, file: File)
    requires TrackingMatches(tracking, applied) && file.name !in tracking
    ensures exists steps ::
      && Runs(Init(tracking, applied), [StartDown(0, file.name)] + steps)
      && (forall x :: x in steps ==> !x.StartDown?)
      && var t := After(Init(tracking, applied), [StartDown(0, file.name)] + steps);
         t.tracking == tracking && t.applied == applied + [file] && !Matches(t)
  {
    var s := Init(tracking, applied);
    TrackedIsApplied(tracking, applied, file.name);
    var down := Runner([File(file.name, "")], true, Connecting(0), None);
    var s1 := s.(runners := map[0 := down]);
    DownStarts(s, s1, file.name);
    hide Enabled, Apply, Runs, After, Leads;
    var more1, s2 := RunsItsSql(s, [StartDown(0, file.name)], s1, 0);
    var more2, s3 := UpStarts(s, more1, s2, file);
    var more3, s4 := RunsItsSql(s, more2, s3, 1);
    var more4, s5 := Commits(s, more3, s4, 1, 1);
    var more5, t := Commits(s, more4, s5, 0, 0);
    var steps := more5[1..];
    assert more5 == [StartDown(0, file.name)] + steps;
    assert forall x :: x in steps ==> !x.StartDown? by { Parts(more1, more2, more3, more4, more5); }
    assert t.tracking == tracking && t.applied == applied + [file];
    assert t.applied[|applied|].name !in t.tracking;
  }

  lemma DownStarts(s: State, t: State, name: string)
    requires 0 !in s.runners && t == s.(runners := s.runners[0 := Runner([File(name, "")], true, Connecting(0), None)])
    ensures Leads(s, [StartDown(0, name)], t)
  {
    assert [StartDown(0, name)][1..] == [];
    assert Runs(t, []) && After(t, []) == t;
  }

  /** The applying runner finds the file untracked. */
  lemma UpStarts(s: State, steps: seq<Step>, t: State, file: File) returns (more: seq<Step>, u: State)
    requires Leads(s, steps, t) && 1 !in t.runners && file.name !in t.tracking
    ensures Leads(s, more, u) && steps <= more
    ensures forall x :: x in more[|steps|..] ==> !x.StartDown?
    ensures u == t.(runners := t.runners[1 := Runner([file], false, Connecting(0), None)])
  {
    var t1 := t.(runners := t.runners[1 := Runner([file], false, Checking(0), None)]);
    u := t.(runners := t.runners[1 := Runner([file], false, Connecting(0), None)]);
    assert Enabled(t, Start(1, [file])) && Apply(t, Start(1, [file])) == t1;
    assert Enabled(t1, Check(1)) && Apply(t1, Check(1)) == u;
    hide Enabled, Apply, Leads;
    LeadsOn(s, steps, t, Start(1, [file]));
    LeadsOn(s, steps + [Start(1, [file])], t1, Check(1));
    more := steps + [Start(1, [file])] + [Check(1)];
    assert more[|steps|..] == [Start(1, [file]), Check(1)];
  }

  lemma Parts(a: seq<Step>, b: seq<Step>, c: seq<Step>, d: seq<Step>, e: seq<Step>)
    requires 1 <= |a| && a <= b && b <= c && c <= d && d <= e
    requires forall x :: x in a[1..] ==> !x.StartDown?
    requires forall x :: x in b[|a|..] ==> !x.StartDown?
    requires forall x :: x in c[|b|..] ==> !x.StartDown?
    requires forall x :: x in d[|c|..] ==> !x.StartDown?
    requires forall x :: x in e[|d|..] ==> !x.StartDown?
    ensures forall x :: x in e[1..] ==> !x.StartDown?
  {
    assert e[1..] == a[1..] + b[|a|..] + c[|b|..] + d[|c|..] + e[|d|..];
  }
}
