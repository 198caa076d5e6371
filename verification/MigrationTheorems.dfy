/** What a runner may rely on: earlier files come first, and a re-run changes nothing. */
module MigrationTheorems {
  import opened Prelude
  import opened Migrations
  import opened Rollbacks

  /** How many files of its list a runner has left behind it. */
  function Reached(runner: Runner): nat {
    match runner.phase
    case Finished => |runner.files|
    case Stopped => 0
    case _ => runner.phase.i
  }

  ghost predicate Tracks(tracking: map<string, string>, file: File) {
    file.name in tracking && tracking[file.name] == file.checksum
  }

  /** Nobody is rolling this file back. */
  ghost predicate NoDownOf(s: State, name: string) {
    && (forall r :: r in s.runners && s.runners[r].down ==>
          forall i :: 0 <= i < |s.runners[r].files| ==> s.runners[r].files[i].name != name)
    && (forall c :: c in s.txs && s.txs[c].down ==> s.txs[c].file.name != name)
  }

  predicate Spares(steps: seq<Step>, name: string) { forall x :: x in steps ==> x.StartDown? ==> x.name != name }

  /** Every runner that is past a file of this name has found it, or made it, applied in its own version. */
  ghost predicate EarlierApplied(s: State, name: string) {
    && (name in s.tracking ==> File(name, s.tracking[name]) in s.applied)
    && forall r, j ::
         r in s.runners && 0 <= j < Reached(s.runners[r]) && j < |s.runners[r].files|
           && s.runners[r].files[j].name == name ==>
         Tracks(s.tracking, s.runners[r].files[j])
  }

  lemma NobodyStarts(s: State, step: Step, name: string)
    requires Enabled(s, step) && NoDownOf(s, name) && !(step.StartDown? && step.name == name)
    ensures NoDownOf(Apply(s, step), name)
  {
    var t := Apply(s, step);
    forall c | c in t.txs && t.txs[c].down ensures t.txs[c].file.name != name { OwnTxOnly(s, step, c); }
    forall r | r in t.runners && t.runners[r].down
      ensures forall i :: 0 <= i < |t.runners[r].files| ==> t.runners[r].files[i].name != name
    {
      SameFiles(s, step, r);
    }
  }

  lemma SameFiles(s: State, step: Step, r: nat)
    requires Enabled(s, step) && r in Apply(s, step).runners
    ensures var q := Apply(s, step).runners[r];
            || (r in s.runners && q.files == s.runners[r].files && q.down == s.runners[r].down)
            || (step.Start? && step.runner == r && !q.down && q.phase == Checking(0))
            || (step.StartDown? && step.runner == r && q.down && q.files == [File(step.name, "")]
                && q.phase == Connecting(0))
  {
    hide Enabled, Apply;
    if r in s.runners && !ActsFor(step, r) { RunnerUntouched(s, step, r); } else { OwnFiles(s, step, r); }
  }

  lemma OwnFiles(s: State, step: Step, r: nat)
    requires Enabled(s, step) && r in Apply(s, step).runners && (r !in s.runners || ActsFor(step, r))
    ensures var q := Apply(s, step).runners[r];
            || (r in s.runners && q.files == s.runners[r].files && q.down == s.runners[r].down)
            || (step.Start? && step.runner == r && !q.down && q.phase == Checking(0))
            || (step.StartDown? && step.runner == r && q.down && q.files == [File(step.name, "")]
                && q.phase == Connecting(0))
  {
    hide Committed, NewTx, AfterSql, AfterRow, Blocked, Undone, IsApplied;
    if CommitOf(s, step).Some? { CommitLeavesRunners(s, CommitOf(s, step).value); }
  }

  /** The row of a file that nobody rolls back stays, and with it the file. */
  lemma RowStays(s: State, step: Step, name: string)
    requires Inv(s) && Enabled(s, step) && NoDownOf(s, name)
    ensures var t := Apply(s, step);
            name in s.tracking ==> name in t.tracking && t.tracking[name] == s.tracking[name]
    ensures var t := Apply(s, step);
            (name in s.tracking ==> File(name, s.tracking[name]) in s.applied) ==>
            (name in t.tracking ==> File(name, t.tracking[name]) in t.applied)
  {
    CommitsAlone(s, step);
    if CommitOf(s, step).Some? {
      CommitsRecorded(s, step);
      CommitLeavesRow(s, CommitOf(s, step).value, name);
    }
  }

  lemma CommitLeavesRow(s: State, c: nat, name: string)
    requires TxsOk(s) && NoDownOf(s, name) && c in s.txs && s.txs[c].recorded
    ensures var t := Committed(s, c);
            && (name in s.tracking ==> name in t.tracking && t.tracking[name] == s.tracking[name])
            && ((name in s.tracking ==> File(name, s.tracking[name]) in s.applied) ==>
                (name in t.tracking ==> File(name, t.tracking[name]) in t.applied))
  {
    var tx := s.txs[c];
    assert TxOk(s.tracking, s.applied, tx);
    if tx.undid && name in s.tracking {
      FilterMembers(s.applied, (f: File) => f.name != tx.file.name, File(name, s.tracking[name]));
    }
  }

  /** A runner leaves a file behind only when that is tracked in its own version. */
  lemma MovesPast(s: State, step: Step, r: nat, j: nat)
    requires Inv(s) && Enabled(s, step) && r in s.runners && r in Apply(s, step).runners
    requires !s.runners[r].down && Apply(s, step).runners[r].files == s.runners[r].files
    requires Reached(s.runners[r]) <= j < Reached(Apply(s, step).runners[r]) && j < |s.runners[r].files|
    ensures Tracks(Apply(s, step).tracking, s.runners[r].files[j])
  {
    assert RunnerOk(s, r);
    if !ActsFor(step, r) {
      RunnerUntouched(s, step, r);
    } else if step.Commit? {
      CommitsFile(s, r, step.fate, j);
    } else if step.Check? {
      ChecksFile(s, r, j);
    } else {
      NoAdvance(s, step, r);
    }
  }

  lemma CommitsFile(s: State, r: nat, fate: CommitFate, j: nat)
    requires RunnerOk(s, r) && Enabled(s, Commit(r, fate)) && !s.runners[r].down
    requires Reached(s.runners[r]) <= j < Reached(Apply(s, Commit(r, fate)).runners[r]) && j < |s.runners[r].files|
    ensures Tracks(Apply(s, Commit(r, fate)).tracking, s.runners[r].files[j])
  {
  }

  lemma ChecksFile(s: State, r: nat, j: nat)
    requires Enabled(s, Check(r))
    requires Reached(s.runners[r]) <= j < Reached(Apply(s, Check(r)).runners[r]) && j < |s.runners[r].files|
    ensures Tracks(Apply(s, Check(r)).tracking, s.runners[r].files[j])
  {
  }

  lemma NoAdvance(s: State, step: Step, r: nat)
    requires Enabled(s, step) && ActsFor(step, r) && !step.Commit? && !step.Check? && r in s.runners
    requires r in Apply(s, step).runners
    ensures Reached(Apply(s, step).runners[r]) <= Reached(s.runners[r])
  {
    hide Committed, NewTx, AfterSql, AfterRow, Blocked, Undone, IsApplied;
  }

  lemma EarlierStays(s: State, step: Step, name: string)
    requires Inv(s) && EarlierApplied(s, name) && NoDownOf(s, name) && Enabled(s, step)
    requires !(step.StartDown? && step.name == name)
    ensures EarlierApplied(Apply(s, step), name)
  {
    var t := Apply(s, step);
    RowStays(s, step, name);
    hide Inv, Enabled, Apply;
    forall r, j | r in t.runners && 0 <= j < Reached(t.runners[r]) && j < |t.runners[r].files|
      && t.runners[r].files[j].name == name
      ensures Tracks(t.tracking, t.runners[r].files[j])
    {
      SameFiles(s, step, r);
      if j >= Reached(s.runners[r]) { MovesPast(s, step, r, j); }
    }
  }

  predicate ActsFor(step: Step, r: nat) { OfRunner(step) && step.runner == r }

  lemma RunnerUntouched(s: State, step: Step, r: nat)
    requires Enabled(s, step) && r in s.runners && !ActsFor(step, r)
    ensures r in Apply(s, step).runners && Apply(s, step).runners[r] == s.runners[r]
  {
    hide Committed, NewTx, AfterSql, AfterRow, Blocked, Undone, IsApplied;
    if CommitOf(s, step).Some? { CommitLeavesRunners(s, CommitOf(s, step).value); }
  }

  lemma {:induction false} RunKeepsEarlier(s: State, steps: seq<Step>, name: string)
    requires Inv(s) && EarlierApplied(s, name) && NoDownOf(s, name) && Runs(s, steps) && Spares(steps, name)
    ensures EarlierApplied(After(s, steps), name)
    decreases |steps|
  {
    if steps != [] {
      assert steps[0] in steps && forall x :: x in steps[1..] ==> x in steps;
      hide EarlierApplied, NoDownOf, Enabled, Apply;
      EarlierStays(s, steps[0], name);
      NobodyStarts(s, steps[0], name);
      StepKeeps(s, steps[0]);
      RunKeepsEarlier(Apply(s, steps[0]), steps[1..], name);
    }
  }

  /**
   * A runner that is past a file, or has finished, found that file applied in its own version, and it
   * still is, unless it is rolled back; an edited applied file therefore stops the runner before any
   * later one is touched.
   */
  lemma EarlierFilesComeFirst(tracking: map<string, string>, applied: seq<File>, steps: seq<Step>, r: nat, j: nat)
    requires TrackingMatches(tracking, applied) && Runs(Init(tracking, applied), steps)
    requires var s := After(Init(tracking, applied), steps);
             r in s.runners && j < |s.runners[r].files| && Spares(steps, s.runners[r].files[j].name)
             && (s.runners[r].phase.Finished? || (!s.runners[r].phase.Stopped? && j < s.runners[r].phase.i))
    ensures var s := After(Init(tracking, applied), steps);
            var file := s.runners[r].files[j];
            file.name in s.tracking && s.tracking[file.name] == file.checksum && file in s.applied
  {
    var name := After(Init(tracking, applied), steps).runners[r].files[j].name;
    StartsApplied(tracking, applied, name);
    RunKeepsEarlier(Init(tracking, applied), steps, name);
  }

  lemma StartsApplied(tracking: map<string, string>, applied: seq<File>, name: string)
    requires TrackingMatches(tracking, applied)
    ensures EarlierApplied(Init(tracking, applied), name)
  {
    if name in tracking {
      var i :| 0 <= i < |applied| && applied[i].name == name;
      assert applied[i] == File(name, tracking[name]);
    }
  }

  /**
   * A runner that crashes with its COMMIT on the way leaves a transaction that may commit, with all it has
   * done, or abort, with nothing.
   */
  lemma LostCommitsMayLand(s: State, r: nat)
    requires Inv(s) && r in s.runners && s.runners[r].phase.Committing? && InTx(s, r)
    ensures var t, c := Apply(s, Crash(r)), s.runners[r].conn;
            c.Some? && Enabled(t, LateCommit(c.value)) && Enabled(t, Abort(c.value)) && c.value in t.lost
    ensures var t, c := Apply(s, Crash(r)), s.runners[r].conn.value;
            && Apply(t, Abort(c)) == t.(txs := t.txs - {c}) && t.tracking == s.tracking && t.applied == s.applied
            && var u, file := Apply(t, LateCommit(c)), s.runners[r].files[s.runners[r].phase.i];
               && u == t.(txs := t.txs - {c}, tracking := u.tracking, applied := u.applied)
               && (!s.runners[r].down ==>
                     u.tracking == s.tracking[file.name := file.checksum] && u.applied == s.applied + [file])
  {
    assert RunnerOk(s, r);
    var t, c := Apply(s, Crash(r)), s.runners[r].conn.value;
    OthersHoldOthers(s, r);
    forall q | q in t.runners ensures t.runners[q].conn != Some(c) {
      assert q in s.runners && q != r && t.runners[q] == s.runners[q];
    }
  }

  /** A runner that has ended, either way, holds no connection: what it checked out, it has released. */
  lemma EndedRunnersHoldNothing(tracking: map<string, string>, applied: seq<File>, steps: seq<Step>, r: nat)
    requires TrackingMatches(tracking, applied) && Runs(Init(tracking, applied), steps)
    requires r in After(Init(tracking, applied), steps).runners
    ensures var runner := After(Init(tracking, applied), steps).runners[r];
            runner.conn.Some? <==> HoldsConn(runner.phase)
  {
    RunKeeps(Init(tracking, applied), steps);
    assert RunnerOk(After(Init(tracking, applied), steps), r);
  }

  /** A runner whose files are all applied as they are, and that holds no connection. */
  ghost predicate UpToDate(s: State, r: nat) {
    && r in s.runners
    && (forall j :: 0 <= j < |s.runners[r].files| ==>
          Tracks(s.tracking, s.runners[r].files[j]) && NoDownOf(s, s.runners[r].files[j].name))
    && (s.runners[r].phase.Checking? || s.runners[r].phase.Finished? || s.runners[r].phase.Stopped?)
    && s.runners[r].conn.None?
  }

  /** All along the run the runner is up to date, and its own steps change nothing but where it stands. */
  ghost predicate OnlyChecks(s: State, steps: seq<Step>, r: nat)
    requires Runs(s, steps)
    decreases |steps|
  {
    && UpToDate(s, r)
    && (steps != [] ==>
          && (ActsFor(steps[0], r) ==> Apply(s, steps[0]) == s.(runners := Apply(s, steps[0]).runners))
          && OnlyChecks(Apply(s, steps[0]), steps[1..], r))
  }

  lemma UpToDateStays(s: State, step: Step, r: nat)
    requires Inv(s) && Enabled(s, step) && UpToDate(s, r) && step != Crash(r)
    requires forall j :: 0 <= j < |s.runners[r].files| ==> !(step.StartDown? && step.name == s.runners[r].files[j].name)
    ensures UpToDate(Apply(s, step), r) && Apply(s, step).runners[r].files == s.runners[r].files
    ensures ActsFor(step, r) ==> Apply(s, step) == s.(runners := Apply(s, step).runners)
  {
    if ActsFor(step, r) { CheckingOnly(s, step, r); } else { RunnerUntouched(s, step, r); }
    var t := Apply(s, step);
    hide Inv, Enabled, Apply, NoDownOf;
    forall j | 0 <= j < |t.runners[r].files|
      ensures Tracks(t.tracking, t.runners[r].files[j]) && NoDownOf(t, t.runners[r].files[j].name)
    {
      var name := t.runners[r].files[j].name;
      RowStays(s, step, name);
      NobodyStarts(s, step, name);
    }
  }

  lemma CheckingOnly(s: State, step: Step, r: nat)
    requires Enabled(s, step) && UpToDate(s, r) && step != Crash(r) && ActsFor(step, r)
    ensures var t := Apply(s, step);
            && t == s.(runners := t.runners) && r in t.runners && t.runners[r].files == s.runners[r].files
            && (t.runners[r].phase.Checking? || t.runners[r].phase.Finished? || t.runners[r].phase.Stopped?)
            && t.runners[r].conn.None?
  {
    assert step == Check(r) || step == CheckFails(r);
  }

  /**
   * A re-run over unchanged files, in every run in which none of them is rolled back, whatever the other
   * runners do: until it ends or crashes it only checks, never opens a connection, and leaves rows,
   * files and transactions alone.
   */
  lemma {:induction false} RerunChangesNothing(s: State, steps: seq<Step>, r: nat)
    requires Inv(s) && UpToDate(s, r) && Runs(s, steps) && Crash(r) !in steps
    requires forall j :: 0 <= j < |s.runners[r].files| ==> Spares(steps, s.runners[r].files[j].name)
    ensures OnlyChecks(s, steps, r)
    decreases |steps|
  {
    if steps != [] {
      assert steps[0] in steps && forall x :: x in steps[1..] ==> x in steps;
      UpToDateStays(s, steps[0], r);
      StepKeeps(s, steps[0]);
      RerunChangesNothing(Apply(s, steps[0]), steps[1..], r);
    }
  }
}
