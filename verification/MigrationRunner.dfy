/**
 * The code of packages/core/src/db/sql-migrate.ts as one runner executes it when no other is at work.
 * The database answers statement by statement as `answers` dictates.
 */
module MigrationRunner {
  import opened Prelude
  import opened Migrations
  import opened Rollbacks
  import opened MigrationTheorems

  /** `Lost`: the statement took effect and was reported as failed; of interest for COMMIT only. */
  datatype Answer = Fine | Refused | Lost

  datatype Failure =
    | CannotConnect
    | QueryFailed
    | Failed
    | FailedAndDiscarded   // ROLLBACK failed too; the message names both errors
    | Edited(name: string)

  /** What a transaction is for. */
  datatype Work = Up(file: File) | Down(name: string)

  /** What a committed transaction leaves in the database. */
  function Effect(tracking: map<string, string>, applied: seq<File>, work: Work): (map<string, string>, seq<File>) {
    match work
    case Up(file) => (tracking[file.name := file.checksum], applied + [file])
    case Down(name) => (tracking - {name}, Without(applied, name))
  }

  /** The files that are not tracked yet, in order. */
  function Untracked(tracking: map<string, string>, files: seq<File>): seq<File> {
    Filter(files, (f: File) => f.name !in tracking)
  }

  lemma EffectKeepsTracking(tracking: map<string, string>, applied: seq<File>, work: Work)
    requires TrackingMatches(tracking, applied) && (work.Up? ==> work.file.name !in tracking)
    ensures var (t, a) := Effect(tracking, applied, work); TrackingMatches(t, a)
  {
    hide TrackingMatches;
    if work.Up? {
      OneMoreApplied(tracking, applied, work.file);
    } else {
      DownKeepsTracking(tracking, applied, work.name);
    }
  }

  class SqlMigrator {
    const answers: nat -> Answer
    var now: nat
    var tracking: map<string, string>
    var applied: seq<File>
    /** Connections checked out so far, given back to the pool, and destroyed. */
    var checkedOut: nat
    var returned: nat
    var destroyed: nat

    constructor (answers: nat -> Answer, tracking: map<string, string>, applied: seq<File>)
      ensures this.answers == answers && this.tracking == tracking && this.applied == applied
      ensures checkedOut == 0 && returned == 0 && destroyed == 0
    {
      this.answers := answers;
      this.tracking := tracking;
      this.applied := applied;
      now, checkedOut, returned, destroyed := 0, 0, 0, 0;
    }

    /** Rows and committed files agree, and no connection is out. */
    ghost predicate Valid()
      reads this
    {
      TrackingMatches(tracking, applied) && checkedOut == returned + destroyed
    }

    /** Every one of these statements is answered without an error. */
    ghost predicate AllFine(from: nat, to: nat) {
      forall k :: from <= k < to ==> answers(k) == Fine
    }

    method Query() returns (answer: Answer)
      modifies this`now
      ensures answer == answers(old(now)) && now == old(now) + 1
    {
      answer := answers(now);
      now := now + 1;
    }

    /** BEGIN, the SQL and the change of the tracking row, up to the first that fails. */
    method Statements() returns (recorded: bool)
      modifies this`now
      ensures old(now) < now <= old(now) + 3 && AllFine(old(now), now - 1)
      ensures if recorded then now == old(now) + 3 && AllFine(old(now), now) else answers(now - 1) != Fine
    {
      var begun := Query();
      if begun != Fine {
        return false;
      }
      var sql := Query();
      if sql != Fine {
        return false;
      }
      var row := Query();
      return row == Fine;
    }

    /** The statements and COMMIT: the work is done when COMMIT is reached and not refused. */
    method UpToCommit(work: Work) returns (committed: bool)
      modifies this`now, this`tracking, this`applied
      ensures old(now) < now && (committed <==> AllFine(old(now), now))
      ensures committed <==> AllFine(old(now), old(now) + 4)
      ensures committed ==> now == old(now) + 4
      ensures var done := AllFine(old(now), old(now) + 3) && answers(old(now) + 3) != Refused;
              (tracking, applied) ==
                if done then Effect(old(tracking), old(applied), work) else (old(tracking), old(applied))
    {
      hide Effect;
      var recorded := Statements();
      if !recorded {
        return false;
      }
      var commit := Query();
      if commit != Refused {
        var after := Effect(tracking, applied, work);
        tracking := after.0;
        applied := after.1;
      }
      return commit == Fine;
    }

    /**
     * `runInTransaction`: all of the work or none of it, and exactly one release of the connection,
     * which is destroyed when even ROLLBACK fails. It succeeds exactly when connecting, BEGIN, the SQL, the
     * row and COMMIT are all answered without an error; the work is in the database then, and also when
     * only the answer to COMMIT was lost, which is reported as a failure.
     */
    method RunInTransaction(work: Work) returns (failure: Option<Failure>)
      requires Valid() && (work.Up? ==> work.file.name !in tracking)
      modifies this
      ensures Valid()
      ensures failure.None? <==> AllFine(old(now), old(now) + 5)
      ensures failure.None? ==> now == old(now) + 5
      ensures failure.Some? ==>
        old(now) < now && failure.value in {CannotConnect, Failed, FailedAndDiscarded} && !AllFine(old(now), now)
      ensures failure == Some(CannotConnect) <==> answers(old(now)) != Fine
      ensures failure == Some(FailedAndDiscarded) ==> answers(now - 1) != Fine
      ensures failure == Some(Failed) ==> answers(now - 1) == Fine
      ensures var done := AllFine(old(now), old(now) + 4) && answers(old(now) + 4) != Refused;
              (tracking, applied) ==
                if done then Effect(old(tracking), old(applied), work) else (old(tracking), old(applied))
      ensures failure == Some(CannotConnect) ==> checkedOut == old(checkedOut) && tracking == old(tracking)
      ensures failure != Some(CannotConnect) ==>
        checkedOut == old(checkedOut) + 1 && returned + destroyed == old(returned + destroyed) + 1
      ensures destroyed == old(destroyed) + 1 <==> failure == Some(FailedAndDiscarded)
    {
      hide TrackingMatches, Effect;
      EffectKeepsTracking(tracking, applied, work);
      var connected := Query();
      if connected != Fine {
        return Some(CannotConnect);
      }
      checkedOut := checkedOut + 1;
      var committed := UpToCommit(work);
      if committed {
        returned := returned + 1;
        return None;
      }
      var rollback := Query();
      if rollback == Fine {
        returned := returned + 1;
        return Some(Failed);
      }
      destroyed := destroyed + 1;
      return Some(FailedAndDiscarded);
    }

    /**
     * `runSqlMigrations`: the files not yet tracked, in order. It succeeds only with every file
     * tracked in its present version, and an edited applied file stops it with nothing after that
     * file touched. Nothing else stops it but a statement that is answered with an error.
     */
    method RunSqlMigrations(files: seq<File>) returns (failure: Option<Failure>)
      requires Valid() && DistinctNames(files)
      modifies this
      ensures Valid()
      ensures failure.None? ==> Progressed(old(tracking), old(applied), files, |files|, tracking, applied)
      ensures failure.Some? && !failure.value.Edited? <==> !AllFine(old(now), now)
      ensures failure.Some? ==>
        exists k: nat :: k <= |files| && Progressed(old(tracking), old(applied), files, k, tracking, applied)
                                                 && (failure.value.Edited? ==>
                                                   StoppedAtEdit(old(tracking), files, k, failure.value.name))
    {
      ghost var t0, a0 := tracking, applied;
      NothingDone(t0, a0, files);
      var created := Query();
      if created != Fine {
        return Some(QueryFailed);
      }
      hide TrackingMatches;
      var i := 0;
      while i < |files|
        invariant 0 <= i <= |files| && Valid()
        invariant Progressed(t0, a0, files, i, tracking, applied)
        invariant old(now) <= now && AllFine(old(now), now)
      {
        hide Progressed, Tracks;
        var failed := MigrateFile(files, i, t0, a0);
        if failed.Some? {
          return failed;
        }
        i := i + 1;
      }
      return None;
    }

    /** The body of the loop: look the file up, then skip it, stop, or apply it. */
    method MigrateFile(files: seq<File>, i: nat, ghost t0: map<string, string>, ghost a0: seq<File>)
        returns (failure: Option<Failure>)
      requires Valid() && DistinctNames(files) && i < |files| && Progressed(t0, a0, files, i, tracking, applied)
      modifies this
      ensures Valid()
      ensures failure.None? ==> Progressed(t0, a0, files, i + 1, tracking, applied)
      ensures old(now) <= now && (failure.Some? && !failure.value.Edited? <==> !AllFine(old(now), now))
      ensures failure.Some? ==> exists k: nat :: k <= |files| && Progressed(t0, a0, files, k, tracking, applied)
                                                 && (failure.value.Edited? ==>
                                                   StoppedAtEdit(t0, files, k, failure.value.name))
    {
      hide TrackingMatches, Progressed, StoppedAtEdit;
      var file := files[i];
      var selected := Query();
      if selected != Fine {
        return Some(QueryFailed);
      }
      if file.name in tracking {
        FoundTracked(t0, a0, files, i, tracking, applied);
        if tracking[file.name] != file.checksum {
          return Some(Edited(file.name));
        }
        return None;
      }
      FoundUntracked(t0, a0, files, i, tracking, applied);
      ghost var t, a := tracking, applied;
      failure := RunInTransaction(Up(file));
      if failure.Some? {
        FailedAt(t0, a0, files, i, t, a, tracking, applied);
      }
    }

    /**
     * `downSqlMigration`: the down SQL and the removal of the row, together or not at all; both exactly
     * when nothing fails, or nothing but the answer to COMMIT.
     */
    method DownSqlMigration(name: string) returns (failure: Option<Failure>)
      requires Valid()
      modifies this
      ensures Valid()
      ensures failure.None? <==> AllFine(old(now), old(now) + 5)
      ensures var done := AllFine(old(now), old(now) + 4) && answers(old(now) + 4) != Refused;
              if done then tracking == old(tracking) - {name} && applied == Without(old(applied), name)
              else tracking == old(tracking) && applied == old(applied)
    {
      failure := RunInTransaction(Down(name));
    }
  }

  /**
   * Exactly the untracked files among the first `k` have been applied, and the first `k` are all
   * tracked as they are.
   */
  ghost predicate Progressed(t0: map<string, string>, a0: seq<File>, files: seq<File>, k: nat, t: map<string, string>,
      a: seq<File>)
  {
    && k <= |files| && a == a0 + Untracked(t0, files[..k])
    && (forall n :: n in t0 ==> n in t && t[n] == t0[n])
    && (forall n :: n in t && n !in t0 ==> exists j :: 0 <= j < k && files[j].name == n)
    && (forall j :: 0 <= j < k ==> Tracks(t, files[j]))
  }

  ghost predicate StoppedAtEdit(t0: map<string, string>, files: seq<File>, k: nat, name: string) {
    k < |files| && files[k].name == name && name in t0 && t0[name] != files[k].checksum
  }

  /** A second run over files that are all tracked as they are leaves the database as it was. */
  lemma RerunIsANoOp(t0: map<string, string>, a0: seq<File>, files: seq<File>, k: nat, t: map<string, string>,
      a: seq<File>)
    requires Progressed(t0, a0, files, k, t, a) && forall j :: 0 <= j < |files| ==> Tracks(t0, files[j])
    ensures t == t0 && a == a0
  {
    assert forall j :: 0 <= j < |files| ==> Tracks(t0, files[j]) && files[j].name in t0;
    assert t.Keys == t0.Keys;
    AllTracked(t0, files[..k]);
  }

  lemma {:induction false} AllTracked(t0: map<string, string>, files: seq<File>)
    requires forall j :: 0 <= j < |files| ==> files[j].name in t0
    ensures Untracked(t0, files) == []
  {
    if files != [] { AllTracked(t0, files[1..]); }
  }

  /** After a run that succeeds, another one finds every file tracked as it is. */
  lemma SuccessIsStable(t0: map<string, string>, a0: seq<File>, files: seq<File>, t: map<string, string>, a: seq<File>,
                        k: nat, u: map<string, string>, b: seq<File>)
    requires Progressed(t0, a0, files, |files|, t, a) && Progressed(t, a, files, k, u, b)
    ensures u == t && b == a
  {
    RerunIsANoOp(t, a, files, k, u, b);
  }

  lemma NothingDone(t0: map<string, string>, a0: seq<File>, files: seq<File>)
    ensures Progressed(t0, a0, files, 0, t0, a0)
  {
    assert files[..0] == [];
  }

  lemma FoundTracked(t0: map<string, string>, a0: seq<File>, files: seq<File>, i: nat, t: map<string, string>,
      a: seq<File>)
    requires DistinctNames(files) && i < |files| && Progressed(t0, a0, files, i, t, a) && files[i].name in t
    ensures t[files[i].name] == files[i].checksum ==> Progressed(t0, a0, files, i + 1, t, a)
    ensures t[files[i].name] != files[i].checksum ==> StoppedAtEdit(t0, files, i, files[i].name)
  {
    UntrackedNext(t0, files, i);
    assert files[i].name in t0;
  }

  lemma FoundUntracked(t0: map<string, string>, a0: seq<File>, files: seq<File>, i: nat, t: map<string, string>,
      a: seq<File>)
    requires DistinctNames(files) && i < |files| && Progressed(t0, a0, files, i, t, a) && files[i].name !in t
    ensures Progressed(t0, a0, files, i + 1, t[files[i].name := files[i].checksum], a + [files[i]])
  {
    UntrackedNext(t0, files, i);
    assert a0 + (Untracked(t0, files[..i]) + [files[i]]) == a + [files[i]];
    forall n | n in t[files[i].name := files[i].checksum] && n !in t0
      ensures exists j :: 0 <= j < i + 1 && files[j].name == n
    {
      if n != files[i].name {
        var j :| 0 <= j < i && files[j].name == n;
        assert j < i + 1;
      }
    }
  }

  /** A failed transaction leaves the files before it, or those and the file itself. */
  lemma FailedAt(t0: map<string, string>, a0: seq<File>, files: seq<File>, i: nat, t: map<string, string>, a: seq<File>,
                 u: map<string, string>, b: seq<File>)
    requires i < |files| && Progressed(t0, a0, files, i, t, a)
    requires Progressed(t0, a0, files, i + 1, t[files[i].name := files[i].checksum], a + [files[i]])
    requires (u == t && b == a) || (u == t[files[i].name := files[i].checksum] && b == a + [files[i]])
    ensures exists k: nat :: k <= |files| && Progressed(t0, a0, files, k, u, b)
  {
    assert Progressed(t0, a0, files, i, u, b) || Progressed(t0, a0, files, i + 1, u, b);
  }

  lemma UntrackedNext(tracking: map<string, string>, files: seq<File>, i: nat)
    requires i < |files|
    ensures Untracked(tracking, files[..i + 1]) ==
            if files[i].name !in tracking then Untracked(tracking, files[..i]) + [files[i]]
              else Untracked(tracking, files[..i])
  {
    assert files[..i + 1] == files[..i] + [files[i]];
    FilterAppend(files[..i], [files[i]], (f: File) => f.name !in tracking);
    assert [files[i]][1..] == [];
  }
}
