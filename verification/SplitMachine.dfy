/**
 * Split-retry one call at a time. The recursion of `attemptBatch` is a walk over the split tree, left
 * before right; here it is a stack of sub-batches still to be written. The event pipeline interleaves
 * these steps with everything else that happens; that they are the same walk is proved below.
 */
module SplitMachine {
  import opened Prelude
  import opened ClassifyFlushError
  import opened SplitRetry
  import opened SplitRetryTheorems

  /** `stack[0]` is being written for the `attempt`-th time. */
  datatype Progress<E> = Progress(stack: seq<seq<bool>>, attempt: nat, poison: seq<E>)

  function Start<E>(): Progress<E> { Progress([[]], 1, []) }

  function Succeed<E>(p: Progress<E>): Progress<E>
    requires p.stack != []
  {
    Progress(p.stack[1..], 1, p.poison)
  }

  /** A call for `stack[0]` failed with an error of this class; `None` rejects the whole batch. */
  function Fail<E>(maxAttempts: nat, batch: seq<E>, p: Progress<E>, verdict: FlushErrorClassification)
      : Option<Progress<E>>
    requires p.stack != []
  {
    var path := p.stack[0];
    var events := SubBatch(batch, path);
    if p.attempt < maxAttempts then Some(p.(attempt := p.attempt + 1))
    else if verdict == Infrastructure then None
    else if |events| == 1 then Some(Progress(p.stack[1..], 1, p.poison + events))
    else Some(Progress([path + [false], path + [true]] + p.stack[1..], 1, p.poison))
  }

  datatype Conf<W, E> =
    | Running(world: W, progress: Progress<E>)
    | Stopped(world: W, error: Thrown)

  /** One call of `flushBatch`. */
  function Step<W, E>(cfg: Config<W, E>, base: string, batch: seq<E>, c: Conf<W, E>): Conf<W, E> {
    if c.Stopped? || c.progress.stack == [] then c
    else
      var p := c.progress;
      var (w, error) := cfg.flush(c.world, SubBatch(batch, p.stack[0]), NodeId(base, p.stack[0]));
      match error
      case None => Running(w, Succeed(p))
      case Some(e) =>
        match Fail(cfg.maxAttempts, batch, p, cfg.classify(e))
        case None => Stopped(w, e)
        case Some(q) => Running(w, q)
  }

  function Steps<W, E>(cfg: Config<W, E>, base: string, batch: seq<E>, c: Conf<W, E>, n: nat): Conf<W, E>
    decreases n
  {
    if n == 0 then c else Steps(cfg, base, batch, Step(cfg, base, batch, c), n - 1)
  }

  lemma {:induction false} StepsAdd<W, E>(cfg: Config<W, E>, base: string, batch: seq<E>, c: Conf<W, E>, m: nat, n: nat)
    ensures Steps(cfg, base, batch, c, m + n) == Steps(cfg, base, batch, Steps(cfg, base, batch, c, m), n)
    decreases m
  {
    if m > 0 { StepsAdd(cfg, base, batch, Step(cfg, base, batch, c), m - 1, n); }
  }

  /** Where the machine stands when the sub-batch on top of the stack has used its tries. */
  function AfterTries<W, E>(cfg: Config<W, E>, batch: seq<E>, p: Progress<E>, t: Tries<W, E>): Conf<W, E>
    requires p.stack != []
  {
    match t.lastError
    case None => Running(t.world, Succeed(p))
    case Some(e) =>
      match Fail(cfg.maxAttempts, batch, p.(attempt := cfg.maxAttempts), cfg.classify(e))
      case None => Stopped(t.world, e)
      case Some(q) => Running(t.world, q)
  }

  lemma {:induction false} TriesAreSteps<W, E>(cfg: Config<W, E>, base: string, batch: seq<E>, w: W, p: Progress<E>)
    requires p.stack != [] && 1 <= p.attempt <= cfg.maxAttempts
    ensures var t := TriesFrom(cfg, w, SubBatch(batch, p.stack[0]), NodeId(base, p.stack[0]), p.attempt);
            Steps(cfg, base, batch, Running(w, p), |t.journal.calls|) == AfterTries(cfg, batch, p, t)
    decreases cfg.maxAttempts - p.attempt
  {
    var events, id := SubBatch(batch, p.stack[0]), NodeId(base, p.stack[0]);
    var (w1, error) := cfg.flush(w, events, id);
    var c := Running(w, p);
    if error.None? || p.attempt == cfg.maxAttempts {
      assert p == p.(attempt := p.attempt);
      assert Steps(cfg, base, batch, c, 1) == Steps(cfg, base, batch, Step(cfg, base, batch, c), 0);
    } else {
      var q := p.(attempt := p.attempt + 1);
      assert Step(cfg, base, batch, c) == Running(w1, q);
      TriesAreSteps(cfg, base, batch, w1, q);
      var rest := TriesFrom(cfg, w1, events, id, q.attempt);
      assert Steps(cfg, base, batch, c, 1 + |rest.journal.calls|)
        == Steps(cfg, base, batch, Running(w1, q), |rest.journal.calls|);
    }
  }

  /** Where the machine stands when the whole subtree on top of the stack is done. */
  function AfterRun<W, E>(rest: seq<seq<bool>>, poison: seq<E>, world: W, outcome: Outcome<E>): Conf<W, E> {
    match outcome
    case Rejected(e) => Stopped(world, e)
    case Resolved(_, more) => Running(world, Progress(rest, 1, poison + PoisonEvents(more)))
  }

  function At<W, E>(w: W, path: seq<bool>, rest: seq<seq<bool>>, poison: seq<E>): Conf<W, E> {
    Running(w, Progress([path] + rest, 1, poison))
  }

  ghost predicate Reaches<W, E>(cfg: Config<W, E>, base: string, batch: seq<E>, from: Conf<W, E>, n: nat,
      to: Conf<W, E>)
  {
    Steps(cfg, base, batch, from, n) == to
  }

  lemma ReachesOn<W, E>(cfg: Config<W, E>, base: string, batch: seq<E>, a: Conf<W, E>, m: nat, b: Conf<W, E>, n: nat,
      c: Conf<W, E>)
    requires Reaches(cfg, base, batch, a, m, b) && Reaches(cfg, base, batch, b, n, c)
    ensures Reaches(cfg, base, batch, a, m + n, c)
  {
    StepsAdd(cfg, base, batch, a, m, n);
  }

  /** A sub-batch that is not split: the machine pops it or stops. */
  lemma LeafRuns<W, E>(cfg: Config<W, E>, base: string, batch: seq<E>, w: W, path: seq<bool>, rest: seq<seq<bool>>,
      poison: seq<E>)
    requires cfg.Valid() && SubBatch(batch, path) != []
    requires !Splits(cfg, TriesFrom(cfg, w, SubBatch(batch, path), NodeId(base, path), 1), SubBatch(batch, path))
    ensures var run := AttemptRun(cfg, w, SubBatch(batch, path), NodeId(base, path));
            Reaches(cfg, base, batch, At(w, path, rest, poison), |run.journal.calls|,
              AfterRun(rest, poison, run.world, run.outcome))
  {
    var events := SubBatch(batch, path);
    var p := Progress([path] + rest, 1, poison);
    assert p.stack[1..] == rest;
    var t := TriesFrom(cfg, w, events, NodeId(base, path), 1);
    TriesAreSteps(cfg, base, batch, w, p);
    if t.lastError.None? {
      assert poison + PoisonEvents<E>([]) == poison;
    } else if cfg.classify(t.lastError.value) == RowFault {
      assert PoisonEvents([Poisoned(events[0], t.lastError.value)]) == events;
    }
  }

  /** The tries of a sub-batch that is split leave its two halves on the stack. */
  lemma TriesPushHalves<W, E>(cfg: Config<W, E>, base: string, batch: seq<E>, w: W, path: seq<bool>,
      rest: seq<seq<bool>>, poison: seq<E>)
    requires cfg.Valid() && SubBatch(batch, path) != []
    requires Splits(cfg, TriesFrom(cfg, w, SubBatch(batch, path), NodeId(base, path), 1), SubBatch(batch, path))
    ensures var t := TriesFrom(cfg, w, SubBatch(batch, path), NodeId(base, path), 1);
            Reaches(cfg, base, batch, At(w, path, rest, poison), |t.journal.calls|,
                    At(t.world, path + [false], [path + [true]] + rest, poison))
  {
    var p := Progress([path] + rest, 1, poison);
    assert p.stack[1..] == rest;
    TriesAreSteps(cfg, base, batch, w, p);
    assert [path + [false], path + [true]] + rest == [path + [false]] + ([path + [true]] + rest);
  }

  lemma PoisonTogether<E>(before: seq<E>, left: seq<Poisoned<E>>, right: seq<Poisoned<E>>)
    ensures before + PoisonEvents(left) + PoisonEvents(right) == before + PoisonEvents(left + right)
  {
    assert PoisonEvents(left) + PoisonEvents(right) == PoisonEvents(left + right);
  }

  /**
   * The walk refines the recursion: from a stack with `path` on top, as many steps as the recursive
   * run makes calls lead to the same world, the same verdict and the same poison, with `path` popped.
   */
  lemma {:induction false} MachineRunsAttempt<W, E>(
    cfg: Config<W, E>, base: string, batch: seq<E>, w: W, path: seq<bool>, rest: seq<seq<bool>>, poison: seq<E>)
    requires cfg.Valid() && SubBatch(batch, path) != []
    ensures var run := AttemptRun(cfg, w, SubBatch(batch, path), NodeId(base, path));
            Reaches(cfg, base, batch, At(w, path, rest, poison), |run.journal.calls|,
              AfterRun(rest, poison, run.world, run.outcome))
    decreases |SubBatch(batch, path)|
  {
    var events, id := SubBatch(batch, path), NodeId(base, path);
    var t := TriesFrom(cfg, w, events, id, 1);
    if !Splits(cfg, t, events) {
      LeafRuns(cfg, base, batch, w, path, rest, poison);
    } else {
      var l, r, mid := path + [false], path + [true], Mid(|events|);
      assert 0 < mid < |events|;
      OneLevelDown(base, batch, path, false);
      OneLevelDown(base, batch, path, true);
      TriesPushHalves(cfg, base, batch, w, path, rest, poison);
      RunOfSplit(cfg, w, events, id);
      hide TriesFrom, AttemptRun, Reaches, Mid, AfterRun, At;
      var left := AttemptRun(cfg, t.world, events[..mid], id + ".0");
      var right := AttemptRun(cfg, left.world, events[mid..], id + ".1");
      MachineRunsAttempt(cfg, base, batch, t.world, l, [r] + rest, poison);
      if left.outcome.Resolved? {
        MachineRunsAttempt(cfg, base, batch, left.world, r, rest, poison + PoisonEvents(left.outcome.poison));
      }
      hide SubBatch, NodeId, Splits, PoisonEvents;
      BothHalvesRun(cfg, base, batch, At(w, path, rest, poison), |t.journal.calls|, t.world, l, r, rest, poison,
                    |left.journal.calls|, left.world, left.outcome, |right.journal.calls|, right.world, right.outcome);
    }
  }

  /** The two halves one after the other, or the left one alone if it rejects. */
  lemma BothHalvesRun<W, E>(
    cfg: Config<W, E>, base: string, batch: seq<E>, from: Conf<W, E>, n: nat, w: W, l: seq<bool>, r: seq<bool>,
    rest: seq<seq<bool>>, poison: seq<E>, nl: nat, wl: W, left: Outcome<E>, nr: nat, wr: W, right: Outcome<E>)
    requires Reaches(cfg, base, batch, from, n, At(w, l, [r] + rest, poison))
    requires Reaches(cfg, base, batch, At(w, l, [r] + rest, poison), nl, AfterRun([r] + rest, poison, wl, left))
    requires left.Resolved? ==>
               var more := poison + PoisonEvents(left.poison);
               Reaches(cfg, base, batch, At(wl, r, rest, more), nr, AfterRun(rest, more, wr, right))
    ensures left.Rejected? ==> Reaches(cfg, base, batch, from, n + nl, AfterRun(rest, poison, wl, left))
    ensures left.Resolved? ==>
              Reaches(cfg, base, batch, from, n + nl + nr, AfterRun(rest, poison, wr, if right.Rejected? then right
                else Resolved(left.committed + right.committed, left.poison + right.poison)))
  {
    hide Reaches, At, AfterRun;
    LeftIsDone(r, rest, poison, wl, left);
    ReachesOn(cfg, base, batch, from, n, At(w, l, [r] + rest, poison), nl, AfterRun([r] + rest, poison, wl, left));
    if left.Resolved? {
      var more := poison + PoisonEvents(left.poison);
      ReachesOn(cfg, base, batch, from, n + nl, At(wl, r, rest, more), nr, AfterRun(rest, more, wr, right));
      BothAreDone(rest, poison, wr, left, right);
    }
  }

  /** When the left half is done, the machine has stopped or the right half is on top. */
  lemma LeftIsDone<W, E>(r: seq<bool>, rest: seq<seq<bool>>, poison: seq<E>, w: W, left: Outcome<E>)
    ensures left.Rejected? ==> AfterRun([r] + rest, poison, w, left) == AfterRun(rest, poison, w, left)
    ensures left.Resolved? ==>
      AfterRun([r] + rest, poison, w, left) == At(w, r, rest, poison + PoisonEvents(left.poison))
  {
  }

  lemma BothAreDone<W, E>(rest: seq<seq<bool>>, poison: seq<E>, w: W, left: Outcome<E>, right: Outcome<E>)
    requires left.Resolved?
    ensures var both := if right.Rejected? then right
      else Resolved(left.committed + right.committed, left.poison + right.poison);
            AfterRun(rest, poison + PoisonEvents(left.poison), w, right) == AfterRun(rest, poison, w, both)
  {
    if right.Resolved? { PoisonTogether(poison, left.poison, right.poison); }
  }

  /** A whole batch: the machine ends with an empty stack exactly when the run resolves. */
  lemma MachineRunsBatch<W, E>(cfg: Config<W, E>, w: W, batch: seq<E>, base: string)
    requires cfg.Valid() && batch != []
    ensures var run := AttemptRun(cfg, w, batch, base);
            Reaches(cfg, base, batch, Running(w, Start()), |run.journal.calls|,
              AfterRun([], [], run.world, run.outcome))
  {
    MachineRunsAttempt(cfg, base, batch, w, [], [], []);
    var top: seq<seq<bool>> := [[]];
    assert top + [] == top;
    assert At<W, E>(w, [], [], []) == Running(w, Start());
  }
}
