/**
 * apps/worker/src/batch/accumulator.ts: collect items into batches and hand each batch to a flush
 * callback once, keeping for every `add()` the promise that its batch's outcome settles.
 *
 * A promise is represented by a waiter. A history (`Acc`) records what has happened; the class below
 * has the fields of the source and keeps the history as a ghost.
 */
module Accumulator {
  import opened Prelude

  /** `timer` is not a field here: a stale timer that still fires is just one more trigger. */
  datatype OpenBatch<T, V> = OpenBatch(batchId: string, events: seq<T>, waiters: seq<V>)

  /** `add()`: join the open batch, or a new one under the fresh id. */
  function Join<T, V>(open: Option<OpenBatch<T, V>>, freshId: string, event: T, waiter: V): (b: OpenBatch<T, V>) {
    match open
    case None => OpenBatch(freshId, [event], [waiter])
    case Some(b) => b.(events := b.events + [event], waiters := b.waiters + [waiter])
  }

  predicate Full<T, V>(b: OpenBatch<T, V>, batchSize: nat) { |b.events| >= batchSize }

  // ---------------------------------------------------------------------------------------------
  // The history of one accumulator; the waiter of the k-th add is the number k
  // ---------------------------------------------------------------------------------------------

  type Batch<T> = OpenBatch<T, nat>

  /** `outcomes[i]` tells how the flush of `detached[i]` ended; `settled[k]` how promise `k` did. */
  datatype Acc<T> = Acc(
    open: Option<Batch<T>>, added: seq<T>, detached: seq<Batch<T>>,
    outcomes: map<nat, bool>, settled: map<nat, bool>, lastFlushAt: int)

  /** `SettleFlush(i, ok, now)`: the flush of `detached[i]` resolves or rejects at time `now`. */
  datatype Op<T> =
    | Add(event: T, freshId: string)
    | Trigger
    | SettleFlush(batch: nat, ok: bool, now: int)

  function Detach<T>(a: Acc<T>): Acc<T> {
    if a.open.None? then a else a.(open := None, detached := a.detached + [a.open.value])
  }

  function AddTo<T>(batchSize: nat, a: Acc<T>, event: T, freshId: string): Acc<T> {
    var b := Join(a.open, freshId, event, |a.added|);
    var next := a.(open := Some(b), added := a.added + [event]);
    if Full(b, batchSize) then Detach(next) else next
  }

  function SettleAll(settled: map<nat, bool>, waiters: seq<nat>, ok: bool): map<nat, bool> {
    settled + map w | w in waiters :: ok
  }

  function Settle<T>(a: Acc<T>, i: nat, ok: bool, now: int): Acc<T>
    requires i < |a.detached|
  {
    a.(outcomes := a.outcomes[i := ok],
       settled := SettleAll(a.settled, a.detached[i].waiters, ok),
       lastFlushAt := if ok then now else a.lastFlushAt)
  }

  /** A flush callback settles once, after its batch was detached. */
  predicate Possible<T>(a: Acc<T>, op: Op<T>) {
    op.SettleFlush? ==> op.batch < |a.detached| && op.batch !in a.outcomes
  }

  function Apply<T>(batchSize: nat, a: Acc<T>, op: Op<T>): Acc<T>
    requires Possible(a, op)
  {
    match op
    case Add(event, freshId) => AddTo(batchSize, a, event, freshId)
    case Trigger => Detach(a)
    case SettleFlush(i, ok, now) => Settle(a, i, ok, now)
  }

  function Init<T>(now: int): Acc<T> { Acc(None, [], [], map[], map[], now) }

  /** `None` when some operation of the sequence is not possible where it stands. */
  function Run<T>(batchSize: nat, a: Acc<T>, ops: seq<Op<T>>): Option<Acc<T>>
    decreases |ops|
  {
    if ops == [] then Some(a)
    else if !Possible(a, ops[0]) then None
    else Run(batchSize, Apply(batchSize, a, ops[0]), ops[1..])
  }

  // ---------------------------------------------------------------------------------------------
  // What every run keeps
  // ---------------------------------------------------------------------------------------------

  function EventLists<T>(bs: seq<Batch<T>>): seq<seq<T>> { Map((b: Batch<T>) => b.events, bs) }
  function WaiterLists<T>(bs: seq<Batch<T>>): seq<seq<nat>> { Map((b: Batch<T>) => b.waiters, bs) }
  function OpenEvents<T>(a: Acc<T>): seq<T> { if a.open.Some? then a.open.value.events else [] }
  function OpenWaiters<T>(a: Acc<T>): seq<nat> { if a.open.Some? then a.open.value.waiters else [] }
  function Numbers(n: nat): seq<nat> { seq(n, i => i) }

  /** Nothing added is dropped, doubled or reordered, and promise `k` travels with the k-th event. */
  ghost predicate Ordered<T>(a: Acc<T>) {
    && Flatten(EventLists(a.detached)) + OpenEvents(a) == a.added
    && Flatten(WaiterLists(a.detached)) + OpenWaiters(a) == Numbers(|a.added|)
  }

  predicate Shaped<T>(b: Batch<T>) { |b.events| == |b.waiters| && b.events != [] }

  /** An open batch is never full between steps, and the callback never gets an empty or oversized one. */
  ghost predicate Sized<T>(batchSize: nat, a: Acc<T>) {
    && (a.open.Some? ==> Shaped(a.open.value) && |a.open.value.events| < batchSize)
    && (forall i :: 0 <= i < |a.detached| ==> Shaped(a.detached[i]) && |a.detached[i].events| <= batchSize)
  }

  /** Promise `w` is settled exactly when the flush of the batch holding it is, and in the same way. */
  ghost predicate SettledWithBatch<T>(a: Acc<T>) {
    && (forall i :: i in a.outcomes ==> i < |a.detached|)
    && (forall i, w :: i in a.outcomes && w in a.detached[i].waiters ==>
      w in a.settled && a.settled[w] == a.outcomes[i])
    && (forall w :: w in a.settled ==> exists i :: i in a.outcomes && w in a.detached[i].waiters)
  }

  ghost predicate Inv<T>(batchSize: nat, a: Acc<T>) {
    Ordered(a) && Sized(batchSize, a) && SettledWithBatch(a)
  }

  lemma DetachKeeps<T>(batchSize: nat, a: Acc<T>)
    requires Ordered(a) && SettledWithBatch(a)
    requires forall i :: 0 <= i < |a.detached| ==> Shaped(a.detached[i]) && |a.detached[i].events| <= batchSize
    requires a.open.Some? ==> Shaped(a.open.value) && |a.open.value.events| <= batchSize
    ensures Inv(batchSize, Detach(a))
  {
    MoreBatchesSettled(a, Detach(a));
    DetachedOrdered(a);
    hide Ordered, SettledWithBatch;
  }

  /** More batches, and nothing else settled. */
  lemma MoreBatchesSettled<T>(a: Acc<T>, b: Acc<T>)
    requires SettledWithBatch(a) && b.settled == a.settled && b.outcomes == a.outcomes && |a.detached| <= |b.detached|
    requires forall i :: 0 <= i < |a.detached| ==> b.detached[i] == a.detached[i]
    ensures SettledWithBatch(b)
  {
    forall i, w | i in b.outcomes && w in b.detached[i].waiters
      ensures w in b.settled && b.settled[w] == b.outcomes[i]
    {
      assert w in a.detached[i].waiters;
    }
    forall w | w in b.settled ensures exists i :: i in b.outcomes && w in b.detached[i].waiters {
      var i :| i in a.outcomes && w in a.detached[i].waiters;
      assert w in b.detached[i].waiters;
    }
  }

  lemma DetachedOrdered<T>(a: Acc<T>)
    requires Ordered(a)
    ensures Ordered(Detach(a))
  {
    if a.open.Some? {
      var b := a.open.value;
      assert EventLists(a.detached + [b]) == EventLists(a.detached) + [b.events];
      assert WaiterLists(a.detached + [b]) == WaiterLists(a.detached) + [b.waiters];
      FlattenAppend(EventLists(a.detached), [b.events]);
      FlattenAppend(WaiterLists(a.detached), [b.waiters]);
      FlattenSingle(b.events);
      FlattenSingle(b.waiters);
    }
  }

  /** The history with the event in the open batch, before a full batch is detached. */
  function Joined<T>(a: Acc<T>, event: T, freshId: string): Acc<T> {
    a.(open := Some(Join(a.open, freshId, event, |a.added|)), added := a.added + [event])
  }

  lemma JoinedOrdered<T>(a: Acc<T>, event: T, freshId: string)
    requires Ordered(a)
    ensures Ordered(Joined(a, event, freshId))
  {
    var next := Joined(a, event, freshId);
    var n: nat := |a.added|;
    assert OpenEvents(next) == OpenEvents(a) + [event];
    assert OpenWaiters(next) == OpenWaiters(a) + [n];
    AppendOne(Flatten(EventLists(a.detached)), OpenEvents(a), event);
    AppendOne(Flatten(WaiterLists(a.detached)), OpenWaiters(a), n);
    assert Numbers(n) + [n] == Numbers(n + 1);
  }

  lemma AppendOne<X>(a: seq<X>, b: seq<X>, x: X)
    ensures a + (b + [x]) == (a + b) + [x]
  {
  }

  lemma JoinedSettled<T>(a: Acc<T>, event: T, freshId: string)
    requires SettledWithBatch(a)
    ensures SettledWithBatch(Joined(a, event, freshId))
  {
  }

  lemma AddKeeps<T>(batchSize: nat, a: Acc<T>, event: T, freshId: string)
    requires batchSize > 0 && Inv(batchSize, a)
    ensures Inv(batchSize, AddTo(batchSize, a, event, freshId))
  {
    hide Ordered, SettledWithBatch;
    JoinedOrdered(a, event, freshId);
    JoinedSettled(a, event, freshId);
    DetachKeeps(batchSize, Joined(a, event, freshId));
  }

  lemma NoDupParts(x: seq<nat>, y: seq<nat>)
    requires NoDup(x + y)
    ensures NoDup(y)
    ensures forall w :: w in x ==> w !in y
  {
    forall i, j | 0 <= i < j < |y| ensures y[i] != y[j] {
      assert (x + y)[|x| + i] == y[i] && (x + y)[|x| + j] == y[j];
    }
    forall w | w in x ensures w !in y {
      var p :| 0 <= p < |x| && x[p] == w;
      forall q | 0 <= q < |y| ensures y[q] != w {
        assert (x + y)[p] == w && (x + y)[|x| + q] == y[q];
      }
    }
  }

  lemma {:induction false} ListsAreDisjoint(wss: seq<seq<nat>>, i: nat, j: nat)
    requires NoDup(Flatten(wss)) && i < j < |wss|
    ensures forall w :: w in wss[i] ==> w !in wss[j]
  {
    NoDupParts(wss[0], Flatten(wss[1..]));
    if i == 0 {
      forall w | w in wss[0] ensures w !in wss[j] {
        FlattenMembers(wss[1..], w);
        assert wss[1..][j - 1] == wss[j];
      }
    } else {
      ListsAreDisjoint(wss[1..], i - 1, j - 1);
    }
  }

  /** No promise belongs to two batches. */
  lemma DetachedWaitersAreDistinct<T>(a: Acc<T>)
    requires Ordered(a)
    ensures forall i, j, w ::
      0 <= i < |a.detached| && 0 <= j < |a.detached| && w in a.detached[i].waiters && w in a.detached[j].waiters ==>
        i == j
  {
    var wss := WaiterLists(a.detached);
    var flat := Flatten(wss);
    forall p, q | 0 <= p < q < |flat| ensures flat[p] != flat[q] {
      assert Numbers(|a.added|)[p] == flat[p] && Numbers(|a.added|)[q] == flat[q];
    }
    forall i, j | 0 <= i < j < |wss| ensures forall w :: w in wss[i] ==> w !in wss[j] {
      ListsAreDisjoint(wss, i, j);
    }
    forall i, j, w | 0 <= i < |a.detached| && 0 <= j < |a.detached| && w in a.detached[i].waiters
      && w in a.detached[j].waiters
      ensures i == j
    {
      assert w in wss[i] && w in wss[j];
    }
  }

  /** A promise settles at most once: none of the batch's promises is settled before its flush is. */
  lemma SettlesOnce<T>(batchSize: nat, a: Acc<T>, i: nat)
    requires Inv(batchSize, a) && i < |a.detached| && i !in a.outcomes
    ensures forall w :: w in a.detached[i].waiters ==> w !in a.settled
  {
    DetachedWaitersAreDistinct(a);
  }

  lemma SettledTogether<T>(a: Acc<T>, i: nat, ok: bool, now: int)
    requires Ordered(a) && SettledWithBatch(a) && i < |a.detached| && i !in a.outcomes
    ensures SettledWithBatch(Settle(a, i, ok, now))
  {
    hide Ordered, SettleAll;
    var b := Settle(a, i, ok, now);
    forall k, w | k in b.outcomes && w in b.detached[k].waiters
      ensures w in b.settled && b.settled[w] == b.outcomes[k]
    {
      SettledLikeItsBatch(a, i, ok, now, k, w);
    }
    forall w | w in b.settled ensures exists k :: k in b.outcomes && w in b.detached[k].waiters {
      SettledSomewhere(a, i, ok, now, w);
    }
  }

  lemma SettledLikeItsBatch<T>(a: Acc<T>, i: nat, ok: bool, now: int, k: nat, w: nat)
    requires Ordered(a) && SettledWithBatch(a) && i < |a.detached| && i !in a.outcomes
    requires (k == i || k in a.outcomes) && k < |a.detached| && w in a.detached[k].waiters
    ensures var b := Settle(a, i, ok, now); w in b.settled && b.settled[w] == b.outcomes[k]
  {
    hide Ordered;
    DetachedWaitersAreDistinct(a);
    if k != i { assert w !in a.detached[i].waiters; }
  }

  lemma SettledSomewhere<T>(a: Acc<T>, i: nat, ok: bool, now: int, w: nat)
    requires SettledWithBatch(a) && i < |a.detached| && w in Settle(a, i, ok, now).settled
    ensures var b := Settle(a, i, ok, now); exists k :: k in b.outcomes && w in b.detached[k].waiters
  {
    var b := Settle(a, i, ok, now);
    if w in a.detached[i].waiters {
      assert i in b.outcomes;
    } else {
      var k :| k in a.outcomes && w in a.detached[k].waiters;
      assert k in b.outcomes;
    }
  }

  lemma SettleKeeps<T>(batchSize: nat, a: Acc<T>, i: nat, ok: bool, now: int)
    requires Inv(batchSize, a) && i < |a.detached| && i !in a.outcomes
    ensures Inv(batchSize, Settle(a, i, ok, now))
  {
    SettledTogether(a, i, ok, now);
  }

  lemma InitHolds<T>(batchSize: nat, now: int)
    ensures Inv(batchSize, Init<T>(now))
  {
    assert Numbers(0) == [];
  }

  /**
   * The refinement. Over every run: the detached batches in detach order followed by the open batch
   * spell out the adds, event by event and promise by promise; batches have the promised sizes; and
   * a promise is settled exactly with the batch that holds its event.
   */
  lemma {:induction false} EveryRunKeepsInv<T>(batchSize: nat, a: Acc<T>, ops: seq<Op<T>>)
    requires batchSize > 0 && Inv(batchSize, a) && Run(batchSize, a, ops).Some?
    ensures Inv(batchSize, Run(batchSize, a, ops).value)
    decreases |ops|
  {
    if ops != [] {
      StepKeeps(batchSize, a, ops[0]);
      EveryRunKeepsInv(batchSize, Apply(batchSize, a, ops[0]), ops[1..]);
    }
  }

  lemma StepKeeps<T>(batchSize: nat, a: Acc<T>, op: Op<T>)
    requires batchSize > 0 && Inv(batchSize, a) && Possible(a, op)
    ensures Inv(batchSize, Apply(batchSize, a, op))
  {
    match op {
      case Add(event, freshId) => AddKeeps(batchSize, a, event, freshId);
      case Trigger => DetachKeeps(batchSize, a);
      case SettleFlush(i, ok, now) => SettleKeeps(batchSize, a, i, ok, now);
    }
  }

  lemma StepSettlesForGood<T>(batchSize: nat, a: Acc<T>, op: Op<T>, w: nat)
    requires Inv(batchSize, a) && Possible(a, op) && w in a.settled
    ensures var b := Apply(batchSize, a, op); w in b.settled && b.settled[w] == a.settled[w]
  {
    if op.SettleFlush? { SettlesOnce(batchSize, a, op.batch); }
  }

  /** Promises are settled for good: no later step of any run changes how one was settled. */
  lemma {:induction false} SettledForGood<T>(batchSize: nat, a: Acc<T>, ops: seq<Op<T>>, w: nat)
    requires batchSize > 0 && Inv(batchSize, a) && Run(batchSize, a, ops).Some? && w in a.settled
    ensures var b := Run(batchSize, a, ops).value; w in b.settled && b.settled[w] == a.settled[w]
    decreases |ops|
  {
    if ops != [] {
      var next := Apply(batchSize, a, ops[0]);
      StepKeeps(batchSize, a, ops[0]);
      StepSettlesForGood(batchSize, a, ops[0], w);
      SettledForGood(batchSize, next, ops[1..], w);
    }
  }

  /**
   * What the three operations do. An add joins the open batch, or opens one under the fresh id, and a
   * batch that has reached its size is handed over at once; a trigger hands over what is open; and when a
   * flush ends, exactly the promises of its batch end as it did, and only a success moves the flush time.
   */
  lemma OperationsAreExact<T>(batchSize: nat, a: Acc<T>, event: T, freshId: string, i: nat, ok: bool, now: int)
    ensures var b := Apply(batchSize, a, Add(event, freshId));
            var was, kept := OpenEvents(a), if b.open.Some? then b.open else Some(b.detached[|a.detached|]);
            && b.added == a.added + [event] && b.settled == a.settled && b.outcomes == a.outcomes
            && b.lastFlushAt == a.lastFlushAt && kept.Some?
            && kept.value.events == was + [event] && kept.value.waiters == OpenWaiters(a) + [|a.added|]
            && kept.value.batchId == (if a.open.Some? then a.open.value.batchId else freshId)
            && (b.open.Some? <==> |was| + 1 < batchSize)
            && b.detached == a.detached + if b.open.Some? then [] else [kept.value]
    ensures var b := Apply(batchSize, a, Trigger);
            && b == a.(open := None, detached := b.detached)
            && b.detached == a.detached + if a.open.Some? then [a.open.value] else []
    ensures i < |a.detached| && i !in a.outcomes ==>
      var b, waiters := Apply(batchSize, a, SettleFlush(i, ok, now)), a.detached[i].waiters;
      && b == a.(outcomes := a.outcomes[i := ok], settled := b.settled, lastFlushAt := b.lastFlushAt)
      && (forall w :: w in b.settled <==> w in a.settled || w in waiters)
      && (forall w :: w in b.settled ==> b.settled[w] == if w in waiters then ok else a.settled[w])
      && b.lastFlushAt == (if ok then now else a.lastFlushAt)
  {
  }

  /** What a caller of `add` may conclude: its promise ends as the flush of the batch holding its event did. */
  lemma PromiseTellsTheOutcome<T>(batchSize: nat, a: Acc<T>, k: nat)
    requires Inv(batchSize, a)
    ensures k in a.settled <==>
      exists i, j :: i in a.outcomes && 0 <= i < |a.detached| && 0 <= j < |a.detached[i].waiters|
                     && a.detached[i].waiters[j] == k
    ensures k in a.settled ==>
      exists i, j :: i in a.outcomes && 0 <= i < |a.detached| && 0 <= j < |a.detached[i].waiters|
        && j < |a.detached[i].events|
                     && a.detached[i].waiters[j] == k && k < |a.added| && a.detached[i].events[j] == a.added[k]
                     && a.settled[k] == a.outcomes[i]
  {
    if k in a.settled {
      var i :| i in a.outcomes && k in a.detached[i].waiters;
      var j :| 0 <= j < |a.detached[i].waiters| && a.detached[i].waiters[j] == k;
      assert Shaped(a.detached[i]);
      var es, ws := Flatten(EventLists(a.detached)), Flatten(WaiterLists(a.detached));
      assert a.added[0..] == a.added && es <= a.added;
      assert Numbers(|a.added|)[0..] == Numbers(|a.added|) && ws <= Numbers(|a.added|);
      PromiseIsWithItsEvent(a.detached, a.added, 0, i, j);
    }
  }

  /** The k-th event and the k-th promise are in the same place of the same batch. */
  lemma {:induction false} PromiseIsWithItsEvent<T>(bs: seq<Batch<T>>, added: seq<T>, from: nat, i: nat, j: nat)
    requires i < |bs| && j < |bs[i].events| && forall k :: 0 <= k < |bs| ==> Shaped(bs[k])
    requires from <= |added| && Flatten(EventLists(bs)) <= added[from..]
    requires Flatten(WaiterLists(bs)) <= Numbers(|added|)[from..]
    ensures j < |bs[i].waiters|
    ensures var k := bs[i].waiters[j]; from <= k < |added| && added[k] == bs[i].events[j]
    decreases |bs|
  {
    var es, ws := EventLists(bs), WaiterLists(bs);
    assert es[1..] == EventLists(bs[1..]) && ws[1..] == WaiterLists(bs[1..]);
    var n := |bs[0].events|;
    assert |Flatten(es)| >= n;
    if i == 0 {
      assert Flatten(es)[j] == bs[0].events[j] && Flatten(ws)[j] == bs[0].waiters[j];
      assert added[from..][j] == added[from + j];
      assert Numbers(|added|)[from..][j] == from + j;
    } else {
      assert Flatten(es)[n..] == Flatten(es[1..]) && Flatten(ws)[n..] == Flatten(ws[1..]);
      assert added[from..][n..] == added[from + n..];
      assert Numbers(|added|)[from..][n..] == Numbers(|added|)[from + n..];
      PrefixOfRest(Flatten(es), added[from..], n);
      PrefixOfRest(Flatten(ws), Numbers(|added|)[from..], n);
      PromiseIsWithItsEvent(bs[1..], added, from + n, i - 1, j);
    }
  }

  lemma PrefixOfRest<T>(s: seq<T>, t: seq<T>, n: nat)
    requires s <= t && n <= |s|
    ensures s[n..] <= t[n..]
  {
  }

  // ---------------------------------------------------------------------------------------------
  // The class of the source
  // ---------------------------------------------------------------------------------------------

  class BatchAccumulator<T> {
    const batchSize: nat
    var currentBatch: Option<Batch<T>>
    var lastFlushAt: int
    var nextWaiter: nat
    var promises: map<nat, bool>
    ghost var history: Acc<T>

    ghost predicate Valid()
      reads this
    {
      && batchSize > 0
      && Inv(batchSize, history)
      && history.open == currentBatch && |history.added| == nextWaiter
      && history.settled == promises && history.lastFlushAt == lastFlushAt
    }

    constructor (batchSize: nat, now: int)
      requires batchSize > 0
      ensures Valid() && this.batchSize == batchSize && history == Init(now)
    {
      this.batchSize := batchSize;
      currentBatch := None;
      lastFlushAt := now;
      nextWaiter := 0;
      promises := map[];
      history := Init(now);
      InitHolds<T>(batchSize, now);
    }

    /** Returns the promise and, when the count trigger trips, the batch handed to the flush callback. */
    method Add(event: T, freshId: string) returns (promise: nat, flushed: Option<Batch<T>>)
      requires Valid()
      modifies this
      ensures Valid() && history == AddTo(batchSize, old(history), event, freshId)
      ensures promise == |old(history).added| && promise !in promises
      ensures flushed.Some? <==> |history.detached| == |old(history).detached| + 1
      ensures flushed.Some? ==>
        flushed.value == history.detached[|old(history).detached|] && Full(flushed.value, batchSize)
    {
      AddKeeps(batchSize, history, event, freshId);
      promise := nextWaiter;
      UnusedPromise(history);
      var b := Join(currentBatch, freshId, event, promise);
      nextWaiter := nextWaiter + 1;
      currentBatch := Some(b);
      history := history.(open := Some(b), added := history.added + [event]);
      flushed := None;
      if |b.events| >= batchSize {
        flushed := TriggerFlushUnchecked();
      }
    }

    /** Detaches before the callback runs: what is added meanwhile opens a new batch. */
    method TriggerFlushUnchecked() returns (flushed: Option<Batch<T>>)
      modifies this`currentBatch, this`history
      ensures currentBatch == None && flushed == old(currentBatch)
      ensures old(history).open == old(currentBatch) ==> history == Detach(old(history))
    {
      flushed := currentBatch;
      currentBatch := None;
      history := if flushed.Some? then history.(open := None, detached := history.detached + [flushed.value])
        else history;
    }

    /** `flushNow()` and the interval timer. */
    method TriggerFlush() returns (flushed: Option<Batch<T>>)
      requires Valid()
      modifies this
      ensures Valid() && history == Detach(old(history))
      ensures flushed == old(currentBatch) && Size() == 0
    {
      DetachKeeps(batchSize, history);
      flushed := TriggerFlushUnchecked();
    }

    function Size(): (n: nat)
      requires Valid()
      reads this
      ensures n == |OpenEvents(history)|
    {
      if currentBatch.Some? then |currentBatch.value.events| else 0
    }

    /** The end of `runFlush` for the batch detached as number `i`: settle its waiters one by one. */
    method FlushSettled(ghost i: nat, waiters: seq<nat>, ok: bool, now: int)
      requires Valid() && i < |history.detached| && i !in history.outcomes && waiters == history.detached[i].waiters
      modifies this
      ensures Valid() && history == Settle(old(history), i, ok, now)
      ensures currentBatch == old(currentBatch)
    {
      SettleKeeps(batchSize, history, i, ok, now);
      if ok {
        lastFlushAt := now;
      }
      SettleWaiters(waiters, ok);
      history := Settle(history, i, ok, now);
    }

    method SettleWaiters(waiters: seq<nat>, ok: bool)
      modifies this`promises
      ensures promises == SettleAll(old(promises), waiters, ok)
    {
      hide SettleAll;
      var k := 0;
      SettleNone(promises, waiters, ok);
      while k < |waiters|
        invariant 0 <= k <= |waiters|
        invariant promises == SettleAll(old(promises), waiters[..k], ok)
      {
        SettleNext(old(promises), waiters, k, ok);
        promises := promises[waiters[k] := ok];
        k := k + 1;
      }
      assert waiters[..k] == waiters;
    }
  }

  lemma SettleNone(settled: map<nat, bool>, waiters: seq<nat>, ok: bool)
    ensures SettleAll(settled, waiters[..0], ok) == settled
  {
  }

  lemma SettleNext(settled: map<nat, bool>, waiters: seq<nat>, k: nat, ok: bool)
    requires k < |waiters|
    ensures SettleAll(settled, waiters[..k + 1], ok) == SettleAll(settled, waiters[..k], ok)[waiters[k] := ok]
  {
    assert waiters[..k + 1] == waiters[..k] + [waiters[k]];
    var a, b := SettleAll(settled, waiters[..k + 1], ok), SettleAll(settled, waiters[..k], ok)[waiters[k] := ok];
    assert a.Keys == b.Keys;
  }

  /** The next promise is new. */
  lemma UnusedPromise<T>(a: Acc<T>)
    requires Ordered(a) && SettledWithBatch(a)
    ensures |a.added| !in a.settled
  {
    var wss, n := WaiterLists(a.detached), |a.added|;
    assert forall x :: x in Flatten(wss) ==> x in Flatten(wss) + OpenWaiters(a);
    assert n !in Numbers(n);
    assert n !in Flatten(wss);
    FlattenMembers<nat>(wss, n);
    assert forall i :: 0 <= i < |wss| ==> n !in wss[i];
    assert forall i :: 0 <= i < |a.detached| ==> wss[i] == a.detached[i].waiters;
  }
}
