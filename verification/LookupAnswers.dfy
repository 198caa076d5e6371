/**
 * What a lookup through a ladder comes to: every one ends, and each tier gives exactly the answer it is
 * there for, with the write back and the memo entry that later lookups are answered from.
 */
module LookupAnswers {
  import opened Prelude
  import opened Memos
  import opened CacheLadder
  import opened CacheTheorems

  // ---------------------------------------------------------------------------------------------
  // No lookup is lost
  // ---------------------------------------------------------------------------------------------

  function CallsOf<K(!new), V>(s: State<K, V>, process: nat): set<nat> {
    set c | c in s.calls && s.calls[c].process == process
  }

  /** The lookups that a step begins, those that it ends without an answer, and those that die with their process. */
  function Begun<K>(step: Step<K>): nat { if step.Begin? then 1 else 0 }

  function Failed<K>(step: Step<K>): nat { if step.QueryFails? then 1 else 0 }

  function Killed<K(!new), V>(s: State<K, V>, step: Step<K>): nat {
    if step.Restart? then |CallsOf(s, step.process)| else 0
  }

  datatype Tally = Tally(begun: nat, failed: nat, killed: nat)

  /** These, added up along a run. */
  function TallyOf<K(!new), V>(conf: Conf<K, V>, s: State<K, V>, steps: seq<Step<K>>): Tally
    requires Run(conf, s, steps).Some?
    decreases |steps|
  {
    if steps == [] then Tally(0, 0, 0)
    else
      var step := steps[0];
      var rest := TallyOf(conf, Apply(conf, s, step), steps[1..]);
      Tally(Begun(step) + rest.begun, Failed(step) + rest.failed, Killed(s, step) + rest.killed)
  }

  lemma SizeWithout<K, V>(m: map<K, V>, k: K)
    requires k in m
    ensures |m - {k}| == |m| - 1
  {
    SizeAfterRemove(m, k);
  }

  lemma SizeWith<K, V>(m: map<K, V>, k: K, v: V)
    ensures |m[k := v]| == |m| + if k in m then 0 else 1
  {
    SizeAfterSet(m, k, v);
  }

  lemma RestartTakes<K(!new), V(!new)>(conf: Conf<K, V>, s: State<K, V>, process: nat)
    ensures |Apply(conf, s, Restart(process)).calls| + |CallsOf(s, process)| == |s.calls|
  {
    var left := Apply(conf, s, Restart(process)).calls.Keys;
    assert s.calls.Keys == left + CallsOf(s, process) && left !! CallsOf(s, process);
    assert |left + CallsOf(s, process)| == |left| + |CallsOf(s, process)|;
  }

  /** A step keeps the books: what begins is answered, goes on, fails with its query, or dies with its process. */
  lemma StepBalances<K(!new), V(!new)>(conf: Conf<K, V>, s: State<K, V>, step: Step<K>)
    requires Enabled(conf, s, step)
    ensures var t := Apply(conf, s, step);
            |t.answers| + |t.calls| + Failed(step) + Killed(s, step) == |s.answers| + |s.calls| + Begun(step)
  {
    var t := Apply(conf, s, step);
    match step
    case Begin(c, p, k) => if !Memoized(s, p, k) { SizeWith(s.calls, c, t.calls[c]); }
    case GetRuns(c) => SizeWith(s.calls, c, t.calls[c]);
    case GetReturns(c) => GetReturnsBalances(conf, s, c);
    case GetFails(c) => SizeWith(s.calls, c, t.calls[c]);
    case QueryRuns(c) => SizeWith(s.calls, c, t.calls[c]);
    case QueryReturns(c) =>
      FinishIsEnded(conf, s, c, s.calls[c].phase.value, s.calls[c].phase.asOf);
      SizeWithout(s.calls, c);
    case QueryFails(c) => SizeWithout(s.calls, c);
    case Restart(p) => RestartTakes(conf, s, p);
    case _ =>
  }

  lemma GetReturnsBalances<K(!new), V(!new)>(conf: Conf<K, V>, s: State<K, V>, c: nat)
    requires Enabled(conf, s, GetReturns(c))
    ensures var t := AfterGet(conf, s, c); |t.answers| + |t.calls| == |s.answers| + |s.calls|
  {
    var reply := s.calls[c].phase;
    if reply.raw.Some? && Says(conf, reply.raw.value) {
      FinishIsEnded(conf, s, c, if reply.raw.value == TOMBSTONE then None else conf.load(reply.raw.value), reply.asOf);
      SizeWithout(s.calls, c);
    } else {
      SizeWith(s.calls, c, s.calls[c].(phase := Asking));
    }
  }

  /**
   * Over every run: each lookup that was begun has been answered, is still in flight, has failed with its
   * query to Postgres, or was lost with its process. Nothing that Redis does loses one.
   */
  lemma {:induction false} NoLookupIsLost<K(!new), V(!new)>(conf: Conf<K, V>, s: State<K, V>, steps: seq<Step<K>>)
    requires Run(conf, s, steps).Some?
    ensures var t, tally := Run(conf, s, steps).value, TallyOf(conf, s, steps);
            |t.answers| + |t.calls| + tally.failed + tally.killed == |s.answers| + |s.calls| + tally.begun
    decreases |steps|
  {
    if steps != [] {
      hide Enabled, Apply;
      StepBalances(conf, s, steps[0]);
      NoLookupIsLost(conf, Apply(conf, s, steps[0]), steps[1..]);
    }
  }

  // ---------------------------------------------------------------------------------------------
  // What each tier answers
  // ---------------------------------------------------------------------------------------------

  /** Call `c` has ended with this answer, which its process remembers; everything else is as before. */
  ghost predicate EndsWith<K(!new), V(!new)>(conf: Conf<K, V>, s: State<K, V>, t: State<K, V>, c: nat, value: Option<V>,
      asOf: int)
  {
    c in s.calls &&
    var call := s.calls[c];
    && t.calls == s.calls - {c}
    && t.answers == s.answers + [Answer(call.key, value, s.now, asOf)]
    && t.now == s.now && t.redis == s.redis
    && RemembersNow(conf, s, t, call.process, call.key, value, asOf)
  }

  /** The entry is there until the memo's time to live is over, and other processes' memos are as they were. */
  ghost predicate RemembersNow<K(!new), V(!new)>(conf: Conf<K, V>, s: State<K, V>, t: State<K, V>, process: nat, key: K,
      value: Option<V>, asOf: int)
  {
    && key in MemoOf(t, process).entries
    && MemoOf(t, process).entries[key] == Remembered(value, s.now + conf.memoTtl, asOf)
    && forall p :: p != process ==> MemoOf(t, p) == MemoOf(s, p)
  }

  lemma FinishEnds<K(!new), V(!new)>(conf: Conf<K, V>, s: State<K, V>, c: nat, value: Option<V>, asOf: int)
    requires c in s.calls
    ensures EndsWith(conf, s, Finish(conf, s, c, value, asOf), c, value, asOf)
    ensures Finish(conf, s, c, value, asOf).pending == s.pending
  {
    FinishIsEnded(conf, s, c, value, asOf);
    var call := s.calls[c];
    var r := Remembered(value, s.now + conf.memoTtl, asOf);
    Memos.RemembersIt(MemoOf(s, call.process), call.key, r, conf.memoCap);
    hide Remember;
  }

  /** The call goes on to Postgres, and nothing else has happened. */
  ghost predicate GoesToPostgres<K(!new), V(!new)>(s: State<K, V>, t: State<K, V>, c: nat) {
    c in s.calls && t == s.(calls := s.calls[c := s.calls[c].(phase := Asking)])
  }

  /**
   * The answer of Redis, which counts until the timeout; the GET may fail at any time. A tombstone is
   * "absent", a readable payload is its value; with anything else, or nothing, or no answer at all, the
   * lookup goes on to Postgres.
   */
  lemma RedisAnswers<K(!new), V(!new)>(conf: Conf<K, V>, s: State<K, V>, c: nat)
    ensures c in s.calls && (s.calls[c].phase.Looking? || s.calls[c].phase.Replying?) ==>
      Enabled(conf, s, GetFails(c)) && GoesToPostgres(s, Apply(conf, s, GetFails(c)), c)
    ensures c in s.calls && s.calls[c].phase.Replying? ==>
      (Enabled(conf, s, GetReturns(c)) <==> s.now <= s.calls[c].startedAt + conf.timeout)
    ensures Enabled(conf, s, GetReturns(c)) ==>
      var raw, t := s.calls[c].phase.raw, Apply(conf, s, GetReturns(c));
      if raw == Some([0 as char]) then
        EndsWith(conf, s, t, c, None, s.calls[c].phase.asOf) && t.pending == s.pending
      else if raw.Some? && conf.load(raw.value).Some? then
        EndsWith(conf, s, t, c, conf.load(raw.value), s.calls[c].phase.asOf) && t.pending == s.pending
      else GoesToPostgres(s, t, c)
  {
    if Enabled(conf, s, GetReturns(c)) {
      var reply := s.calls[c].phase;
      if reply.raw.Some? {
        FinishEnds(conf, s, c, None, reply.asOf);
        FinishEnds(conf, s, c, conf.load(reply.raw.value), reply.asOf);
      }
      hide EndsWith, Finish;
    }
  }

  /** The write back that an answer of Postgres calls for: a tombstone, the stored value, or none. */
  ghost predicate WritesBack<K(!new), V(!new)>(conf: Conf<K, V>, s: State<K, V>, t: State<K, V>, key: K,
      value: Option<V>, asOf: int)
  {
    if value.None? then
      t.pending == s.pending + multiset{WriteBack(key, [0 as char], conf.negativeTtl, asOf, s.now)}
    else if conf.store(value.value).Some? then
      t.pending == s.pending + multiset{WriteBack(key, conf.store(value.value).value, conf.positiveTtl, asOf, s.now)}
    else t.pending == s.pending
  }

  lemma QueryEnds<K(!new), V(!new)>(conf: Conf<K, V>, s: State<K, V>, c: nat)
    requires Enabled(conf, s, QueryReturns(c))
    ensures var t, call := Apply(conf, s, QueryReturns(c)), s.calls[c];
            && EndsWith(conf, s, t, c, call.phase.value, call.phase.asOf)
            && WritesBack(conf, s, t, call.key, call.phase.value, call.phase.asOf)
  {
    FinishEnds(conf, s, c, s.calls[c].phase.value, s.calls[c].phase.asOf);
    hide Finish, Remember;
  }

  /** Which phase the call was in plays no part in how it ended. */
  lemma SameButCall<K(!new), V(!new)>(conf: Conf<K, V>, s: State<K, V>, u: State<K, V>, t: State<K, V>, c: nat,
      value: Option<V>, asOf: int)
    requires EndsWith(conf, s, t, c, value, asOf) && c in u.calls && s == u.(calls := s.calls)
    requires s.calls == u.calls[c := u.calls[c].(phase := s.calls[c].phase)]
    ensures EndsWith(conf, u, t, c, value, asOf)
    ensures forall key :: WritesBack(conf, s, t, key, value, asOf) ==> WritesBack(conf, u, t, key, value, asOf)
  {
    assert s.calls - {c} == u.calls - {c};
    assert forall p :: MemoOf(s, p) == MemoOf(u, p);
  }

  /** A query runs once and may fail at any time; its answer is used within the lookup delay. */
  lemma QueriesMayFail<K(!new), V(!new)>(conf: Conf<K, V>, s: State<K, V>, c: nat)
    requires c in s.calls
    ensures var phase := s.calls[c].phase;
            && (Enabled(conf, s, QueryRuns(c)) <==> phase.Asking?)
            && (Enabled(conf, s, QueryFails(c)) <==> phase.Asking? || phase.Answering?)
            && (Enabled(conf, s, QueryReturns(c)) <==> phase.Answering? && s.now <= phase.asOf + conf.lookupDelay)
    ensures Enabled(conf, s, QueryFails(c)) ==> Apply(conf, s, QueryFails(c)) == s.(calls := s.calls - {c})
  {
  }

  /**
   * What happens around the lookups takes away exactly what it names: an eviction and an invalidation the
   * entry of one key, a write back that lands or is dropped itself, once, and a restart the memo and the
   * lookups of one process.
   */
  lemma WhatHappensAround<K(!new), V(!new)>(conf: Conf<K, V>, s: State<K, V>, at: string, key: K, w: WriteBack<K>,
      process: nat)
    ensures Enabled(conf, s, Evict(at)) && Enabled(conf, s, Invalidate(key)) && Enabled(conf, s, Restart(process))
    ensures Apply(conf, s, Evict(at)) == s.(redis := s.redis - {at})
    ensures Apply(conf, s, Invalidate(key)) == s.(redis := s.redis - {conf.keyOf(key)})
    ensures w in s.pending ==>
      Enabled(conf, s, Drop(w)) && Apply(conf, s, Drop(w)) == s.(pending := s.pending - multiset{w})
    ensures Enabled(conf, s, Land(w)) <==> w in s.pending && s.now <= w.issuedAt + conf.writeDelay
    ensures Enabled(conf, s, Land(w)) ==>
      var t := Apply(conf, s, Land(w));
      t == s.(pending := s.pending - multiset{w}, redis := t.redis) && t.redis - {conf.keyOf(w.key)}
        == s.redis - {conf.keyOf(w.key)}
    ensures var t := Apply(conf, s, Restart(process));
            && t == s.(memos := t.memos, calls := t.calls)
            && (forall p :: p in t.memos <==> p in s.memos && p != process)
            && (forall p :: p in t.memos ==> t.memos[p] == s.memos[p])
            && (forall c :: c in t.calls <==> c in s.calls && s.calls[c].process != process)
            && (forall c :: c in t.calls ==> t.calls[c] == s.calls[c])
  {
  }

  function Query<K>(c: nat, ms: nat): seq<Step<K>> { [QueryRuns(c), Tick(ms), QueryReturns(c)] }

  /**
   * A lookup that has to ask Postgres and is answered in time gets exactly what Postgres holds when the
   * query runs, remembers it, and issues the write back for it.
   */
  lemma PostgresAnswers<K(!new), V(!new)>(conf: Conf<K, V>, s: State<K, V>, c: nat, ms: nat)
    requires c in s.calls && s.calls[c].phase.Asking? && ms <= conf.lookupDelay
    ensures Run(conf, s, Query(c, ms)).Some?
    ensures var t, value := Run(conf, s, Query(c, ms)).value, conf.truth(s.calls[c].key, s.now);
            && EndsWith(conf, s.(now := s.now + ms), t, c, value, s.now)
            && WritesBack(conf, s.(now := s.now + ms), t, s.calls[c].key, value, s.now)
  {
    var s1 := Apply(conf, s, QueryRuns(c));
    var s2 := Apply(conf, s1, Tick(ms));
    var later := s.(now := s.now + ms);
    assert s2 == later.(calls := s2.calls) && Enabled(conf, s2, QueryReturns(c));
    assert s2.calls[c] == s.calls[c].(phase := Answering(conf.truth(s.calls[c].key, s.now), s.now));
    QueryEnds(conf, s2, c);
    ThreeSteps(conf, s, QueryRuns(c), Tick(ms), QueryReturns(c));
    hide Apply, Enabled, Run, WritesBack;
    SameButCall(conf, s2, later, Apply(conf, s2, QueryReturns(c)), c, conf.truth(s.calls[c].key, s.now), s.now);
  }

  // ---------------------------------------------------------------------------------------------
  // A whole lookup
  // ---------------------------------------------------------------------------------------------

  /** Nothing near can answer: the process remembers nothing live, and Redis holds nothing readable and live. */
  ghost predicate NothingNear<K(!new), V(!new)>(conf: Conf<K, V>, s: State<K, V>, process: nat, key: K) {
    && !Memoized(s, process, key)
    && (Live(s, conf.keyOf(key)) ==> !Says(conf, s.redis[conf.keyOf(key)].raw))
  }

  /** The first lookup of a key, with Redis up or down: one answer, which is what Postgres holds. */
  lemma FirstLookup<K(!new), V(!new)>(conf: Conf<K, V>, s: State<K, V>, c: nat, process: nat, key: K, redisUp: bool,
      ms: nat)
    requires c !in s.calls && ms <= conf.lookupDelay && (redisUp ==> NothingNear(conf, s, process, key))
    requires !Memoized(s, process, key)
    ensures var steps := [Begin(c, process, key), GetRuns(c), if redisUp then GetReturns(c) else GetFails(c)]
                         + Query(c, ms);
            && Run(conf, s, steps).Some?
            && var t, value := Run(conf, s, steps).value, conf.truth(key, s.now);
               && t.answers == s.answers + [Answer(key, value, s.now + ms, s.now)] && t.calls == s.calls
               && t.now == s.now + ms && t.redis == s.redis
               && RemembersNow(conf, s.(now := s.now + ms), t, process, key, value, s.now)
               && WritesBack(conf, s.(now := s.now + ms), t, key, value, s.now)
  {
    var third := if redisUp then GetReturns(c) else GetFails(c);
    var u := GetMisses(conf, s, c, process, key, redisUp);
    hide Enabled, Apply;
    PostgresAnswers(conf, u, c, ms);
    RunsOn(conf, s, [Begin(c, process, key), GetRuns(c), third], Query(c, ms));
    var t := Run(conf, u, Query(c, ms)).value;
    hide Run;
    CallAddedAndGone(conf, u.(now := u.now + ms), s.(now := s.now + ms), t, c, conf.truth(key, s.now), s.now);
  }

  /** What Redis has to say about a key. */
  function ReplyFor<K(!new), V>(conf: Conf<K, V>, s: State<K, V>, key: K): Phase<V> {
    var at := conf.keyOf(key);
    if Live(s, at) then Replying(Some(s.redis[at].raw), s.redis[at].asOf, s.now) else Replying(None, s.now, s.now)
  }

  lemma AsksRedis<K(!new), V(!new)>(conf: Conf<K, V>, s: State<K, V>, c: nat, process: nat, key: K)
    returns (u: State<K, V>)
    requires c !in s.calls && !Memoized(s, process, key)
    ensures Enabled(conf, s, Begin(c, process, key))
    ensures Enabled(conf, Apply(conf, s, Begin(c, process, key)), GetRuns(c))
    ensures u == Apply(conf, Apply(conf, s, Begin(c, process, key)), GetRuns(c))
    ensures u == s.(calls := s.calls[c := Call(process, key, s.now, ReplyFor(conf, s, key))])
  {
    var s1 := Apply(conf, s, Begin(c, process, key));
    u := Apply(conf, s1, GetRuns(c));
    assert u.calls == s.calls[c := u.calls[c]];
  }

  lemma CallAddedAndGone<K(!new), V(!new)>(conf: Conf<K, V>, u: State<K, V>, s: State<K, V>, t: State<K, V>, c: nat,
      value: Option<V>, asOf: int)
    requires EndsWith(conf, u, t, c, value, asOf) && c !in s.calls && u == s.(calls := s.calls[c := u.calls[c]])
    requires WritesBack(conf, u, t, u.calls[c].key, value, asOf)
    ensures t.answers == s.answers + [Answer(u.calls[c].key, value, s.now, asOf)] && t.calls == s.calls
    ensures t.now == s.now && t.redis == s.redis && WritesBack(conf, s, t, u.calls[c].key, value, asOf)
    ensures RemembersNow(conf, s, t, u.calls[c].process, u.calls[c].key, value, asOf)
  {
    AloneAgain(conf, u, s, t, c, value, asOf);
  }

  lemma GetMisses<K(!new), V(!new)>(conf: Conf<K, V>, s: State<K, V>, c: nat, process: nat, key: K, redisUp: bool)
    returns (u: State<K, V>)
    requires c !in s.calls && !Memoized(s, process, key) && (redisUp ==> NothingNear(conf, s, process, key))
    ensures Run(conf, s, [Begin(c, process, key), GetRuns(c), if redisUp then GetReturns(c) else GetFails(c)])
      == Some(u)
    ensures u == s.(calls := s.calls[c := Call(process, key, s.now, Asking)])
  {
    var third := if redisUp then GetReturns(c) else GetFails(c);
    hide Apply, Enabled, Run, ReplyFor, NothingNear;
    var s2 := AsksRedis(conf, s, c, process, key);
    ReplyMisses(conf, s, s2, c, process, key, redisUp);
    ThreeSteps(conf, s, Begin(c, process, key), GetRuns(c), third);
    u := Apply(conf, s2, third);
    assert u.calls == s.calls[c := Call(process, key, s.now, Asking)];
  }

  lemma ReplyMisses<K(!new), V(!new)>(conf: Conf<K, V>, s: State<K, V>, u: State<K, V>, c: nat, process: nat, key: K,
      redisUp: bool)
    requires u == s.(calls := s.calls[c := Call(process, key, s.now, ReplyFor(conf, s, key))])
    requires redisUp ==> NothingNear(conf, s, process, key)
    ensures var third := if redisUp then GetReturns(c) else GetFails(c);
            Enabled(conf, u, third) && GoesToPostgres(u, Apply(conf, u, third), c)
  {
    hide EndsWith, GoesToPostgres;
    RedisAnswers(conf, u, c);
  }

  lemma ReplyIsTaken<K(!new), V(!new)>(conf: Conf<K, V>, s: State<K, V>, c: nat)
    requires c in s.calls && s.calls[c].phase.Replying? && s.now <= s.calls[c].startedAt + conf.timeout
    ensures Enabled(conf, s, GetReturns(c)) && Enabled(conf, s, GetFails(c))
  {
  }

  lemma {:induction false} RunsOn<K(!new), V(!new)>(conf: Conf<K, V>, s: State<K, V>, a: seq<Step<K>>, b: seq<Step<K>>)
    requires Run(conf, s, a).Some?
    ensures Run(conf, s, a + b) == Run(conf, Run(conf, s, a).value, b)
    decreases |a|
  {
    hide Enabled, Apply;
    if a == [] {
      assert a + b == b;
    } else {
      assert (a + b)[1..] == a[1..] + b;
      RunsOn(conf, Apply(conf, s, a[0]), a[1..], b);
    }
  }

  /**
   * A write back that lands is what Redis holds under the key for exactly its time to live. Until then a
   * lookup by any process that remembers nothing live is answered from it and asks nobody else; after
   * that the same lookup finds nothing.
   */
  lemma WriteBackServes<K(!new), V(!new)>(conf: Conf<K, V>, s: State<K, V>, w: WriteBack<K>, ms: nat, c: nat,
      process: nat)
    requires Enabled(conf, s, Land(w)) && Says(conf, w.raw) && c !in s.calls
    requires !Memoized(s.(now := s.now + ms), process, w.key)
    ensures var steps := [Land(w), Tick(ms)] + [Begin(c, process, w.key), GetRuns(c), GetReturns(c)];
            && Run(conf, s, steps).Some?
            && var t := Run(conf, s, steps).value;
               if ms < w.ttl then
                 var value := if w.raw == TOMBSTONE then None else conf.load(w.raw);
                 && t.answers == s.answers + [Answer(w.key, value, s.now + ms, w.asOf)] && t.calls == s.calls
                 && RemembersNow(conf, s.(now := s.now + ms), t, process, w.key, value, w.asOf)
               else t.answers == s.answers && c in t.calls && t.calls[c].key == w.key && t.calls[c].phase.Asking?
  {
    var u := Landed(conf, s, w, ms);
    RunsOn(conf, s, [Land(w), Tick(ms)], [Begin(c, process, w.key), GetRuns(c), GetReturns(c)]);
    if ms < w.ttl {
      HitAnswers(conf, u, c, process, w.key);
    } else {
      var v := GetMisses(conf, u, c, process, w.key, true);
    }
  }

  lemma Landed<K(!new), V(!new)>(conf: Conf<K, V>, s: State<K, V>, w: WriteBack<K>, ms: nat) returns (u: State<K, V>)
    requires Enabled(conf, s, Land(w))
    ensures Run(conf, s, [Land(w), Tick(ms)]) == Some(u)
    ensures u.calls == s.calls && u.memos == s.memos && u.answers == s.answers && u.now == s.now + ms
    ensures conf.keyOf(w.key) in u.redis && u.redis[conf.keyOf(w.key)] == Entry(w.raw, s.now + w.ttl, w.asOf)
  {
    var s1 := Apply(conf, s, Land(w));
    u := Apply(conf, s1, Tick(ms));
    OneStep(conf, s1, Tick(ms));
    StepThen(conf, s, Land(w), [Tick(ms)]);
    assert [Land(w)] + [Tick(ms)] == [Land(w), Tick(ms)];
  }

  /** A lookup that finds a live answer in Redis takes it. */
  lemma HitAnswers<K(!new), V(!new)>(conf: Conf<K, V>, s: State<K, V>, c: nat, process: nat, key: K)
    requires c !in s.calls && !Memoized(s, process, key)
    requires Live(s, conf.keyOf(key)) && Says(conf, s.redis[conf.keyOf(key)].raw)
    ensures var steps, e := [Begin(c, process, key), GetRuns(c), GetReturns(c)], s.redis[conf.keyOf(key)];
            && Run(conf, s, steps).Some?
            && var t, value := Run(conf, s, steps).value, if e.raw == TOMBSTONE then None else conf.load(e.raw);
               && t.answers == s.answers + [Answer(key, value, s.now, e.asOf)] && t.calls == s.calls
               && t.redis == s.redis && t.pending == s.pending
               && RemembersNow(conf, s, t, process, key, value, e.asOf)
  {
    var s2 := AsksRedis(conf, s, c, process, key);
    ReplyIsTaken(conf, s2, c);
    RedisAnswers(conf, s2, c);
    hide Apply, Enabled, Run, EndsWith, RemembersNow;
    ThreeSteps(conf, s, Begin(c, process, key), GetRuns(c), GetReturns(c));
    var e := s.redis[conf.keyOf(key)];
    AloneAgain(conf, s2, s, Apply(conf, s2, GetReturns(c)), c, if e.raw == TOMBSTONE then None else conf.load(e.raw),
      e.asOf);
  }

  lemma AloneAgain<K(!new), V(!new)>(conf: Conf<K, V>, u: State<K, V>, s: State<K, V>, t: State<K, V>, c: nat,
      value: Option<V>, asOf: int)
    requires EndsWith(conf, u, t, c, value, asOf) && c !in s.calls && u == s.(calls := s.calls[c := u.calls[c]])
    ensures t.answers == s.answers + [Answer(u.calls[c].key, value, s.now, asOf)] && t.calls == s.calls
    ensures t.now == s.now && t.redis == s.redis
    ensures RemembersNow(conf, s, t, u.calls[c].process, u.calls[c].key, value, asOf)
  {
    assert u.calls - {c} == s.calls;
    assert forall p :: MemoOf(u, p) == MemoOf(s, p);
  }

  /** What a process remembers answers at once, for exactly the memo's time to live, and nobody is asked. */
  lemma MemoServes<K(!new), V(!new)>(conf: Conf<K, V>, s: State<K, V>, c: nat, process: nat, key: K)
    requires c !in s.calls && key in MemoOf(s, process).entries
    ensures var t, r := Apply(conf, s, Begin(c, process, key)), MemoOf(s, process).entries[key];
            if s.now < r.expiresAt then t == s.(answers := s.answers + [Answer(key, r.value, s.now, r.asOf)])
            else t.answers == s.answers && t == s.(calls := s.calls[c := Call(process, key, s.now, Looking)])
  {
  }

  // ---------------------------------------------------------------------------------------------
  // The two ladders, in numbers
  // ---------------------------------------------------------------------------------------------

  /**
   * What Postgres says about a handle is cached for an hour if it is a tenant and for a minute if there is
   * none, and remembered by the process for a minute.
   */
  lemma HandleLookup(truth: (string, int) -> Option<string>, timeout: nat, lookupDelay: nat, writeDelay: nat,
      s: State<string, string>, c: nat, ms: nat)
    requires c in s.calls && s.calls[c].phase.Asking? && ms <= lookupDelay
    ensures var conf := HandleConf(truth, timeout, lookupDelay, writeDelay);
            && Run(conf, s, Query(c, ms)).Some?
            && var t, key, tenant := Run(conf, s, Query(c, ms)).value, s.calls[c].key, truth(s.calls[c].key, s.now);
               && t.answers == s.answers + [Answer(key, tenant, s.now + ms, s.now)]
               && t.pending == s.pending + multiset{
                    WriteBack(key, if tenant.Some? then tenant.value else [0 as char],
                              if tenant.Some? then 3_600_000 else 60_000, s.now, s.now + ms)}
               && key in MemoOf(t, s.calls[c].process).entries
               && MemoOf(t, s.calls[c].process).entries[key] == Remembered(tenant, s.now + ms + 60_000, s.now)
  {
    PostgresAnswers(HandleConf(truth, timeout, lookupDelay, writeDelay), s, c, ms);
  }

  /**
   * What Postgres says about a link is cached for the configured time if it is one whose destination
   * validates, in its validated form, and for a minute if there is none; the process remembers nothing.
   */
  lemma LinkLookup(format: LinkFormat, truth: (LinkName, int) -> Option<CachedLink>, cacheTtlSeconds: nat, timeout: nat,
      lookupDelay: nat, writeDelay: nat, s: State<LinkName, CachedLink>, c: nat, ms: nat)
    requires c in s.calls && s.calls[c].phase.Asking? && ms <= lookupDelay
    ensures var conf := LinkConf(format, truth, cacheTtlSeconds, timeout, lookupDelay, writeDelay);
            && Run(conf, s, Query(c, ms)).Some?
            && var t, key, link := Run(conf, s, Query(c, ms)).value, s.calls[c].key, truth(s.calls[c].key, s.now);
               && t.answers == s.answers + [Answer(key, link, s.now + ms, s.now)]
               && t.pending == s.pending + (
                    if link.None? then multiset{WriteBack(key, [0 as char], 60_000, s.now, s.now + ms)}
                    else
                      match format.normalize(link.value.destination)
                      case None => multiset{}
                      case Some(d) =>
                        multiset{WriteBack(key, format.toJson(link.value.(destination := d)), 1000 * cacheTtlSeconds,
                                           s.now, s.now + ms)})
               && !Memoized(t, s.calls[c].process, key)
  {
    PostgresAnswers(LinkConf(format, truth, cacheTtlSeconds, timeout, lookupDelay, writeDelay), s, c, ms);
  }
}
