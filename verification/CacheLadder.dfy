/**
 * The read ladders of apps/api/src/redirect/resolve-tenant.ts and resolve-link.ts: process memo, then
 * Redis, then Postgres, with fire-and-forget writes back to Redis. The link ladder is the one without
 * a memo.
 *
 * One state holds any number of API processes, Redis and the calls in flight; a step is what happens
 * between two awaits. Redis may fail, hang, evict, or come to hold an unreadable payload for any time,
 * and a write back may land late or never; payloads that read as answers are written by the ladders
 * only. Postgres is its answer at each instant (`truth`). Each value carries the instant at which
 * Postgres gave it (`asOf`), which the code does not see. Time is in milliseconds on one clock.
 */
module CacheLadder {
  import opened Prelude
  import opened Memos

  /** The cached form of "Postgres confirmed that there is nothing". */
  const TOMBSTONE: string := [0 as char]

  /**
   * `store` and `load` are the writer and reader of a cached payload (`None`: not cacheable,
   * unreadable); `serve` is what the caller of the ladder makes of an answer. `lookupDelay` bounds a
   * Postgres answer that is used, `writeDelay` a write back that lands.
   */
  datatype Conf<!K, !V> = Conf(
    keyOf: K -> string, truth: (K, int) -> Option<V>,
    store: V -> Option<string>, load: string -> Option<V>, serve: V -> Option<V>,
    positiveTtl: nat, negativeTtl: nat, memoTtl: nat, memoCap: nat,
    timeout: nat, lookupDelay: nat, writeDelay: nat)

  ghost predicate Sound<K(!new), V(!new)>(conf: Conf<K, V>) {
    && (forall j, k :: conf.keyOf(j) == conf.keyOf(k) ==> j == k)
    && (forall k, t ::
          var v := conf.truth(k, t);
          v.Some? && conf.store(v.value).Some? ==>
            var raw := conf.store(v.value).value;
            raw != TOMBSTONE && conf.load(raw).Some? && conf.serve(conf.load(raw).value) == conf.serve(v.value))
  }

  datatype Remembered<V> = Remembered(value: Option<V>, expiresAt: int, asOf: int)

  /** `expiresAt` and `asOf` belong to Redis and to the history; the reader gets `raw`. */
  datatype Entry = Entry(raw: string, expiresAt: int, asOf: int)

  datatype WriteBack<K> = WriteBack(key: K, raw: string, ttl: nat, asOf: int, issuedAt: int)

  datatype Phase<V> =
    | Looking                                            // the GET is on its way
    | Replying(raw: Option<string>, asOf: int, readAt: int) // Redis has executed it
    | Asking                                             // the query is on its way
    | Answering(value: Option<V>, asOf: int)             // Postgres has executed it

  datatype Call<K, V> = Call(process: nat, key: K, startedAt: int, phase: Phase<V>)

  datatype Answer<K, V> = Answer(key: K, value: Option<V>, at: int, asOf: int)

  datatype State<!K(!new), V> = State(
    now: int, memos: map<nat, Memo<K, Remembered<V>>>, redis: map<string, Entry>,
    calls: map<nat, Call<K, V>>, pending: multiset<WriteBack<K>>, answers: seq<Answer<K, V>>)

  datatype Step<K> =
    | Begin(call: nat, process: nat, key: K)
    | GetRuns(call: nat)
    | GetReturns(call: nat)
    | GetFails(call: nat)
    | QueryRuns(call: nat)
    | QueryReturns(call: nat)
    | QueryFails(call: nat)
    | Land(write: WriteBack<K>)
    | Drop(write: WriteBack<K>)
    | Evict(at: string)
    | Garbage(at: string, raw: string, until: int)
    | Invalidate(key: K)
    | Restart(process: nat)
    | Tick(ms: nat)

  function Init<K(!new), V>(now: int): State<K, V> { State(now, map[], map[], map[], multiset{}, []) }

  function MemoOf<K(!new), V>(s: State<K, V>, process: nat): Memo<K, Remembered<V>> {
    if process in s.memos then s.memos[process] else Empty()
  }

  predicate Memoized<K(!new), V>(s: State<K, V>, process: nat, key: K) {
    key in MemoOf(s, process).entries && s.now < MemoOf(s, process).entries[key].expiresAt
  }

  predicate Live<K(!new), V>(s: State<K, V>, at: string) {
    at in s.redis && s.now < s.redis[at].expiresAt
  }

  /** A call ends with an answer, remembered in the memo of its process. */
  function Finish<K(!new), V>(conf: Conf<K, V>, s: State<K, V>, c: nat, value: Option<V>, asOf: int): State<K, V>
    requires c in s.calls
  {
    var call := s.calls[c];
    Ended(s, c, Answer(call.key, value, s.now, asOf), call.process,
          Remember(MemoOf(s, call.process), call.key, Remembered(value, s.now + conf.memoTtl, asOf), conf.memoCap))
  }

  function Ended<K(!new), V>(s: State<K, V>, c: nat, a: Answer<K, V>, process: nat, m: Memo<K, Remembered<V>>)
      : State<K, V>
  {
    s.(calls := s.calls - {c}, answers := s.answers + [a], memos := s.memos[process := m])
  }

  /** The write back for an answer of Postgres, if the answer can be cached. */
  function WritesFor<K(!new), V>(conf: Conf<K, V>, s: State<K, V>, key: K, value: Option<V>, asOf: int)
      : multiset<WriteBack<K>>
  {
    match value
    case None => multiset{WriteBack(key, TOMBSTONE, conf.negativeTtl, asOf, s.now)}
    case Some(v) =>
      match conf.store(v)
      case None => multiset{}
      case Some(raw) => multiset{WriteBack(key, raw, conf.positiveTtl, asOf, s.now)}
  }

  predicate Enabled<K(!new), V>(conf: Conf<K, V>, s: State<K, V>, step: Step<K>) {
    match step
    case Begin(c, _, _) => c !in s.calls
    case GetRuns(c) => c in s.calls && s.calls[c].phase.Looking?
    case GetReturns(c) => c in s.calls && s.calls[c].phase.Replying? && s.now <= s.calls[c].startedAt + conf.timeout
    case GetFails(c) => c in s.calls && (s.calls[c].phase.Looking? || s.calls[c].phase.Replying?)
    case QueryRuns(c) => c in s.calls && s.calls[c].phase.Asking?
    case QueryReturns(c) =>
      c in s.calls && s.calls[c].phase.Answering? && s.now <= s.calls[c].phase.asOf + conf.lookupDelay
    case QueryFails(c) => c in s.calls && (s.calls[c].phase.Asking? || s.calls[c].phase.Answering?)
    case Land(w) => w in s.pending && s.now <= w.issuedAt + conf.writeDelay
    case Drop(w) => w in s.pending
    case Evict(_) => true
    case Garbage(_, raw, _) => raw != TOMBSTONE && conf.load(raw).None?
    case Invalidate(_) => true
    case Restart(_) => true
    case Tick(_) => true
  }

  function SetPhase<K(!new), V>(s: State<K, V>, c: nat, phase: Phase<V>): State<K, V>
    requires c in s.calls
  {
    s.(calls := s.calls[c := s.calls[c].(phase := phase)])
  }

  /** The ladder after a GET: the tombstone is an answer, an unreadable payload is a miss. */
  function AfterGet<K(!new), V>(conf: Conf<K, V>, s: State<K, V>, c: nat): State<K, V>
    requires c in s.calls && s.calls[c].phase.Replying?
  {
    var reply := s.calls[c].phase;
    if reply.raw.None? then SetPhase(s, c, Asking)
    else if reply.raw.value == TOMBSTONE then Finish(conf, s, c, None, reply.asOf)
    else
      match conf.load(reply.raw.value)
      case None => SetPhase(s, c, Asking)
      case Some(v) => Finish(conf, s, c, Some(v), reply.asOf)
  }

  function Apply<K(!new), V>(conf: Conf<K, V>, s: State<K, V>, step: Step<K>): State<K, V>
    requires Enabled(conf, s, step)
  {
    match step
    case Begin(c, process, key) =>
      if Memoized(s, process, key) then
        var m := MemoOf(s, process).entries[key];
        s.(answers := s.answers + [Answer(key, m.value, s.now, m.asOf)])
      else s.(calls := s.calls[c := Call(process, key, s.now, Looking)])
    case GetRuns(c) =>
      var at := conf.keyOf(s.calls[c].key);
      SetPhase(s, c, if Live(s, at) then Replying(Some(s.redis[at].raw), s.redis[at].asOf, s.now)
        else Replying(None, s.now, s.now))
    case GetReturns(c) => AfterGet(conf, s, c)
    case GetFails(c) => SetPhase(s, c, Asking)
    case QueryRuns(c) => SetPhase(s, c, Answering(conf.truth(s.calls[c].key, s.now), s.now))
    case QueryReturns(c) =>
      var call := s.calls[c];
      Finish(conf, s, c, call.phase.value, call.phase.asOf)
        .(pending := s.pending + WritesFor(conf, s, call.key, call.phase.value, call.phase.asOf))
    case QueryFails(c) => s.(calls := s.calls - {c})
    case Land(w) =>
      s.(redis := s.redis[conf.keyOf(w.key) := Entry(w.raw, s.now + w.ttl, w.asOf)], pending := s.pending - multiset{w})
    case Drop(w) => s.(pending := s.pending - multiset{w})
    case Evict(at) => s.(redis := s.redis - {at})
    case Garbage(at, raw, until) => s.(redis := s.redis[at := Entry(raw, until, s.now)])
    case Invalidate(key) => s.(redis := s.redis - {conf.keyOf(key)})
    case Restart(process) =>
      s.(memos := s.memos - {process}, calls := map c | c in s.calls && s.calls[c].process != process :: s.calls[c])
    case Tick(ms) => s.(now := s.now + ms)
  }

  function Run<K(!new), V>(conf: Conf<K, V>, s: State<K, V>, steps: seq<Step<K>>): Option<State<K, V>>
    decreases |steps|
  {
    if steps == [] then Some(s)
    else if !Enabled(conf, s, steps[0]) then None
    else Run(conf, Apply(conf, s, steps[0]), steps[1..])
  }

  // ---------------------------------------------------------------------------------------------
  // Bounded staleness
  // ---------------------------------------------------------------------------------------------

  /** The answer is the one Postgres gave at `asOf`, up to what serving makes of it. */
  ghost predicate Matches<K(!new), V(!new)>(conf: Conf<K, V>, key: K, value: Option<V>, asOf: int) {
    var v := conf.truth(key, asOf);
    (value.None? && v.None?) || (value.Some? && v.Some? && conf.serve(value.value) == conf.serve(v.value))
  }

  /** The payload is an answer: a tombstone or readable. */
  predicate Says<K, V>(conf: Conf<K, V>, raw: string) { raw == TOMBSTONE || conf.load(raw).Some? }

  /** What a cached payload says, if it says anything. */
  ghost predicate RawMatches<K(!new), V(!new)>(conf: Conf<K, V>, key: K, raw: string, asOf: int) {
    if raw == TOMBSTONE then conf.truth(key, asOf).None?
    else conf.load(raw).Some? ==> Matches(conf, key, conf.load(raw), asOf)
  }

  function TtlOf<K, V>(conf: Conf<K, V>, negative: bool): nat {
    if negative then conf.negativeTtl else conf.positiveTtl
  }

  /** How far back an answer can date: no further than what its tiers and delays add up to. */
  function Bound<K, V>(conf: Conf<K, V>, negative: bool): nat {
    conf.lookupDelay + conf.writeDelay + TtlOf(conf, negative) + conf.timeout + conf.memoTtl
  }

  function CachedUntil<K, V>(conf: Conf<K, V>, raw: string, asOf: int): int {
    asOf + conf.lookupDelay + conf.writeDelay + TtlOf(conf, raw == TOMBSTONE)
  }

  ghost predicate EntryOk<K(!new), V(!new)>(conf: Conf<K, V>, now: int, key: K, e: Entry) {
    && e.asOf <= now && RawMatches(conf, key, e.raw, e.asOf)
    && (Says(conf, e.raw) ==> e.expiresAt <= CachedUntil(conf, e.raw, e.asOf))
  }

  ghost predicate WriteOk<K(!new), V(!new)>(conf: Conf<K, V>, now: int, w: WriteBack<K>) {
    && w.asOf <= w.issuedAt <= now && w.issuedAt <= w.asOf + conf.lookupDelay
    && RawMatches(conf, w.key, w.raw, w.asOf) && w.ttl == TtlOf(conf, w.raw == TOMBSTONE)
  }

  ghost predicate CallOk<K(!new), V(!new)>(conf: Conf<K, V>, now: int, call: Call<K, V>) {
    && call.startedAt <= now
    && match call.phase
       case Replying(raw, asOf, readAt) =>
         && asOf <= readAt && call.startedAt <= readAt <= now
         && (raw.Some? ==> RawMatches(conf, call.key, raw.value, asOf))
         && (raw.Some? && Says(conf, raw.value) ==> readAt <= CachedUntil(conf, raw.value, asOf))
       case Answering(value, asOf) => asOf <= now && value == conf.truth(call.key, asOf)
       case _ => true
  }

  ghost predicate RememberedOk<K(!new), V(!new)>(conf: Conf<K, V>, now: int, key: K, r: Remembered<V>) {
    && r.asOf <= now && Matches(conf, key, r.value, r.asOf)
    && r.expiresAt <= r.asOf + Bound(conf, r.value.None?)
  }

  ghost predicate AnswerOk<K(!new), V(!new)>(conf: Conf<K, V>, a: Answer<K, V>) {
    && Matches(conf, a.key, a.value, a.asOf)
    && a.asOf <= a.at <= a.asOf + Bound(conf, a.value.None?)
  }

  ghost predicate MemoOk<K(!new), V(!new)>(conf: Conf<K, V>, now: int, m: Memo<K, Remembered<V>>) {
    && m.Valid() && |m.entries| <= (if conf.memoCap == 0 then 1 else conf.memoCap)
    && forall k :: k in m.entries ==> RememberedOk(conf, now, k, m.entries[k])
  }

  ghost predicate MemosOk<K(!new), V(!new)>(conf: Conf<K, V>, s: State<K, V>) {
    forall p :: p in s.memos ==> MemoOk(conf, s.now, s.memos[p])
  }

  ghost predicate Inv<K(!new), V(!new)>(conf: Conf<K, V>, s: State<K, V>) {
    && (forall k :: conf.keyOf(k) in s.redis ==> EntryOk(conf, s.now, k, s.redis[conf.keyOf(k)]))
    && (forall w :: w in s.pending ==> WriteOk(conf, s.now, w))
    && (forall c :: c in s.calls ==> CallOk(conf, s.now, s.calls[c]))
    && MemosOk(conf, s)
    && (forall i :: 0 <= i < |s.answers| ==> AnswerOk(conf, s.answers[i]))
  }

  lemma FinishKeeps<K(!new), V(!new)>(conf: Conf<K, V>, s: State<K, V>, c: nat, value: Option<V>, asOf: int)
    requires Inv(conf, s) && c in s.calls && asOf <= s.now && Matches(conf, s.calls[c].key, value, asOf)
    requires s.now + conf.memoTtl <= asOf + Bound(conf, value.None?)
    ensures Inv(conf, Finish(conf, s, c, value, asOf))
  {
    AnsweredOk(conf, s.now, s.calls[c].key, value, asOf);
    var call := s.calls[c];
    var r := Remembered(value, s.now + conf.memoTtl, asOf);
    MemoOfOk(conf, s, call.process);
    FinishIsEnded(conf, s, c, value, asOf);
    hide Inv, MemoOk, AnswerOk, RememberedOk, Matches;
    var m := Remember(MemoOf(s, call.process), call.key, r, conf.memoCap);
    RememberOk(conf, s.now, MemoOf(s, call.process), call.key, r);
    EndedKeeps(conf, s, c, Answer(call.key, value, s.now, asOf), call.process, m);
  }

  lemma FinishIsEnded<K(!new), V(!new)>(conf: Conf<K, V>, s: State<K, V>, c: nat, value: Option<V>, asOf: int)
    requires c in s.calls
    ensures var call := s.calls[c];
            Finish(conf, s, c, value, asOf) ==
            Ended(s, c, Answer(call.key, value, s.now, asOf), call.process,
                  Remember(MemoOf(s, call.process), call.key, Remembered(value, s.now + conf.memoTtl, asOf),
                    conf.memoCap))
  {
  }

  lemma EndedKeeps<K(!new), V(!new)>(conf: Conf<K, V>, s: State<K, V>, c: nat, a: Answer<K, V>, p: nat,
      m: Memo<K, Remembered<V>>)
    requires Inv(conf, s) && AnswerOk(conf, a) && MemoOk(conf, s.now, m)
    ensures Inv(conf, Ended(s, c, a, p, m))
  {
    hide EntryOk, WriteOk, CallOk, MemoOk, AnswerOk;
  }

  lemma AnsweredOk<K(!new), V(!new)>(conf: Conf<K, V>, now: int, key: K, value: Option<V>, asOf: int)
    requires asOf <= now && Matches(conf, key, value, asOf) && now + conf.memoTtl <= asOf + Bound(conf, value.None?)
    ensures RememberedOk(conf, now, key, Remembered(value, now + conf.memoTtl, asOf))
    ensures AnswerOk(conf, Answer(key, value, now, asOf))
  {
  }

  lemma MemoOfOk<K(!new), V(!new)>(conf: Conf<K, V>, s: State<K, V>, p: nat)
    requires MemosOk(conf, s)
    ensures MemoOk(conf, s.now, MemoOf(s, p))
  {
    hide RememberedOk;
    EmptyIsOk(conf, s.now);
  }

  lemma EmptyIsOk<K(!new), V(!new)>(conf: Conf<K, V>, now: int)
    ensures MemoOk(conf, now, Empty<K, Remembered<V>>())
  {
  }

  lemma RememberOk<K(!new), V(!new)>(conf: Conf<K, V>, now: int, m: Memo<K, Remembered<V>>, k: K, r: Remembered<V>)
    requires MemoOk(conf, now, m) && RememberedOk(conf, now, k, r)
    ensures MemoOk(conf, now, Remember(m, k, r, conf.memoCap))
  {
    hide RememberedOk, Remember;
    RememberKeepsValid(m, k, r, conf.memoCap);
    RememberKeepsCap(m, k, r, conf.memoCap);
    RememberMeaning(m, k, r, conf.memoCap);
  }

  lemma GetReturnsKeeps<K(!new), V(!new)>(conf: Conf<K, V>, s: State<K, V>, c: nat)
    requires Inv(conf, s) && Enabled(conf, s, GetReturns(c))
    ensures Inv(conf, AfterGet(conf, s, c))
  {
    hide EntryOk, WriteOk, AnswerOk, MemoOk;
    var call := s.calls[c];
    var reply := call.phase;
    if reply.raw.Some? {
      if reply.raw.value == TOMBSTONE {
        FinishKeeps(conf, s, c, None, reply.asOf);
      } else if conf.load(reply.raw.value).Some? {
        FinishKeeps(conf, s, c, conf.load(reply.raw.value), reply.asOf);
      }
    }
  }

  lemma QueryReturnsKeeps<K(!new), V(!new)>(conf: Conf<K, V>, s: State<K, V>, c: nat)
    requires Sound(conf) && Inv(conf, s) && Enabled(conf, s, QueryReturns(c))
    ensures Inv(conf, Apply(conf, s, QueryReturns(c)))
  {
    var call := s.calls[c];
    FinishKeeps(conf, s, c, call.phase.value, call.phase.asOf);
    WritesOk(conf, s, call.key, call.phase.asOf);
  }

  lemma WritesOk<K(!new), V(!new)>(conf: Conf<K, V>, s: State<K, V>, key: K, asOf: int)
    requires Sound(conf) && asOf <= s.now <= asOf + conf.lookupDelay
    ensures forall w :: w in WritesFor(conf, s, key, conf.truth(key, asOf), asOf) ==> WriteOk(conf, s.now, w)
  {
  }

  lemma LandKeeps<K(!new), V(!new)>(conf: Conf<K, V>, s: State<K, V>, w: WriteBack<K>)
    requires Sound(conf) && Inv(conf, s) && Enabled(conf, s, Land(w))
    ensures Inv(conf, Apply(conf, s, Land(w)))
  {
    var t := Apply(conf, s, Land(w));
    assert EntryOk(conf, t.now, w.key, t.redis[conf.keyOf(w.key)]);
  }

  lemma BeginKeeps<K(!new), V(!new)>(conf: Conf<K, V>, s: State<K, V>, c: nat, process: nat, key: K)
    requires Inv(conf, s) && Enabled(conf, s, Begin(c, process, key))
    ensures Inv(conf, Apply(conf, s, Begin(c, process, key)))
  {
    hide Inv, MemosOk;
    assert MemosOk(conf, s) by { InvMemos(conf, s); }
    if Memoized(s, process, key) {
      var m := MemoOf(s, process).entries[key];
      MemoAnswers(conf, s, process, key);
      AnswerAdded(conf, s, Answer(key, m.value, s.now, m.asOf));
    } else {
      CallAdded(conf, s, c, Call(process, key, s.now, Looking));
    }
  }

  lemma AnswerAdded<K(!new), V(!new)>(conf: Conf<K, V>, s: State<K, V>, a: Answer<K, V>)
    requires Inv(conf, s) && AnswerOk(conf, a)
    ensures Inv(conf, s.(answers := s.answers + [a]))
  {
    hide EntryOk, WriteOk, CallOk, MemoOk, AnswerOk;
  }

  lemma CallAdded<K(!new), V(!new)>(conf: Conf<K, V>, s: State<K, V>, c: nat, call: Call<K, V>)
    requires Inv(conf, s) && CallOk(conf, s.now, call)
    ensures Inv(conf, s.(calls := s.calls[c := call]))
  {
    hide EntryOk, WriteOk, CallOk, MemoOk, AnswerOk;
  }

  lemma InvMemos<K(!new), V(!new)>(conf: Conf<K, V>, s: State<K, V>)
    requires Inv(conf, s)
    ensures MemosOk(conf, s)
  {
  }

  /** What a memo holds and has not expired is an answer in time. */
  lemma MemoAnswers<K(!new), V(!new)>(conf: Conf<K, V>, s: State<K, V>, process: nat, key: K)
    requires MemosOk(conf, s) && Memoized(s, process, key)
    ensures var m := MemoOf(s, process).entries[key]; AnswerOk(conf, Answer(key, m.value, s.now, m.asOf))
  {
    hide Matches, Bound;
    assert process in s.memos && MemoOk(conf, s.now, s.memos[process]);
    assert RememberedOk(conf, s.now, key, s.memos[process].entries[key]);
  }

  lemma GetRunsKeeps<K(!new), V(!new)>(conf: Conf<K, V>, s: State<K, V>, c: nat)
    requires Inv(conf, s) && Enabled(conf, s, GetRuns(c))
    ensures Inv(conf, Apply(conf, s, GetRuns(c)))
  {
    assert CallOk(conf, s.now, s.calls[c]);
    assert CallOk(conf, s.now, Apply(conf, s, GetRuns(c)).calls[c]);
  }

  lemma TickKeeps<K(!new), V(!new)>(conf: Conf<K, V>, s: State<K, V>, ms: nat)
    requires Inv(conf, s)
    ensures Inv(conf, s.(now := s.now + ms))
  {
    hide RawMatches, Matches, AnswerOk, Bound, CachedUntil;
    var t := s.(now := s.now + ms);
    forall c | c in t.calls ensures CallOk(conf, t.now, t.calls[c]) { assert CallOk(conf, s.now, s.calls[c]); }
    forall p | p in t.memos ensures MemoOk(conf, t.now, t.memos[p]) { assert MemoOk(conf, s.now, s.memos[p]); }
  }

  lemma RestartKeeps<K(!new), V(!new)>(conf: Conf<K, V>, s: State<K, V>, process: nat)
    requires Inv(conf, s)
    ensures Inv(conf, Apply(conf, s, Restart(process)))
  {
    hide EntryOk, WriteOk, MemoOk, AnswerOk, CallOk;
  }

  lemma CallsKeep<K(!new), V(!new)>(conf: Conf<K, V>, s: State<K, V>, step: Step<K>)
    requires Inv(conf, s) && Enabled(conf, s, step)
    requires step.GetFails? || step.QueryRuns? || step.QueryFails? || step.Drop?
    ensures Inv(conf, Apply(conf, s, step))
  {
    hide EntryOk, WriteOk, MemoOk, AnswerOk, Matches;
  }

  lemma RedisKeeps<K(!new), V(!new)>(conf: Conf<K, V>, s: State<K, V>, step: Step<K>)
    requires Inv(conf, s) && Enabled(conf, s, step) && (step.Evict? || step.Garbage? || step.Invalidate?)
    ensures Inv(conf, Apply(conf, s, step))
  {
    hide WriteOk, CallOk, MemoOk, AnswerOk, Matches, CachedUntil;
  }

  lemma StepKeeps<K(!new), V(!new)>(conf: Conf<K, V>, s: State<K, V>, step: Step<K>)
    requires Sound(conf) && Inv(conf, s) && Enabled(conf, s, step)
    ensures Inv(conf, Apply(conf, s, step))
  {
    match step
    case Begin(c, process, key) => BeginKeeps(conf, s, c, process, key);
    case GetRuns(c) => GetRunsKeeps(conf, s, c);
    case GetReturns(c) => GetReturnsKeeps(conf, s, c);
    case QueryReturns(c) => QueryReturnsKeeps(conf, s, c);
    case Land(w) => LandKeeps(conf, s, w);
    case Tick(ms) => TickKeeps(conf, s, ms);
    case Restart(process) => RestartKeeps(conf, s, process);
    case Evict(_) => RedisKeeps(conf, s, step);
    case Garbage(_, _, _) => RedisKeeps(conf, s, step);
    case Invalidate(_) => RedisKeeps(conf, s, step);
    case _ => CallsKeep(conf, s, step);
  }

  lemma {:induction false} RunKeeps<K(!new), V(!new)>(conf: Conf<K, V>, s: State<K, V>, steps: seq<Step<K>>)
    requires Sound(conf) && Inv(conf, s) && Run(conf, s, steps).Some?
    ensures Inv(conf, Run(conf, s, steps).value)
    decreases |steps|
  {
    if steps != [] {
      StepKeeps(conf, s, steps[0]);
      RunKeeps(conf, Apply(conf, s, steps[0]), steps[1..]);
    }
  }

  /**
   * However Redis fails, and whatever unreadable payloads it comes to hold: every answer ever given was
   * Postgres's answer at some instant no further back than the delays, the Redis TTL of that kind of
   * answer and the memo TTL add up to. A null answer in particular is only ever a confirmed absence.
   * And no memo exceeds its cap.
   */
  lemma StalenessIsBounded<K(!new), V(!new)>(conf: Conf<K, V>, start: int, steps: seq<Step<K>>)
    requires Sound(conf) && Run(conf, Init<K, V>(start), steps).Some?
    ensures var s := Run(conf, Init<K, V>(start), steps).value;
            && (forall i :: 0 <= i < |s.answers| ==> AnswerOk(conf, s.answers[i]))
            && (forall p :: p in s.memos ==> |s.memos[p].entries| <= (if conf.memoCap == 0 then 1 else conf.memoCap))
  {
    RunKeeps(conf, Init<K, V>(start), steps);
  }
}
