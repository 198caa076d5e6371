/** When the answers of a ladder are fresh, and what the handle and link ladders guarantee. */
module CacheTheorems {
  import opened Prelude
  import opened Memos
  import opened CacheLadder
  import Utf16

  // ---------------------------------------------------------------------------------------------
  // Freshness after an invalidation
  // ---------------------------------------------------------------------------------------------

  /** Can this write, reply, query or memo entry still lead to an answer about `key` older than `since`? */
  predicate OldWrite<K(==), V>(conf: Conf<K, V>, now: int, key: K, since: int, w: WriteBack<K>) {
    w.key == key && w.asOf < since && Says(conf, w.raw) && w.ttl > 0 && now <= w.issuedAt + conf.writeDelay
  }

  predicate OldReply<K(==), V>(conf: Conf<K, V>, now: int, key: K, since: int, call: Call<K, V>) {
    && call.key == key && call.phase.Replying? && call.phase.raw.Some? && Says(conf, call.phase.raw.value)
    && call.phase.asOf < since && now <= call.startedAt + conf.timeout
  }

  predicate OldQuery<K(==), V>(conf: Conf<K, V>, now: int, key: K, since: int, call: Call<K, V>) {
    call.key == key && call.phase.Answering? && call.phase.asOf < since && now <= call.phase.asOf + conf.lookupDelay
  }

  predicate OldMemo<V>(now: int, since: int, r: Remembered<V>) { r.asOf < since && now < r.expiresAt }

  predicate OldEntry<K, V>(conf: Conf<K, V>, now: int, since: int, e: Entry) {
    e.asOf < since && Says(conf, e.raw) && now < e.expiresAt
  }

  ghost predicate NothingOld<K(!new), V>(conf: Conf<K, V>, s: State<K, V>, key: K, since: int) {
    && (forall w :: w in s.pending ==> !OldWrite(conf, s.now, key, since, w))
    && (forall c :: c in s.calls ==>
      !OldReply(conf, s.now, key, since, s.calls[c]) && !OldQuery(conf, s.now, key, since, s.calls[c]))
    && (forall p :: p in s.memos && key in s.memos[p].entries ==> !OldMemo(s.now, since, s.memos[p].entries[key]))
    && (conf.keyOf(key) in s.redis ==> !OldEntry(conf, s.now, since, s.redis[conf.keyOf(key)]))
  }

  /** The answers about `key` that a step adds. */
  ghost predicate AddsFresh<K(!new), V>(s: State<K, V>, t: State<K, V>, key: K, since: int) {
    && s.answers <= t.answers
    && forall i :: |s.answers| <= i < |t.answers| && t.answers[i].key == key ==> t.answers[i].asOf >= since
  }

  lemma FinishStaysFresh<K(!new), V(!new)>(conf: Conf<K, V>, s: State<K, V>, c: nat, value: Option<V>, asOf: int,
      key: K, since: int)
    requires c in s.calls && NothingOld(conf, s, key, since) && (s.calls[c].key == key ==> asOf >= since)
    ensures NothingOld(conf, Finish(conf, s, c, value, asOf), key, since)
      && AddsFresh(s, Finish(conf, s, c, value, asOf), key, since)
  {
    var call := s.calls[c];
    var t := Finish(conf, s, c, value, asOf);
    FinishIsEnded(conf, s, c, value, asOf);
    hide Remember, OldWrite, OldReply, OldQuery, OldEntry;
    forall p | p in t.memos && key in t.memos[p].entries ensures !OldMemo(t.now, since, t.memos[p].entries[key]) {
      if p == call.process {
        RememberedFresh(MemoOf(s, p), call.key, Remembered(value, s.now + conf.memoTtl, asOf), conf.memoCap, key);
      }
    }
  }

  lemma RememberedFresh<K(!new), V>(m: Memo<K, V>, k: K, v: V, cap: nat, j: K)
    requires j in Remember(m, k, v, cap).entries
    ensures Remember(m, k, v, cap).entries[j] == (if j == k then v else if j in m.entries then m.entries[j] else v)
  {
  }

  lemma GetReturnsFresh<K(!new), V(!new)>(conf: Conf<K, V>, s: State<K, V>, c: nat, key: K, since: int)
    requires Enabled(conf, s, GetReturns(c)) && NothingOld(conf, s, key, since)
    ensures NothingOld(conf, AfterGet(conf, s, c), key, since) && AddsFresh(s, AfterGet(conf, s, c), key, since)
  {
    var reply := s.calls[c].phase;
    assert !OldReply(conf, s.now, key, since, s.calls[c]);
    if reply.raw.Some? && Says(conf, reply.raw.value) {
      FinishStaysFresh(conf, s, c, if reply.raw.value == TOMBSTONE then None
        else conf.load(reply.raw.value), reply.asOf, key, since);
    }
  }

  lemma QueryReturnsFresh<K(!new), V(!new)>(conf: Conf<K, V>, s: State<K, V>, c: nat, key: K, since: int)
    requires Enabled(conf, s, QueryReturns(c)) && NothingOld(conf, s, key, since)
    ensures var t := Apply(conf, s, QueryReturns(c)); NothingOld(conf, t, key, since) && AddsFresh(s, t, key, since)
  {
    var call := s.calls[c];
    assert !OldQuery(conf, s.now, key, since, call);
    FinishStaysFresh(conf, s, c, call.phase.value, call.phase.asOf, key, since);
    FinishIsEnded(conf, s, c, call.phase.value, call.phase.asOf);
  }

  lemma BeginFresh<K(!new), V(!new)>(conf: Conf<K, V>, s: State<K, V>, c: nat, process: nat, k: K, key: K, since: int)
    requires Enabled(conf, s, Begin(c, process, k)) && NothingOld(conf, s, key, since)
    ensures var t := Apply(conf, s, Begin(c, process, k));
            NothingOld(conf, t, key, since) && AddsFresh(s, t, key, since)
  {
    if Memoized(s, process, k) { assert process in s.memos; }
  }

  lemma TickFresh<K(!new), V(!new)>(conf: Conf<K, V>, s: State<K, V>, ms: nat, key: K, since: int)
    requires NothingOld(conf, s, key, since)
    ensures NothingOld(conf, s.(now := s.now + ms), key, since)
  {
  }

  /** Only old values make old answers: a step adds nothing old where there was nothing old. */
  lemma StepStaysFresh<K(!new), V(!new)>(conf: Conf<K, V>, s: State<K, V>, step: Step<K>, key: K, since: int)
    requires Sound(conf) && since <= s.now && Enabled(conf, s, step) && NothingOld(conf, s, key, since)
    ensures var t := Apply(conf, s, step);
            since <= t.now && NothingOld(conf, t, key, since) && AddsFresh(s, t, key, since)
  {
    hide NothingOld, AddsFresh, Sound;
    match step
    case Begin(c, process, k) => BeginFresh(conf, s, c, process, k, key, since);
    case GetRuns(c) => GetRunsFresh(conf, s, c, key, since);
    case GetReturns(c) => GetReturnsFresh(conf, s, c, key, since);
    case QueryReturns(c) =>
      QueryReturnsFresh(conf, s, c, key, since);
      FinishIsEnded(conf, s, c, s.calls[c].phase.value, s.calls[c].phase.asOf);
    case Tick(ms) =>
      TickFresh(conf, s, ms, key, since);
      AddsNone(s, Apply(conf, s, step), key, since);
    case Land(w) => LandFresh(conf, s, w, key, since);
    case _ =>
      if LeavesCalls(step) { RedisFresh(conf, s, step, key, since); } else { CallsFresh(conf, s, step, key, since); }
  }

  lemma AddsNone<K(!new), V(!new)>(s: State<K, V>, t: State<K, V>, key: K, since: int)
    requires t.answers == s.answers
    ensures AddsFresh(s, t, key, since)
  {
  }

  lemma GetRunsFresh<K(!new), V(!new)>(conf: Conf<K, V>, s: State<K, V>, c: nat, key: K, since: int)
    requires since <= s.now && Enabled(conf, s, GetRuns(c)) && NothingOld(conf, s, key, since)
    ensures var t := Apply(conf, s, GetRuns(c)); NothingOld(conf, t, key, since) && AddsFresh(s, t, key, since)
  {
  }

  lemma LandFresh<K(!new), V(!new)>(conf: Conf<K, V>, s: State<K, V>, w: WriteBack<K>, key: K, since: int)
    requires Sound(conf) && Enabled(conf, s, Land(w)) && NothingOld(conf, s, key, since)
    ensures var t := Apply(conf, s, Land(w)); NothingOld(conf, t, key, since) && AddsFresh(s, t, key, since)
  {
    assert !OldWrite(conf, s.now, key, since, w);
  }

  predicate LeavesCalls<K>(step: Step<K>) { step.Drop? || step.Evict? || step.Garbage? || step.Invalidate? }

  lemma RedisFresh<K(!new), V(!new)>(conf: Conf<K, V>, s: State<K, V>, step: Step<K>, key: K, since: int)
    requires since <= s.now && Enabled(conf, s, step) && NothingOld(conf, s, key, since) && LeavesCalls(step)
    ensures var t := Apply(conf, s, step);
            t.now == s.now && NothingOld(conf, t, key, since) && AddsFresh(s, t, key, since)
  {
    hide OldReply, OldQuery, OldMemo, OldWrite;
    if step.Drop? { hide OldEntry; }
  }

  lemma CallsFresh<K(!new), V(!new)>(conf: Conf<K, V>, s: State<K, V>, step: Step<K>, key: K, since: int)
    requires since <= s.now && Enabled(conf, s, step) && NothingOld(conf, s, key, since)
    requires step.GetFails? || step.QueryRuns? || step.QueryFails? || step.Restart?
    ensures var t := Apply(conf, s, step);
            t.now == s.now && NothingOld(conf, t, key, since) && AddsFresh(s, t, key, since)
  {
    hide OldMemo, OldWrite, OldEntry, Says;
  }

  lemma {:induction false} RunStaysFresh<K(!new), V(!new)>(conf: Conf<K, V>, s: State<K, V>, steps: seq<Step<K>>,
      key: K, since: int)
    requires Sound(conf) && since <= s.now && Run(conf, s, steps).Some? && NothingOld(conf, s, key, since)
    ensures AddsFresh(s, Run(conf, s, steps).value, key, since)
    decreases |steps|
  {
    if steps != [] {
      StepStaysFresh(conf, s, steps[0], key, since);
      RunStaysFresh(conf, Apply(conf, s, steps[0]), steps[1..], key, since);
    }
  }

  ghost predicate FreshFromNowOn<K(!new), V(!new)>(conf: Conf<K, V>, s: State<K, V>, key: K, since: int) {
    forall steps :: Run(conf, s, steps).Some? ==> AddsFresh(s, Run(conf, s, steps).value, key, since)
  }

  /** What one readable old entry does: the next request is answered from it. */
  lemma OldEntryAnswers<K(!new), V(!new)>(conf: Conf<K, V>, s: State<K, V>, key: K, since: int)
    requires conf.keyOf(key) in s.redis && OldEntry(conf, s.now, since, s.redis[conf.keyOf(key)])
    ensures exists steps :: Run(conf, s, steps).Some? && !AddsFresh(s, Run(conf, s, steps).value, key, since)
  {
    var c := FreshNumber(s.calls.Keys);
    var p := FreshNumber(s.memos.Keys);
    assert p !in s.memos && c !in s.calls;
    var e := s.redis[conf.keyOf(key)];
    LookupReplies(conf, s, c, p, key);
    var s2 := Apply(conf, Apply(conf, s, Begin(c, p, key)), GetRuns(c));
    ReplyAnswers(conf, s2, c, key, e.raw, e.asOf);
    ThreeSteps(conf, s, Begin(c, p, key), GetRuns(c), GetReturns(c));
    hide Apply, Enabled, Run;
    var s3 := Apply(conf, s2, GetReturns(c));
    assert !AddsFresh(s, s3, key, since) by { assert s3.answers[|s.answers|].asOf < since; }
  }

  /** A lookup by a process with an empty memo gets what Redis holds. */
  lemma LookupReplies<K(!new), V(!new)>(conf: Conf<K, V>, s: State<K, V>, c: nat, p: nat, key: K)
    requires p !in s.memos && c !in s.calls && conf.keyOf(key) in s.redis && s.now < s.redis[conf.keyOf(key)].expiresAt
    ensures Enabled(conf, s, Begin(c, p, key)) && Enabled(conf, Apply(conf, s, Begin(c, p, key)), GetRuns(c))
    ensures var e, t := s.redis[conf.keyOf(key)], Apply(conf, Apply(conf, s, Begin(c, p, key)), GetRuns(c));
            && c in t.calls && t.calls[c] == Call(p, key, s.now, Replying(Some(e.raw), e.asOf, s.now))
            && t.answers == s.answers && t.now == s.now
  {
  }

  /**
   * An unreadable payload, put there to last until `until`, is read by the next lookup of a process
   * without a memo and answers nothing: the lookup goes on to Postgres.
   */
  lemma UnreadablePayloadIsAMiss<K(!new), V(!new)>(conf: Conf<K, V>, s: State<K, V>, key: K, raw: string, until: int)
    requires !Says(conf, raw) && s.now < until
    ensures exists steps, c ::
      && Run(conf, s, [Garbage(conf.keyOf(key), raw, until)] + steps).Some?
      && var t := Run(conf, s, [Garbage(conf.keyOf(key), raw, until)] + steps).value;
         && GetReturns(c) in steps && t.answers == s.answers
         && c in t.calls && t.calls[c].key == key && t.calls[c].phase.Asking?
  {
    var at := conf.keyOf(key);
    var put := Garbage(at, raw, until);
    assert Enabled(conf, s, put);
    var u := Apply(conf, s, put);
    assert at in u.redis && u.redis[at].raw == raw && u.now < u.redis[at].expiresAt && u.answers == s.answers;
    hide Apply, Enabled, Run, Says;
    var c, steps := UnreadableLookup(conf, u, key);
    StepThen(conf, s, put, steps);
    assert GetReturns(c) in steps;
  }

  lemma StepThen<K(!new), V(!new)>(conf: Conf<K, V>, s: State<K, V>, step: Step<K>, steps: seq<Step<K>>)
    requires Enabled(conf, s, step)
    ensures Run(conf, s, [step] + steps) == Run(conf, Apply(conf, s, step), steps)
  {
    assert ([step] + steps)[1..] == steps;
  }

  lemma UnreadableLookup<K(!new), V(!new)>(conf: Conf<K, V>, s: State<K, V>, key: K)
    returns (c: nat, steps: seq<Step<K>>)
    requires conf.keyOf(key) in s.redis && !Says(conf, s.redis[conf.keyOf(key)].raw)
      && s.now < s.redis[conf.keyOf(key)].expiresAt
    ensures Run(conf, s, steps).Some? && GetReturns(c) in steps
    ensures var t := Run(conf, s, steps).value;
            t.answers == s.answers && c in t.calls && t.calls[c].key == key && t.calls[c].phase.Asking?
  {
    c := FreshNumber(s.calls.Keys);
    var p := FreshNumber(s.memos.Keys);
    assert p !in s.memos && c !in s.calls;
    LookupReplies(conf, s, c, p, key);
    steps := [Begin(c, p, key), GetRuns(c), GetReturns(c)];
    assert steps[2] == GetReturns(c);
    var t := Apply(conf, Apply(conf, s, Begin(c, p, key)), GetRuns(c));
    assert Enabled(conf, t, GetReturns(c));
    MissGoesOn(conf, t, c);
    ThreeSteps(conf, s, Begin(c, p, key), GetRuns(c), GetReturns(c));
  }

  lemma MissGoesOn<K(!new), V(!new)>(conf: Conf<K, V>, s: State<K, V>, c: nat)
    requires Enabled(conf, s, GetReturns(c)) && s.calls[c].phase.raw.Some? && !Says(conf, s.calls[c].phase.raw.value)
    ensures Apply(conf, s, GetReturns(c)) == SetPhase(s, c, Asking)
  {
  }

  lemma ReplyAnswers<K(!new), V(!new)>(conf: Conf<K, V>, s: State<K, V>, c: nat, key: K, raw: string, asOf: int)
    requires c in s.calls && s.calls[c].key == key && s.calls[c].phase.Replying? && s.calls[c].phase.raw == Some(raw)
    requires s.calls[c].phase.asOf == asOf && s.now <= s.calls[c].startedAt + conf.timeout && Says(conf, raw)
    ensures Enabled(conf, s, GetReturns(c))
    ensures var t := Apply(conf, s, GetReturns(c));
            |t.answers| == |s.answers| + 1 && s.answers <= t.answers && t.answers[|s.answers|].key == key
              && t.answers[|s.answers|].asOf == asOf
  {
    FinishIsEnded(conf, s, c, if raw == TOMBSTONE then None else conf.load(raw), asOf);
  }

  lemma ThreeSteps<K(!new), V(!new)>(conf: Conf<K, V>, s: State<K, V>, a: Step<K>, b: Step<K>, c: Step<K>)
    requires Enabled(conf, s, a) && Enabled(conf, Apply(conf, s, a), b)
      && Enabled(conf, Apply(conf, Apply(conf, s, a), b), c)
    ensures Run(conf, s, [a, b, c]) == Some(Apply(conf, Apply(conf, Apply(conf, s, a), b), c))
  {
    var u := Apply(conf, Apply(conf, s, a), b);
    OneStep(conf, u, c);
    assert [a, b, c][1..] == [b, c] && [b, c][1..] == [c];
    assert Run(conf, Apply(conf, s, a), [b, c]) == Run(conf, u, [c]);
  }

  lemma OneStep<K(!new), V(!new)>(conf: Conf<K, V>, s: State<K, V>, a: Step<K>)
    requires Enabled(conf, s, a)
    ensures Run(conf, s, [a]) == Some(Apply(conf, s, a))
  {
    assert [a][1..] == [];
    assert Run(conf, Apply(conf, s, a), []) == Some(Apply(conf, s, a));
  }

  lemma OldWriteAnswers<K(!new), V(!new)>(conf: Conf<K, V>, s: State<K, V>, w: WriteBack<K>, key: K, since: int)
    requires w in s.pending && OldWrite(conf, s.now, key, since, w)
    ensures !FreshFromNowOn(conf, s, key, since)
  {
    var t := Apply(conf, s, Land(w));
    OldEntryAnswers(conf, t, key, since);
    var steps :| Run(conf, t, steps).Some? && !AddsFresh(t, Run(conf, t, steps).value, key, since);
    var all := [Land(w)] + steps;
    assert all[1..] == steps;
    assert Run(conf, s, all) == Run(conf, t, steps);
  }

  lemma OldCallAnswers<K(!new), V(!new)>(conf: Conf<K, V>, s: State<K, V>, c: nat, key: K, since: int)
    requires c in s.calls && (OldReply(conf, s.now, key, since, s.calls[c])
      || OldQuery(conf, s.now, key, since, s.calls[c]))
    ensures !FreshFromNowOn(conf, s, key, since)
  {
    var call := s.calls[c];
    var step := if call.phase.Replying? then GetReturns(c) else QueryReturns(c);
    var value := if call.phase.Answering? then call.phase.value
                 else if call.phase.raw.value == TOMBSTONE then None else conf.load(call.phase.raw.value);
    FinishIsEnded(conf, s, c, value, call.phase.asOf);
    assert Apply(conf, s, step).answers == s.answers + [Answer(key, value, s.now, call.phase.asOf)];
    OneStep(conf, s, step);
    assert Run(conf, s, [step]).value.answers[|s.answers|] == Answer(key, value, s.now, call.phase.asOf);
    assert !AddsFresh(s, Run(conf, s, [step]).value, key, since);
  }

  lemma OldMemoAnswers<K(!new), V(!new)>(conf: Conf<K, V>, s: State<K, V>, p: nat, key: K, since: int)
    requires p in s.memos && key in s.memos[p].entries && OldMemo(s.now, since, s.memos[p].entries[key])
    ensures !FreshFromNowOn(conf, s, key, since)
  {
    var c := FreshNumber(s.calls.Keys);
    assert c !in s.calls && Memoized(s, p, key);
    OneStep(conf, s, Begin(c, p, key));
    assert Run(conf, s, [Begin(c, p, key)]).value.answers[|s.answers|].asOf == s.memos[p].entries[key].asOf;
    assert !AddsFresh(s, Run(conf, s, [Begin(c, p, key)]).value, key, since);
  }

  /**
   * Exactly when all further answers about a key are as of `since` or later: when no older value is
   * cached, memoized, or on its way in a write back, a reply or a query that still counts.
   */
  lemma FreshnessIsExact<K(!new), V(!new)>(conf: Conf<K, V>, s: State<K, V>, key: K, since: int)
    requires Sound(conf) && since <= s.now
    ensures FreshFromNowOn(conf, s, key, since) <==> NothingOld(conf, s, key, since)
  {
    if NothingOld(conf, s, key, since) {
      forall steps | Run(conf, s, steps).Some? ensures AddsFresh(s, Run(conf, s, steps).value, key, since) {
        RunStaysFresh(conf, s, steps, key, since);
      }
    } else if w :| w in s.pending && OldWrite(conf, s.now, key, since, w) {
      OldWriteAnswers(conf, s, w, key, since);
    } else if c :| c in s.calls && (OldReply(conf, s.now, key, since, s.calls[c])
                                    || OldQuery(conf, s.now, key, since, s.calls[c])) {
      OldCallAnswers(conf, s, c, key, since);
    } else if p :| p in s.memos && key in s.memos[p].entries && OldMemo(s.now, since, s.memos[p].entries[key]) {
      OldMemoAnswers(conf, s, p, key, since);
    } else {
      OldEntryAnswers(conf, s, key, since);
    }
  }

  /**
   * `invalidateLink` after an edit at `since` makes every later answer fresh if and only if no older
   * write back, reply or query (or, in a ladder with a memo, memo entry) is still about: the `DEL`
   * takes care of Redis alone, and an older backfill that lands after it brings the old value back.
   */
  lemma InvalidationIsExact<K(!new), V(!new)>(conf: Conf<K, V>, s: State<K, V>, key: K, since: int)
    requires Sound(conf) && since <= s.now
    ensures FreshFromNowOn(conf, Apply(conf, s, Invalidate(key)), key, since) <==>
      && (forall w :: w in s.pending ==> !OldWrite(conf, s.now, key, since, w))
      && (forall c :: c in s.calls ==>
        !OldReply(conf, s.now, key, since, s.calls[c]) && !OldQuery(conf, s.now, key, since, s.calls[c]))
      && (forall p :: p in s.memos && key in s.memos[p].entries ==> !OldMemo(s.now, since, s.memos[p].entries[key]))
  {
    FreshnessIsExact(conf, Apply(conf, s, Invalidate(key)), key, since);
  }

  // ---------------------------------------------------------------------------------------------
  // The handle ladder
  // ---------------------------------------------------------------------------------------------

  function HandleKey(handle: string): string { "handle:" + handle }

  /** One hour for a tenant, one minute for "unknown", one minute of memo, at most 10000 handles in it. */
  function HandleConf(truth: (string, int) -> Option<string>, timeout: nat, lookupDelay: nat, writeDelay: nat)
      : Conf<string, string>
  {
    Conf(HandleKey, truth, t => Some(t), raw => Some(raw), t => Some(t),
         3_600_000, 60_000, 60_000, 10_000, timeout, lookupDelay, writeDelay)
  }

  lemma HandleConfIsSound(truth: (string, int) -> Option<string>, timeout: nat, lookupDelay: nat, writeDelay: nat)
    requires forall h, t :: truth(h, t) != Some(TOMBSTONE)
    ensures Sound(HandleConf(truth, timeout, lookupDelay, writeDelay))
  {
    forall j, k | HandleKey(j) == HandleKey(k) ensures j == k {
      assert HandleKey(j)[7..] == j && HandleKey(k)[7..] == k;
    }
  }

  /**
   * Every answer of the handle ladder was Postgres's at an instant at most 61 minutes (for a tenant)
   * or two minutes (for "unknown") plus the delays back; tenant ids never are a lone NUL, which
   * Postgres could not store.
   */
  lemma HandleAnswers(truth: (string, int) -> Option<string>, timeout: nat, lookupDelay: nat, writeDelay: nat,
                      start: int, steps: seq<Step<string>>)
    requires forall h, t :: truth(h, t) != Some(TOMBSTONE)
    requires Run(HandleConf(truth, timeout, lookupDelay, writeDelay), Init(start), steps).Some?
    ensures var s := Run(HandleConf(truth, timeout, lookupDelay, writeDelay), Init(start), steps).value;
            && (forall i :: 0 <= i < |s.answers| ==>
                  var a := s.answers[i];
                  && a.value == truth(a.key, a.asOf)
                  && a.asOf <= a.at <= a.asOf + (if a.value.None? then 120_000 else 3_660_000) + timeout + lookupDelay
                    + writeDelay)
            && (forall p :: p in s.memos ==> |s.memos[p].entries| <= 10_000)
  {
    var conf := HandleConf(truth, timeout, lookupDelay, writeDelay);
    HandleConfIsSound(truth, timeout, lookupDelay, writeDelay);
    StalenessIsBounded(conf, start, steps);
    var s := Run(conf, Init(start), steps).value;
    forall i | 0 <= i < |s.answers|
      ensures s.answers[i].value == truth(s.answers[i].key, s.answers[i].asOf)
    {
      assert AnswerOk(conf, s.answers[i]);
    }
  }

  // ---------------------------------------------------------------------------------------------
  // The link ladder
  // ---------------------------------------------------------------------------------------------

  datatype CachedLink = CachedLink(linkId: string, tenantId: string, destination: Utf16.Text)

  /** Tenant ids hold no colon; slugs may be any string here. */
  datatype AnyLinkName = LinkName(tenant: string, slug: string)
  type LinkName = n: AnyLinkName | ':' !in n.tenant witness LinkName("", "")

  function PrintKey(n: AnyLinkName): string { "link:" + n.tenant + ":" + n.slug }

  function LinkKey(n: LinkName): string { PrintKey(n) }

  function UpToColon(s: string): string {
    if s == [] || s[0] == ':' then [] else [s[0]] + UpToColon(s[1..])
  }

  lemma {:induction false} TenantOfKey(tenant: string, slug: string)
    requires ':' !in tenant
    ensures UpToColon(tenant + ":" + slug) == tenant
  {
    if tenant != [] {
      assert (tenant + ":" + slug)[1..] == tenant[1..] + ":" + slug;
      TenantOfKey(tenant[1..], slug);
    }
  }

  /** No two links share a key, because no tenant id holds a colon. */
  lemma LinkKeyInjective(m: LinkName, n: LinkName)
    requires LinkKey(m) == LinkKey(n)
    ensures m == n
  {
    TenantOfKey(m.tenant, m.slug);
    TenantOfKey(n.tenant, n.slug);
    assert LinkKey(m)[5..] == m.tenant + ":" + m.slug;
    assert LinkKey(n)[5..] == n.tenant + ":" + n.slug;
    assert (m.tenant + ":" + m.slug)[|m.tenant| + 1..] == m.slug;
    assert (n.tenant + ":" + n.slug)[|n.tenant| + 1..] == n.slug;
  }

  /**
   * Why slugs and tenant ids are validated first: for names of any text, a key is shared with another
   * name exactly when the name holds a colon, on either side.
   */
  lemma ColonsCollideExactly(n: AnyLinkName)
    ensures (exists m: AnyLinkName :: m != n && PrintKey(m) == PrintKey(n)) <==> ':' in n.tenant || ':' in n.slug
  {
    hide PrintKey;
    if i :| 0 <= i < |n.tenant| && n.tenant[i] == ':' {
      KeyOfEarlierColon(n, i);
    } else if j :| 0 <= j < |n.slug| && n.slug[j] == ':' {
      KeyOfLaterColon(n, j);
    } else if m: AnyLinkName :| m != n && PrintKey(m) == PrintKey(n) {
      OnlyColon(m, n);
    }
  }

  lemma KeyOfEarlierColon(n: AnyLinkName, i: nat)
    requires i < |n.tenant| && n.tenant[i] == ':'
    ensures exists m: AnyLinkName :: m != n && PrintKey(m) == PrintKey(n)
  {
    var m := LinkName(n.tenant[..i], n.tenant[i + 1..] + ":" + n.slug);
    assert n.tenant == n.tenant[..i] + ":" + n.tenant[i + 1..];
    assert PrintKey(m) == PrintKey(n) && |m.tenant| < |n.tenant|;
  }

  lemma KeyOfLaterColon(n: AnyLinkName, j: nat)
    requires j < |n.slug| && n.slug[j] == ':'
    ensures exists m: AnyLinkName :: m != n && PrintKey(m) == PrintKey(n)
  {
    var m := LinkName(n.tenant + ":" + n.slug[..j], n.slug[j + 1..]);
    assert n.slug == n.slug[..j] + ":" + n.slug[j + 1..];
    assert PrintKey(m) == PrintKey(n) && |m.tenant| > |n.tenant|;
  }

  lemma ColonBetween(a: string, b: string, i: nat)
    requires i < |a + ":" + b| && (a + ":" + b)[i] == ':'
    ensures i == |a| || ':' in a || ':' in b
  {
    if i < |a| {
      assert a[i] in a;
    } else if i > |a| {
      assert b[i - |a| - 1] in b;
    }
  }

  lemma OnlyColon(m: AnyLinkName, n: AnyLinkName)
    requires ':' !in n.tenant && ':' !in n.slug && PrintKey(m) == PrintKey(n)
    ensures m == n
  {
    var s, t := m.tenant + ":" + m.slug, n.tenant + ":" + n.slug;
    assert PrintKey(m)[5..] == s && PrintKey(n)[5..] == t;
    var i := |m.tenant|;
    assert s[i] == ':' && t[i] == ':';
    ColonBetween(n.tenant, n.slug, i);
    assert s[..i] == m.tenant && t[..i] == n.tenant && s[i + 1..] == m.slug && t[i + 1..] == n.slug;
  }

  /**
   * How links are validated and printed: `normalize` is the destination schema (it refuses, or
   * returns the trimmed form), `toJson` and `fromJson` are the JSON of a cached link.
   */
  datatype LinkFormat = LinkFormat(normalize: Utf16.Text -> Option<Utf16.Text>, toJson: CachedLink -> string,
    fromJson: string -> Option<CachedLink>) {
    ghost predicate Valid() {
      && (forall d :: normalize(d).Some? ==> normalize(normalize(d).value) == normalize(d))
      && (forall l :: fromJson(toJson(l)) == Some(l) && toJson(l) != TOMBSTONE)
    }

    /** `CachedLinkSchema`, and equally the guard in front of the redirect. */
    function Validated(l: CachedLink): Option<CachedLink> {
      match normalize(l.destination)
      case None => None
      case Some(d) => Some(l.(destination := d))
    }

    function Store(l: CachedLink): Option<string> {
      match Validated(l)
      case None => None
      case Some(v) => Some(toJson(v))
    }

    function Load(raw: string): Option<CachedLink> {
      match fromJson(raw)
      case None => None
      case Some(l) => Validated(l)
    }
  }

  /**
   * One minute for "absent", the configured time for a link, and no memo: an entry that expires at once
   * is never used.
   */
  function LinkConf(format: LinkFormat, truth: (LinkName, int) -> Option<CachedLink>, cacheTtlSeconds: nat,
                    timeout: nat, lookupDelay: nat, writeDelay: nat): Conf<LinkName, CachedLink> {
    Conf(LinkKey, truth, l => format.Store(l), raw => format.Load(raw), l => format.Validated(l),
         1000 * cacheTtlSeconds, 60_000, 0, 1, timeout, lookupDelay, writeDelay)
  }

  lemma LinkConfIsSound(format: LinkFormat, truth: (LinkName, int) -> Option<CachedLink>, cacheTtlSeconds: nat,
                        timeout: nat, lookupDelay: nat, writeDelay: nat)
    requires format.Valid()
    ensures Sound(LinkConf(format, truth, cacheTtlSeconds, timeout, lookupDelay, writeDelay))
  {
    forall j: LinkName, k: LinkName | LinkKey(j) == LinkKey(k) ensures j == k { LinkKeyInjective(j, k); }
  }

  /**
   * A null answer is a confirmed absence at most one minute plus the delays back, never a failure of
   * Redis or Postgres. A link that is answered is, once validated, the same as the row Postgres gave
   * once validated: the visitor is sent to the same place whichever tier answered, and the link is
   * one of the tenant asked for.
   */
  lemma LinkAnswers(conf: Conf<LinkName, CachedLink>, format: LinkFormat, truth: (LinkName, int) -> Option<CachedLink>,
                    cacheTtlSeconds: nat, timeout: nat, lookupDelay: nat, writeDelay: nat,
                    start: int, steps: seq<Step<LinkName>>, i: nat)
    requires format.Valid() && conf == LinkConf(format, truth, cacheTtlSeconds, timeout, lookupDelay, writeDelay)
    requires forall n, t :: truth(n, t).Some? ==> truth(n, t).value.tenantId == n.tenant
    requires Run(conf, Init(start), steps).Some? && i < |Run(conf, Init(start), steps).value.answers|
    ensures var a := Run(conf, Init(start), steps).value.answers[i];
            var row, ttl := truth(a.key, a.asOf), if a.value.None? then 60_000 else 1000 * cacheTtlSeconds;
            && a.asOf <= a.at <= a.asOf + ttl + timeout + lookupDelay + writeDelay
            && (a.value.None? <==> row.None?)
            && (a.value.Some? ==>
                  var validated := format.Validated(a.value.value);
                  && validated == format.Validated(row.value)
                  && (validated.Some? ==> validated.value.tenantId == a.key.tenant))
  {
    LinkConfIsSound(format, truth, cacheTtlSeconds, timeout, lookupDelay, writeDelay);
    StalenessIsBounded(conf, start, steps);
    assert AnswerOk(conf, Run(conf, Init(start), steps).value.answers[i]);
  }
}
