/**
 * packages/core/src/redis/salt.ts: one visitor-hash salt per UTC day, agreed on by all instances
 * through `SET key candidate EX 172800 NX` and `GET key`.
 *
 * A process is one lifetime of the memo. The clock is one and does not run backwards. A `SET` or
 * `GET` may fail at any time, a `SET` reported as failed may still take effect later, and Redis may
 * lose any key at any time.
 */
module Salt {
  import opened Prelude
  import opened Memos

  const SALT_TTL_MS: int := 172_800_000
  const SALT_MEMO_MAX_ENTRIES: nat := 2

  /** Until then no entry for the day can have expired: no `SET` for a day runs before the day. */
  function SafeUntil(day: int): int { (day + 2) * MS_PER_DAY }

  datatype Phase =
    | Setting
    | Getting
    | Read(value: Option<string>, readAt: int)
    | Done(salt: string, byGet: bool, readAt: int)

  /** One run of `fetchOrGenerateSalt`; the memo holds its promise, here its number. */
  datatype Fetch = Fetch(process: nat, day: int, candidate: string, phase: Phase)

  datatype Entry = Entry(value: string, expiresAt: int)

  /** What one call of `getDailySalt` got: the promise of a fetch. */
  datatype Call = Call(process: nat, day: int, fetch: nat)

  datatype State = State(
    now: int, redis: map<int, Entry>, memos: map<nat, Memo<int, nat>>, fetches: seq<Fetch>, calls: seq<Call>,
    late: multiset<(int, string)>)

  datatype Step =
    | GetDailySalt(process: nat, candidate: string)
    | SetRuns(fetch: nat)
    | SetFails(fetch: nat, mayLand: bool)
    | LateSet(day: int, candidate: string)
    | GetRuns(fetch: nat)
    | GetReturns(fetch: nat)
    | GetFails(fetch: nat)
    | Tick(ms: nat)
    | Lose(day: int)

  function Init(now: int): State { State(now, map[], map[], [], [], multiset{}) }

  function MemoOf(s: State, process: nat): Memo<int, nat> {
    if process in s.memos then s.memos[process] else Empty()
  }

  predicate Live(s: State, day: int) { day in s.redis && s.now < s.redis[day].expiresAt }

  function SetNx(s: State, day: int, candidate: string): State {
    if Live(s, day) then s else s.(redis := s.redis[day := Entry(candidate, s.now + SALT_TTL_MS)])
  }

  function SetPhase(s: State, f: nat, phase: Phase): State
    requires f < |s.fetches|
  {
    s.(fetches := s.fetches[f := s.fetches[f].(phase := phase)])
  }

  predicate Enabled(s: State, step: Step) {
    match step
    case GetDailySalt(_, _) => true
    case SetRuns(f) => f < |s.fetches| && s.fetches[f].phase.Setting?
    case SetFails(f, _) => f < |s.fetches| && s.fetches[f].phase.Setting?
    case LateSet(day, candidate) => (day, candidate) in s.late
    case GetRuns(f) => f < |s.fetches| && s.fetches[f].phase.Getting?
    case GetReturns(f) => f < |s.fetches| && s.fetches[f].phase.Read?
    case GetFails(f) => f < |s.fetches| && (s.fetches[f].phase.Getting? || s.fetches[f].phase.Read?)
    case Tick(_) => true
    case Lose(_) => true
  }

  /** The memo first; on a miss one new fetch, whose promise is remembered at once. */
  function Asked(s: State, process: nat, candidate: string): State {
    var day := DayOf(s.now);
    var memo := MemoOf(s, process);
    if day in memo.entries then s.(calls := s.calls + [Call(process, day, memo.entries[day])])
    else
      var f := |s.fetches|;
      s.(fetches := s.fetches + [Fetch(process, day, candidate, Setting)],
         calls := s.calls + [Call(process, day, f)],
         memos := s.memos[process := Remember(memo, day, f, SALT_MEMO_MAX_ENTRIES)])
  }

  function Apply(s: State, step: Step): State
    requires Enabled(s, step)
  {
    match step
    case GetDailySalt(process, candidate) => Asked(s, process, candidate)
    case SetRuns(f) => SetPhase(SetNx(s, s.fetches[f].day, s.fetches[f].candidate), f, Getting)
    case SetFails(f, mayLand) =>
      var fetch := s.fetches[f];
      SetPhase(if mayLand then s.(late := s.late + multiset{(fetch.day, fetch.candidate)})
        else s, f, Done(fetch.candidate, false, s.now))
    case LateSet(day, candidate) => SetNx(s, day, candidate).(late := s.late - multiset{(day, candidate)})
    case GetRuns(f) =>
      var day := s.fetches[f].day;
      SetPhase(s, f, Read(if Live(s, day) then Some(s.redis[day].value) else None, s.now))
    case GetReturns(f) =>
      var fetch := s.fetches[f];
      SetPhase(s, f, if fetch.phase.value.Some? then Done(fetch.phase.value.value, true, fetch.phase.readAt)
                     else Done(fetch.candidate, false, s.now))
    case GetFails(f) => SetPhase(s, f, Done(s.fetches[f].candidate, false, s.now))
    case Tick(ms) => s.(now := s.now + ms)
    case Lose(day) => s.(redis := s.redis - {day})
  }

  function Run(s: State, steps: seq<Step>): Option<State>
    decreases |steps|
  {
    if steps == [] then Some(s)
    else if !Enabled(s, steps[0]) then None
    else Run(Apply(s, steps[0]), steps[1..])
  }

  // ---------------------------------------------------------------------------------------------
  // One fetch
  // ---------------------------------------------------------------------------------------------

  /** Nothing but this fetch's phase has changed. */
  predicate OnlyMoves(s: State, t: State, f: nat)
    requires f < |s.fetches|
  {
    |t.fetches| == |s.fetches| && t == s.(fetches := s.fetches[f := s.fetches[f].(phase := t.fetches[f].phase)])
  }

  /**
   * A fetch never rejects, and either command may fail until it has answered. Whatever fails, its `SET` or
   * its `GET`, and also a `GET` that comes back empty, it returns its own candidate; otherwise it returns
   * what the `GET` has read.
   */
  lemma FetchesNeverReject(s: State, f: nat, mayLand: bool)
    ensures f < |s.fetches| ==>
      && (s.fetches[f].phase.Setting? <==> Enabled(s, SetRuns(f)))
      && (s.fetches[f].phase.Setting? <==> Enabled(s, SetFails(f, mayLand)))
      && (s.fetches[f].phase.Getting? <==> Enabled(s, GetRuns(f)))
      && (s.fetches[f].phase.Read? <==> Enabled(s, GetReturns(f)))
      && (Enabled(s, GetFails(f)) <==> Enabled(s, GetRuns(f)) || Enabled(s, GetReturns(f)))
    ensures Enabled(s, SetFails(f, mayLand)) ==>
      var t := Apply(s, SetFails(f, mayLand));
      && OnlyMoves(s, t.(late := s.late), f) && t.fetches[f].phase == Done(s.fetches[f].candidate, false, s.now)
      && t.late == s.late + if mayLand then multiset{(s.fetches[f].day, s.fetches[f].candidate)} else multiset{}
    ensures Enabled(s, GetFails(f)) ==>
      var t := Apply(s, GetFails(f));
      OnlyMoves(s, t, f) && t.fetches[f].phase == Done(s.fetches[f].candidate, false, s.now)
    ensures Enabled(s, GetReturns(f)) ==>
      var t, read := Apply(s, GetReturns(f)), s.fetches[f].phase;
      && OnlyMoves(s, t, f)
      && t.fetches[f].phase == if read.value.Some? then Done(read.value.value, true, read.readAt)
                               else Done(s.fetches[f].candidate, false, s.now)
  {
  }

  /**
   * Asking for the salt gives a promise at once: the one that the process remembers for the UTC day of the
   * moment, or that of one new fetch with a candidate of its own, remembered from then on.
   */
  lemma AskingGivesAPromise(s: State, process: nat, candidate: string)
    ensures var t, day := Apply(s, GetDailySalt(process, candidate)), s.now / 86_400_000;
            var memo := MemoOf(s, process).entries;
            && t == s.(calls := t.calls, fetches := t.fetches, memos := t.memos)
            && (day in memo ==>
                  && t.calls == s.calls + [Call(process, day, memo[day])]
                  && t.fetches == s.fetches && t.memos == s.memos)
            && (day !in memo ==>
                  && t.calls == s.calls + [Call(process, day, |s.fetches|)]
                  && t.fetches == s.fetches + [Fetch(process, day, candidate, Setting)]
                  && day in MemoOf(t, process).entries && MemoOf(t, process).entries[day] == |s.fetches|)
  {
    RemembersIt(MemoOf(s, process), DayOf(s.now), |s.fetches|, SALT_MEMO_MAX_ENTRIES);
    hide Remember;
  }

  /** A `SET` that takes effect late does so once, under the same conditions. */
  lemma LateSetsLandOnce(s: State, day: int, candidate: string)
    requires (day, candidate) in s.late
    ensures var t := Apply(s, LateSet(day, candidate));
            && t == s.(late := s.late - multiset{(day, candidate)}, redis := t.redis)
            && day in t.redis
            && t.redis[day] == if day in s.redis && s.now < s.redis[day].expiresAt then s.redis[day]
                               else Entry(candidate, s.now + 172_800_000)
  {
  }

  /** `SET ... EX 172800 NX` writes only where nothing is live, for two days; `GET` reads what is live. */
  lemma CommandsOfAFetch(s: State, f: nat)
    ensures Enabled(s, SetRuns(f)) ==>
      var t, day := Apply(s, SetRuns(f)), s.fetches[f].day;
      && OnlyMoves(s, t.(redis := s.redis), f) && t.fetches[f].phase == Getting
      && (forall d :: d != day ==> (d in t.redis <==> d in s.redis) && (d in s.redis ==> t.redis[d] == s.redis[d]))
      && day in t.redis
      && t.redis[day] == if day in s.redis && s.now < s.redis[day].expiresAt then s.redis[day]
                         else Entry(s.fetches[f].candidate, s.now + 172_800_000)
    ensures Enabled(s, GetRuns(f)) ==>
      var t, day := Apply(s, GetRuns(f)), s.fetches[f].day;
      && OnlyMoves(s, t, f)
      && t.fetches[f].phase == Read(if day in s.redis && s.now < s.redis[day].expiresAt then Some(s.redis[day].value)
                                    else None, s.now)
  {
  }

  // ---------------------------------------------------------------------------------------------
  // Agreement of all instances, exactly
  // ---------------------------------------------------------------------------------------------

  /** Answered by a `GET` that Redis executed before the end of the day after `day`. */
  predicate AnsweredInTime(f: Fetch, day: int) {
    f.day == day && f.phase.Done? && f.phase.byGet && f.phase.readAt < SafeUntil(day)
  }

  /** In this run Redis does not lose the day's key while its entry is still due. */
  ghost predicate KeyStays(s: State, steps: seq<Step>, day: int)
    requires Run(s, steps).Some?
    decreases |steps|
  {
    steps == []
    || ((steps[0] == Lose(day) ==> s.now >= SafeUntil(day)) && KeyStays(Apply(s, steps[0]), steps[1..], day))
  }

  predicate DoneIn(s: State, i: nat) { i < |s.fetches| && s.fetches[i].phase.Done? }

  /** From `s` to `t` every fetch of the day newly answered in time got `salt`; what was done stays done. */
  ghost predicate AddsOnly(s: State, t: State, day: int, salt: string) {
    && (forall i: nat :: DoneIn(s, i) ==> DoneIn(t, i) && t.fetches[i] == s.fetches[i])
    && (forall i: nat :: DoneIn(t, i) && !DoneIn(s, i) && AnsweredInTime(t.fetches[i], day) ==>
          t.fetches[i].phase.salt == salt)
  }

  ghost predicate AgreesFromNowOn(s: State, day: int, salt: string) {
    forall steps :: Run(s, steps).Some? && KeyStays(s, steps, day) ==> AddsOnly(s, Run(s, steps).value, day, salt)
  }

  /** Redis holds the salt for as long as the day's fetches may read it. */
  predicate Holds(s: State, day: int, salt: string) {
    s.now < SafeUntil(day) ==>
      day in s.redis && s.redis[day].value == salt && s.redis[day].expiresAt >= SafeUntil(day)
  }

  predicate Carries(f: Fetch, day: int, salt: string) {
    f.day == day && f.phase.Read? && f.phase.readAt < SafeUntil(day) && f.phase.value.Some? ==>
      f.phase.value.value == salt
  }

  /** Every reply on its way that holds a salt and was read in time holds this one. */
  ghost predicate RepliesCarry(s: State, day: int, salt: string) {
    forall i :: 0 <= i < |s.fetches| ==> Carries(s.fetches[i], day, salt)
  }

  lemma SetNxHolds(s: State, other: int, candidate: string, day: int, salt: string)
    requires Holds(s, day, salt)
    ensures Holds(SetNx(s, other, candidate), day, salt)
  {
  }

  /** A fetch moves on: nothing else can break the agreement. */
  lemma PhaseAdds(s: State, f: nat, phase: Phase, day: int, salt: string)
    requires f < |s.fetches| && !s.fetches[f].phase.Done? && RepliesCarry(s, day, salt)
    requires var g := s.fetches[f].(phase := phase);
             Carries(g, day, salt) && (AnsweredInTime(g, day) ==> phase.salt == salt)
    ensures RepliesCarry(SetPhase(s, f, phase), day, salt) && AddsOnly(s, SetPhase(s, f, phase), day, salt)
  {
  }

  lemma StepAgrees(s: State, step: Step, day: int, salt: string)
    requires Enabled(s, step) && Holds(s, day, salt) && RepliesCarry(s, day, salt)
    requires step == Lose(day) ==> s.now >= SafeUntil(day)
    ensures var t := Apply(s, step); Holds(t, day, salt) && RepliesCarry(t, day, salt) && AddsOnly(s, t, day, salt)
  {
    match step
    case SetRuns(f) => SetRunsAgrees(s, f, day, salt);
    case GetRuns(f) => GetRunsAgrees(s, f, day, salt);
    case GetReturns(f) => PhaseAdds(s, f, Apply(s, step).fetches[f].phase, day, salt);
    case SetFails(f, _) => PhaseAdds(s, f, Done(s.fetches[f].candidate, false, s.now), day, salt);
    case GetFails(f) => PhaseAdds(s, f, Done(s.fetches[f].candidate, false, s.now), day, salt);
    case _ => OtherStepAgrees(s, step, day, salt);
  }

  lemma SetRunsAgrees(s: State, f: nat, day: int, salt: string)
    requires Enabled(s, SetRuns(f)) && Holds(s, day, salt) && RepliesCarry(s, day, salt)
    ensures var t := Apply(s, SetRuns(f));
            Holds(t, day, salt) && RepliesCarry(t, day, salt) && AddsOnly(s, t, day, salt)
  {
    SetNxHolds(s, s.fetches[f].day, s.fetches[f].candidate, day, salt);
    PhaseAdds(SetNx(s, s.fetches[f].day, s.fetches[f].candidate), f, Getting, day, salt);
  }

  lemma GetRunsAgrees(s: State, f: nat, day: int, salt: string)
    requires Enabled(s, GetRuns(f)) && Holds(s, day, salt) && RepliesCarry(s, day, salt)
    ensures var t := Apply(s, GetRuns(f));
            Holds(t, day, salt) && RepliesCarry(t, day, salt) && AddsOnly(s, t, day, salt)
  {
    PhaseAdds(s, f, Apply(s, GetRuns(f)).fetches[f].phase, day, salt);
  }

  lemma OtherStepAgrees(s: State, step: Step, day: int, salt: string)
    requires step.GetDailySalt? || step.LateSet? || step.Tick? || step.Lose?
    requires Enabled(s, step) && Holds(s, day, salt) && RepliesCarry(s, day, salt)
    requires step == Lose(day) ==> s.now >= SafeUntil(day)
    ensures var t := Apply(s, step); Holds(t, day, salt) && RepliesCarry(t, day, salt) && AddsOnly(s, t, day, salt)
  {
    hide Remember;
    if step.LateSet? { SetNxHolds(s, step.day, step.candidate, day, salt); }
  }

  lemma {:induction false} RunAgrees(s: State, steps: seq<Step>, day: int, salt: string)
    requires Holds(s, day, salt) && RepliesCarry(s, day, salt) && Run(s, steps).Some? && KeyStays(s, steps, day)
    ensures AddsOnly(s, Run(s, steps).value, day, salt)
    decreases |steps|
  {
    if steps != [] {
      StepAgrees(s, steps[0], day, salt);
      RunAgrees(Apply(s, steps[0]), steps[1..], day, salt);
    }
  }

  /** What a new instance gets that asks now and whose `SET` runs `ms` later. */
  function Got(s: State, ms: nat, candidate: string): string {
    var later, day := s.(now := s.now + ms), DayOf(s.now);
    if Live(later, day) then s.redis[day].value else candidate
  }

  function Visit(process: nat, candidate: string, f: nat, ms: nat): seq<Step> {
    [GetDailySalt(process, candidate), Tick(ms), SetRuns(f), GetRuns(f), GetReturns(f)]
  }

  lemma NewInstance(s: State, ms: nat, candidate: string) returns (steps: seq<Step>, t: State)
    requires s.now + ms < SafeUntil(DayOf(s.now))
    ensures Run(s, steps) == Some(t) && KeyStays(s, steps, DayOf(s.now)) && t.now == s.now + ms
    ensures exists p ::
      t.fetches == s.fetches + [Fetch(p, DayOf(s.now), candidate, Done(Got(s, ms, candidate), true, t.now))]
  {
    var p := FreshNumber(s.memos.Keys);
    assert p !in s.memos;
    var f := |s.fetches|;
    steps := Visit(p, candidate, f, ms);
    var s1 := FirstCall(s, p, candidate);
    var s2 := Apply(s1, Tick(ms));
    var fetch := Fetch(p, DayOf(s.now), candidate, Setting);
    var got := Got(s, ms, candidate);
    SetAndGet(s2, f, fetch, got);
    var s3 := Apply(s2, SetRuns(f));
    var s4 := Apply(s3, GetRuns(f));
    t := Apply(s4, GetReturns(f));
    FiveSteps(s, GetDailySalt(p, candidate), Tick(ms), SetRuns(f), GetRuns(f), GetReturns(f), DayOf(s.now));
    assert t.fetches == s.fetches + [fetch.(phase := Done(got, true, t.now))];
  }

  lemma FirstCall(s: State, p: nat, candidate: string) returns (t: State)
    requires p !in s.memos
    ensures Enabled(s, GetDailySalt(p, candidate)) && t == Apply(s, GetDailySalt(p, candidate))
    ensures t.now == s.now && t.redis == s.redis
    ensures t.fetches == s.fetches + [Fetch(p, DayOf(s.now), candidate, Setting)]
  {
    hide Remember;
    t := Apply(s, GetDailySalt(p, candidate));
  }

  /** `SET` and `GET` of one fetch, one right after the other. */
  lemma SetAndGet(s: State, f: nat, fetch: Fetch, got: string)
    requires f < |s.fetches| && s.fetches[f] == fetch && fetch.phase == Setting
    requires got == if Live(s, fetch.day) then s.redis[fetch.day].value else fetch.candidate
    ensures Enabled(s, SetRuns(f)) && Enabled(Apply(s, SetRuns(f)), GetRuns(f))
    ensures Enabled(Apply(Apply(s, SetRuns(f)), GetRuns(f)), GetReturns(f))
    ensures var t := Apply(Apply(Apply(s, SetRuns(f)), GetRuns(f)), GetReturns(f));
            t.now == s.now && t.fetches == s.fetches[f := fetch.(phase := Done(got, true, s.now))]
  {
    var u := Apply(Apply(s, SetRuns(f)), GetRuns(f));
    assert u.fetches == s.fetches[f := fetch.(phase := Read(Some(got), s.now))];
  }

  lemma FiveSteps(s: State, a: Step, b: Step, c: Step, d: Step, e: Step, day: int)
    requires Enabled(s, a) && Enabled(Apply(s, a), b) && Enabled(Apply(Apply(s, a), b), c)
      && Enabled(Apply(Apply(Apply(s, a), b), c), d) && Enabled(Apply(Apply(Apply(Apply(s, a), b), c), d), e)
    requires !a.Lose? && !b.Lose? && !c.Lose? && !d.Lose? && !e.Lose?
    ensures Run(s, [a, b, c, d, e]) == Some(Apply(Apply(Apply(Apply(Apply(s, a), b), c), d), e))
    ensures KeyStays(s, [a, b, c, d, e], day)
  {
    hide Apply, Enabled;
    var s1 := Apply(s, a);
    var s2 := Apply(s1, b);
    var s3 := Apply(s2, c);
    var s4 := Apply(s3, d);
    NoStep(Apply(s4, e), day);
    OneStepMore(s4, e, [], day);
    OneStepMore(s3, d, [e], day);
    OneStepMore(s2, c, [d, e], day);
    OneStepMore(s1, b, [c, d, e], day);
    OneStepMore(s, a, [b, c, d, e], day);
    assert [a] + [b, c, d, e] == [a, b, c, d, e] && [b] + [c, d, e] == [b, c, d, e] && [c] + [d, e] == [c, d, e];
    assert [d] + [e] == [d, e] && [e] + [] == [e];
  }

  lemma NoStep(s: State, day: int)
    ensures Run(s, []) == Some(s) && KeyStays(s, [], day)
  {
  }

  lemma OneStepMore(s: State, step: Step, steps: seq<Step>, day: int)
    requires Enabled(s, step)
    ensures Run(s, [step] + steps) == Run(Apply(s, step), steps)
    ensures Run(Apply(s, step), steps).Some? && !step.Lose? ==>
              KeyStays(s, [step] + steps, day) == KeyStays(Apply(s, step), steps, day)
  {
    assert ([step] + steps)[1..] == steps;
  }

  /** If Redis does not hold the salt to the end, a new instance can get another one, now or on expiry. */
  lemma WithoutHoldNoAgreement(s: State, day: int, salt: string)
    requires DayOf(s.now) == day && !Holds(s, day, salt)
    ensures !AgreesFromNowOn(s, day, salt)
  {
    var other := salt + "+";
    var ms: nat := if Live(s, day) && s.redis[day].value == salt then s.redis[day].expiresAt - s.now else 0;
    var steps, t := NewInstance(s, ms, other);
    var i := |s.fetches|;
    assert Got(s, ms, other) != salt;
    assert DoneIn(t, i) && !DoneIn(s, i) && AnsweredInTime(t.fetches[i], day) && t.fetches[i].phase.salt != salt;
    assert !AddsOnly(s, Run(s, steps).value, day, salt);
  }

  lemma WithoutReplyNoAgreement(s: State, day: int, salt: string, i: nat)
    requires i < |s.fetches| && !Carries(s.fetches[i], day, salt)
    ensures !AgreesFromNowOn(s, day, salt)
  {
    var step := GetReturns(i);
    var t := Apply(s, step);
    NoStep(t, day);
    OneStepMore(s, step, [], day);
    assert [step] + [] == [step];
    assert DoneIn(t, i) && !DoneIn(s, i) && AnsweredInTime(t.fetches[i], day) && t.fetches[i].phase.salt != salt;
    assert !AddsOnly(s, Run(s, [step]).value, day, salt);
  }

  /**
   * On any day, from any state: all fetches of the day that any number of instances have answered by a
   * timely `GET` from now on get this salt, however else they fail, if and only if Redis holds it to
   * the end of the next day and every timely reply already under way carries it.
   */
  lemma AgreementIsExact(s: State, day: int, salt: string)
    requires DayOf(s.now) == day
    ensures AgreesFromNowOn(s, day, salt) <==> Holds(s, day, salt) && RepliesCarry(s, day, salt)
  {
    if Holds(s, day, salt) && RepliesCarry(s, day, salt) {
      forall steps | Run(s, steps).Some? && KeyStays(s, steps, day)
        ensures AddsOnly(s, Run(s, steps).value, day, salt)
      {
        RunAgrees(s, steps, day, salt);
      }
    } else if !Holds(s, day, salt) {
      WithoutHoldNoAgreement(s, day, salt);
    } else {
      var i :| 0 <= i < |s.fetches| && !Carries(s.fetches[i], day, salt);
      WithoutReplyNoAgreement(s, day, salt, i);
    }
  }

  /** Once the key is lost within the day, no salt is agreed on any more. */
  lemma LossEndsAgreement(s: State, day: int, salt: string)
    requires DayOf(s.now) == day
    ensures !AgreesFromNowOn(Apply(s, Lose(day)), day, salt)
  {
    AgreementIsExact(Apply(s, Lose(day)), day, salt);
  }

  /**
   * On every day and in every state: two new instances can end up with different salts if Redis loses
   * the key between them.
   */
  lemma LosingTheKeySplitsTheDay(s: State, day: int)
    requires DayOf(s.now) == day
    ensures exists before, after, i: nat, j: nat ::
      && Run(s, before + [Lose(day)] + after).Some?
      && var t := Run(s, before + [Lose(day)] + after).value;
         && |s.fetches| <= i < j < |t.fetches| && AnsweredInTime(t.fetches[i], day) && AnsweredInTime(t.fetches[j], day)
         && t.fetches[i].phase.salt != t.fetches[j].phase.salt
  {
    var before, u := NewInstance(s, 0, "");
    var i := |s.fetches|;
    var salt := u.fetches[i].phase.salt;
    var v := AfterLoss(u, day);
    var after, t := NewInstance(v, 0, salt + "+");
    hide Run, KeyStays, Apply, Enabled, DayOf, Got;
    OneStepMore(u, Lose(day), after, day);
    RunJoins(s, before, [Lose(day)] + after);
    assert before + [Lose(day)] + after == before + ([Lose(day)] + after);
    assert t.fetches[i] == u.fetches[i] && t.fetches[i + 1].phase.salt == salt + "+";
  }

  lemma AfterLoss(s: State, day: int) returns (t: State)
    ensures Enabled(s, Lose(day)) && t == Apply(s, Lose(day))
    ensures t.now == s.now && t.fetches == s.fetches && !Live(t, day)
  {
    t := Apply(s, Lose(day));
  }

  lemma {:induction false} RunJoins(s: State, a: seq<Step>, b: seq<Step>)
    requires Run(s, a).Some?
    ensures Run(s, a + b) == Run(Run(s, a).value, b)
    decreases |a|
  {
    hide Enabled, Apply;
    if a == [] {
      assert a + b == b;
    } else {
      assert (a + b)[1..] == a[1..] + b;
      RunJoins(Apply(s, a[0]), a[1..], b);
    }
  }

  // ---------------------------------------------------------------------------------------------
  // Runs from the start
  // ---------------------------------------------------------------------------------------------

  /** No `SET` for a day runs before the day, so no entry expires before the next day is over. */
  ghost predicate EntriesLast(s: State) {
    && (forall day :: day in s.redis ==> s.redis[day].expiresAt >= SafeUntil(day))
    && (forall i :: 0 <= i < |s.fetches| ==> s.fetches[i].day * MS_PER_DAY <= s.now)
    && (forall l :: l in s.late ==> l.0 * MS_PER_DAY <= s.now)
  }

  lemma StepLasts(s: State, step: Step)
    requires EntriesLast(s) && Enabled(s, step)
    ensures EntriesLast(Apply(s, step))
  {
    hide EntriesLast;
    match step
    case GetDailySalt(process, candidate) => AskedLasts(s, process, candidate);
    case SetRuns(f) =>
      SetNxLasts(s, f);
      PhaseLasts(SetNx(s, s.fetches[f].day, s.fetches[f].candidate), f, Getting);
    case SetFails(f, mayLand) => SetFailsLasts(s, f, mayLand);
    case LateSet(day, candidate) => LateSetLasts(s, day, candidate);
    case Tick(ms) => TickLasts(s, ms);
    case Lose(day) => LoseLasts(s, day);
    case _ => PhaseLasts(s, step.fetch, Apply(s, step).fetches[step.fetch].phase);
  }

  lemma AskedLasts(s: State, process: nat, candidate: string)
    requires EntriesLast(s)
    ensures EntriesLast(Asked(s, process, candidate))
  {
    hide Remember;
  }

  lemma SetNxLasts(s: State, f: nat)
    requires EntriesLast(s) && f < |s.fetches|
    ensures EntriesLast(SetNx(s, s.fetches[f].day, s.fetches[f].candidate))
  {
  }

  lemma PhaseLasts(s: State, f: nat, phase: Phase)
    requires EntriesLast(s) && f < |s.fetches|
    ensures EntriesLast(SetPhase(s, f, phase))
  {
  }

  lemma SetFailsLasts(s: State, f: nat, mayLand: bool)
    requires EntriesLast(s) && Enabled(s, SetFails(f, mayLand))
    ensures EntriesLast(Apply(s, SetFails(f, mayLand)))
  {
    var fetch := s.fetches[f];
    var t := if mayLand then s.(late := s.late + multiset{(fetch.day, fetch.candidate)}) else s;
    PhaseLasts(t, f, Done(fetch.candidate, false, s.now));
  }

  lemma LateSetLasts(s: State, day: int, candidate: string)
    requires EntriesLast(s) && (day, candidate) in s.late
    ensures EntriesLast(Apply(s, LateSet(day, candidate)))
  {
  }

  lemma TickLasts(s: State, ms: nat)
    requires EntriesLast(s)
    ensures EntriesLast(Apply(s, Tick(ms)))
  {
  }

  lemma LoseLasts(s: State, day: int)
    requires EntriesLast(s)
    ensures EntriesLast(Apply(s, Lose(day)))
  {
  }

  /** Nobody has set the day's key, so nobody has read it. */
  ghost predicate Unset(s: State, day: int) {
    && day !in s.redis
    && forall i :: 0 <= i < |s.fetches| ==> NeverRead(s.fetches[i], day)
  }

  predicate Agrees(f: Fetch, day: int, salt: string) {
    && (AnsweredInTime(f, day) ==> f.phase.salt == salt)
    && (f.day == day && f.phase.Read? && f.phase.readAt < SafeUntil(day) ==> f.phase.value == Some(salt))
  }

  ghost predicate OneSalt(s: State, day: int, salt: string) {
    Holds(s, day, salt) && forall i :: 0 <= i < |s.fetches| ==> Agrees(s.fetches[i], day, salt)
  }

  ghost predicate Agreed(s: State, day: int) { Unset(s, day) || exists salt :: OneSalt(s, day, salt) }

  lemma OneSaltStays(s: State, step: Step, day: int, salt: string)
    requires OneSalt(s, day, salt) && Enabled(s, step) && (step == Lose(day) ==> s.now >= SafeUntil(day))
    ensures OneSalt(Apply(s, step), day, salt)
  {
    assert Holds(s, day, salt) && RepliesCarry(s, day, salt);
    hide Apply, Enabled, Holds, SafeUntil, RepliesCarry;
    StepAgrees(s, step, day, salt);
    var t := Apply(s, step);
    hide AddsOnly, Agrees;
    forall i | 0 <= i < |t.fetches| ensures Agrees(t.fetches[i], day, salt) {
      if i < |s.fetches| && step == GetRuns(i) {
        ReadsHeld(s, i, day, salt);
      } else {
        ReadBefore(s, step, i);
        StillAgrees(s, t, i, day, salt);
      }
    }
  }

  lemma StillAgrees(s: State, t: State, i: nat, day: int, salt: string)
    requires AddsOnly(s, t, day, salt) && i < |t.fetches| && (i < |s.fetches| ==> Agrees(s.fetches[i], day, salt))
    requires t.fetches[i].phase.Read? ==> i < |s.fetches| && t.fetches[i] == s.fetches[i]
    ensures Agrees(t.fetches[i], day, salt)
  {
  }

  lemma ReadsHeld(s: State, f: nat, day: int, salt: string)
    requires Holds(s, day, salt) && Enabled(s, GetRuns(f))
    ensures Agrees(Apply(s, GetRuns(f)).fetches[f], day, salt)
  {
  }

  /** A reply under way was under way before, unless the step is its `GET`. */
  lemma ReadBefore(s: State, step: Step, i: nat)
    requires Enabled(s, step) && step != GetRuns(i) && i < |Apply(s, step).fetches|
    ensures var g := Apply(s, step).fetches[i]; g.phase.Read? ==> i < |s.fetches| && g == s.fetches[i]
  {
    if step.GetDailySalt? {
      NewFetchSets(s, step.process, step.candidate, i);
    } else {
      OldFetchMoves(s, step, i);
    }
  }

  lemma NewFetchSets(s: State, process: nat, candidate: string, i: nat)
    requires i < |Asked(s, process, candidate).fetches|
    ensures var g := Asked(s, process, candidate).fetches[i];
            g.phase.Setting? || (i < |s.fetches| && g == s.fetches[i])
  {
    hide Remember;
  }

  lemma OldFetchMoves(s: State, step: Step, i: nat)
    requires Enabled(s, step) && !step.GetDailySalt? && step != GetRuns(i) && i < |Apply(s, step).fetches|
    ensures i < |s.fetches|
    ensures var g := Apply(s, step).fetches[i]; g == s.fetches[i] || g.phase.Getting? || g.phase.Done?
  {
    hide Asked, Live, SafeUntil, SetNx;
    match step
    case SetRuns(f) => SetNxLeavesFetches(s, s.fetches[f].day, s.fetches[f].candidate);
    case LateSet(day, candidate) => SetNxLeavesFetches(s, day, candidate);
    case GetReturns(f) => assert i != f ==> Apply(s, step).fetches[i] == s.fetches[i];
    case _ =>
  }

  lemma SetNxLeavesFetches(s: State, day: int, candidate: string)
    ensures SetNx(s, day, candidate).fetches == s.fetches
  {
  }

  /** The first `SET` of the day to take effect decides. */
  lemma FirstSetDecides(s: State, day: int, candidate: string)
    requires Unset(s, day) && day * MS_PER_DAY <= s.now
    ensures OneSalt(SetNx(s, day, candidate), day, candidate)
  {
  }

  lemma PhaseKeepsSalt(s: State, f: nat, phase: Phase, day: int, salt: string)
    requires OneSalt(s, day, salt) && f < |s.fetches| && Agrees(s.fetches[f].(phase := phase), day, salt)
    ensures OneSalt(SetPhase(s, f, phase), day, salt)
  {
  }

  lemma UnsetOrDecided(s: State, step: Step, day: int)
    requires Unset(s, day) && EntriesLast(s) && Enabled(s, step)
    ensures Agreed(Apply(s, step), day)
  {
    var t := Apply(s, step);
    if step.SetRuns? && s.fetches[step.fetch].day == day {
      var candidate := s.fetches[step.fetch].candidate;
      FirstSetDecides(s, day, candidate);
      PhaseKeepsSalt(SetNx(s, day, candidate), step.fetch, Getting, day, candidate);
    } else if step.LateSet? && step.day == day {
      FirstSetDecides(s, day, step.candidate);
      assert OneSalt(t, day, step.candidate);
    } else {
      StaysUnset(s, step, day);
    }
  }

  lemma StaysUnset(s: State, step: Step, day: int)
    requires Unset(s, day) && Enabled(s, step)
    requires step.SetRuns? ==> s.fetches[step.fetch].day != day
    requires step.LateSet? ==> step.day != day
    ensures Unset(Apply(s, step), day)
  {
    NoKeyStays(s, step, day);
    hide Enabled, Apply;
    forall i | 0 <= i < |Apply(s, step).fetches| ensures NeverRead(Apply(s, step).fetches[i], day) {
      if step.GetDailySalt? {
        AskedNeverRead(s, step, i);
      } else {
        MovesUnread(s, step, day, i);
      }
    }
  }

  predicate NeverRead(f: Fetch, day: int) {
    f.day == day ==> f.phase.Setting? || (f.phase.Done? && !f.phase.byGet)
  }

  lemma AskedNeverRead(s: State, step: Step, i: nat)
    requires step.GetDailySalt? && Enabled(s, step) && i < |Apply(s, step).fetches|
    ensures var g := Apply(s, step).fetches[i]; g.phase.Setting? || (i < |s.fetches| && g == s.fetches[i])
  {
    hide Remember;
    NewFetchSets(s, step.process, step.candidate, i);
  }

  lemma MovesUnread(s: State, step: Step, day: int, i: nat)
    requires Enabled(s, step) && !step.GetDailySalt? && i < |Apply(s, step).fetches|
    requires i < |s.fetches| ==> NeverRead(s.fetches[i], day)
    requires step.SetRuns? ==> s.fetches[step.fetch].day != day
    ensures i < |s.fetches| && NeverRead(Apply(s, step).fetches[i], day)
  {
    hide Live, SetNx, DayOf, SafeUntil;
    match step
    case SetRuns(f) => SetNxLeavesFetches(s, s.fetches[f].day, s.fetches[f].candidate);
    case LateSet(other, candidate) => SetNxLeavesFetches(s, other, candidate);
    case _ =>
  }

  lemma NoKeyStays(s: State, step: Step, day: int)
    requires day !in s.redis && Enabled(s, step)
    requires step.SetRuns? ==> s.fetches[step.fetch].day != day
    requires step.LateSet? ==> step.day != day
    ensures day !in Apply(s, step).redis
  {
    hide Remember, Live, DayOf;
  }

  lemma {:induction false} RunKeeps(s: State, steps: seq<Step>, day: int)
    requires Agreed(s, day) && EntriesLast(s) && Run(s, steps).Some? && KeyStays(s, steps, day)
    ensures Agreed(Run(s, steps).value, day)
    decreases |steps|
  {
    if steps != [] {
      StepLasts(s, steps[0]);
      if Unset(s, day) {
        UnsetOrDecided(s, steps[0], day);
      } else {
        var salt :| OneSalt(s, day, salt);
        OneSaltStays(s, steps[0], day, salt);
      }
      RunKeeps(Apply(s, steps[0]), steps[1..], day);
    }
  }

  /**
   * Any number of instances, failing as they like, with Redis losing any keys except this day's before
   * its time: all fetches for the day that are answered by a `GET` within that day or the next return
   * the same salt, and in that time a `GET` after a `SET` never comes back empty.
   */
  lemma InstancesAgree(start: int, steps: seq<Step>, day: int, i: nat, j: nat)
    requires Run(Init(start), steps).Some? && KeyStays(Init(start), steps, day)
    requires var s := Run(Init(start), steps).value; i < |s.fetches| && j < |s.fetches|
    ensures var s := Run(Init(start), steps).value;
            && (AnsweredInTime(s.fetches[i], day) && AnsweredInTime(s.fetches[j], day) ==>
                  s.fetches[i].phase.salt == s.fetches[j].phase.salt)
            && (s.fetches[i].day == day && s.fetches[i].phase.Read? && s.fetches[i].phase.readAt < SafeUntil(day) ==>
                  s.fetches[i].phase.value.Some?)
  {
    assert Unset(Init(start), day);
    RunKeeps(Init(start), steps, day);
    var s := Run(Init(start), steps).value;
    if !Unset(s, day) {
      var salt :| OneSalt(s, day, salt);
      assert Agrees(s.fetches[i], day, salt) && Agrees(s.fetches[j], day, salt);
    }
  }

  lemma {:induction false} RunLasts(s: State, steps: seq<Step>)
    requires EntriesLast(s) && Run(s, steps).Some?
    ensures EntriesLast(Run(s, steps).value)
    decreases |steps|
  {
    if steps != [] {
      StepLasts(s, steps[0]);
      RunLasts(Apply(s, steps[0]), steps[1..]);
    }
  }

  /** In every state that a run can reach, whatever Redis lost: a live entry is held long enough. */
  lemma AgreementWhenReached(start: int, steps: seq<Step>, day: int, salt: string)
    requires Run(Init(start), steps).Some? && DayOf(Run(Init(start), steps).value.now) == day
    ensures var s := Run(Init(start), steps).value;
            AgreesFromNowOn(s, day, salt) <==>
              Live(s, day) && s.redis[day].value == salt && RepliesCarry(s, day, salt)
  {
    var s := Run(Init(start), steps).value;
    RunLasts(Init(start), steps);
    AgreementIsExact(s, day, salt);
  }

  // ---------------------------------------------------------------------------------------------
  // One process
  // ---------------------------------------------------------------------------------------------

  ghost predicate Increasing(days: seq<int>) {
    forall i, j :: 0 <= i < j < |days| ==> days[i] < days[j]
  }

  lemma IncreasingWith(days: seq<int>, day: int)
    requires Increasing(days) && forall d :: d in days ==> d < day
    ensures Increasing(days + [day])
    ensures days != [] ==> Increasing(days[1..] + [day])
  {
    assert forall i :: 0 <= i < |days| ==> days[i] in days;
  }

  ghost predicate Shaped(memo: Memo<int, nat>, today: int) {
    && memo.Valid() && |memo.entries| <= SALT_MEMO_MAX_ENTRIES && Increasing(memo.order)
    && forall d :: d in memo.entries ==> d <= today
  }

  ghost predicate PointsAtFetches(memo: Memo<int, nat>, fetches: seq<Fetch>, p: nat) {
    forall d :: d in memo.entries ==>
      memo.entries[d] < |fetches| && fetches[memo.entries[d]].process == p && fetches[memo.entries[d]].day == d
  }

  ghost predicate HoldsNewest(memo: Memo<int, nat>, fetches: seq<Fetch>, p: nat) {
    forall i :: 0 <= i < |fetches| && fetches[i].process == p ==>
      fetches[i].day in memo.entries || (memo.order != [] && fetches[i].day < memo.order[0])
  }

  /** The memo holds the newest fetched days, at most two, each with the number of its fetch. */
  ghost predicate MemoOk(s: State, p: nat) {
    var memo := MemoOf(s, p);
    Shaped(memo, DayOf(s.now)) && PointsAtFetches(memo, s.fetches, p) && HoldsNewest(memo, s.fetches, p)
  }

  /** A process fetches each day at most once, hence sends at most one `SET` for it. */
  ghost predicate OneFetchADay(s: State, p: nat) {
    forall i, j :: 0 <= i < j < |s.fetches| && s.fetches[i].process == p && s.fetches[j].process == p ==>
      s.fetches[i].day != s.fetches[j].day
  }

  /** Every call got the promise of its process's fetch for its day. */
  ghost predicate CallsOk(s: State, p: nat) {
    forall k :: 0 <= k < |s.calls| && s.calls[k].process == p ==>
      s.calls[k].fetch < |s.fetches| && s.fetches[s.calls[k].fetch].process == p
        && s.fetches[s.calls[k].fetch].day == s.calls[k].day
  }

  ghost predicate ProcessOk(s: State, p: nat) { MemoOk(s, p) && OneFetchADay(s, p) && CallsOk(s, p) }

  /** A day that is not in the memo was not fetched before: the clock has moved past all fetched days. */
  lemma MissMeansNewDay(s: State, p: nat)
    requires MemoOk(s, p) && DayOf(s.now) !in MemoOf(s, p).entries
    ensures forall i :: 0 <= i < |s.fetches| && s.fetches[i].process == p ==> s.fetches[i].day < DayOf(s.now)
    ensures forall d :: d in MemoOf(s, p).order ==> d < DayOf(s.now)
  {
    var memo := MemoOf(s, p);
    assert memo.order != [] ==> memo.order[0] in memo.entries;
  }

  lemma AskedKeepsMemo(s: State, p: nat, candidate: string)
    requires MemoOk(s, p) && DayOf(s.now) !in MemoOf(s, p).entries
    ensures MemoOk(Asked(s, p, candidate), p)
  {
    MissMeansNewDay(s, p);
    Remembers(MemoOf(s, p), s.fetches, p, DayOf(s.now), candidate);
  }

  lemma Remembers(memo: Memo<int, nat>, fetches: seq<Fetch>, p: nat, day: int, candidate: string)
    requires Shaped(memo, day) && PointsAtFetches(memo, fetches, p) && HoldsNewest(memo, fetches, p)
      && day !in memo.entries
    requires forall i :: 0 <= i < |fetches| && fetches[i].process == p ==> fetches[i].day < day
    requires forall d :: d in memo.order ==> d < day
    ensures var after, more := Remember(memo, day, |fetches|, SALT_MEMO_MAX_ENTRIES),
      fetches + [Fetch(p, day, candidate, Setting)];
            Shaped(after, day) && PointsAtFetches(after, more, p) && HoldsNewest(after, more, p)
  {
    hide Remember, Increasing;
    var f: nat := |fetches|;
    RememberKeepsValid(memo, day, f, SALT_MEMO_MAX_ENTRIES);
    RememberKeepsCap(memo, day, f, SALT_MEMO_MAX_ENTRIES);
    RememberMeaning(memo, day, f, SALT_MEMO_MAX_ENTRIES);
    RememberOrder(memo, day, f, SALT_MEMO_MAX_ENTRIES);
    NewMemoOk(memo, Remember(memo, day, f, SALT_MEMO_MAX_ENTRIES), fetches, p, day, candidate);
  }

  lemma NewMemoOk(memo: Memo<int, nat>, after: Memo<int, nat>, fetches: seq<Fetch>, p: nat, day: int, candidate: string)
    requires Shaped(memo, day) && PointsAtFetches(memo, fetches, p) && HoldsNewest(memo, fetches, p)
    requires forall i :: 0 <= i < |fetches| && fetches[i].process == p ==> fetches[i].day < day
    requires forall d :: d in memo.order ==> d < day
    requires after.Valid() && |after.entries| <= SALT_MEMO_MAX_ENTRIES
    requires after.order == memo.order + [day] || (memo.order != [] && after.order == memo.order[1..] + [day])
    requires day in after.entries && after.entries[day] == |fetches|
    requires forall d :: d in after.entries && d != day ==> d in memo.entries && after.entries[d] == memo.entries[d]
    ensures Shaped(after, day) && PointsAtFetches(after, fetches + [Fetch(p, day, candidate, Setting)], p)
    ensures HoldsNewest(after, fetches + [Fetch(p, day, candidate, Setting)], p)
  {
    IncreasingWith(memo.order, day);
    EntriesCovered(fetches, memo, after, p, day, candidate);
    hide HoldsNewest, PointsAtFetches, Shaped, Increasing, Memo.Valid;
    NewMemoPoints(memo, after, fetches, p, day, candidate);
    NewMemoShaped(memo, after, day);
  }

  lemma NewMemoPoints(memo: Memo<int, nat>, after: Memo<int, nat>, fetches: seq<Fetch>, p: nat, day: int,
      candidate: string)
    requires PointsAtFetches(memo, fetches, p) && day in after.entries && after.entries[day] == |fetches|
    requires forall d :: d in after.entries && d != day ==> d in memo.entries && after.entries[d] == memo.entries[d]
    ensures PointsAtFetches(after, fetches + [Fetch(p, day, candidate, Setting)], p)
  {
  }

  lemma NewMemoShaped(memo: Memo<int, nat>, after: Memo<int, nat>, day: int)
    requires Shaped(memo, day) && after.Valid() && |after.entries| <= SALT_MEMO_MAX_ENTRIES && Increasing(after.order)
    requires forall d :: d in after.entries && d != day ==> d in memo.entries
    ensures Shaped(after, day)
  {
  }

  /** Every day fetched so far is in the new memo or older than all of it. */
  lemma EntriesCovered(fetches: seq<Fetch>, memo: Memo<int, nat>, after: Memo<int, nat>, p: nat, day: int,
      candidate: string)
    requires memo.Valid() && after.Valid() && Increasing(memo.order) && HoldsNewest(memo, fetches, p)
    requires after.order == memo.order + [day] || (memo.order != [] && after.order == memo.order[1..] + [day])
    requires forall i :: 0 <= i < |fetches| && fetches[i].process == p ==> fetches[i].day < day
    ensures HoldsNewest(after, fetches + [Fetch(p, day, candidate, Setting)], p)
  {
    var more := fetches + [Fetch(p, day, candidate, Setting)];
    assert after.order[|after.order| - 1] == day;
    forall i | 0 <= i < |more| && more[i].process == p
      ensures more[i].day in after.entries || (after.order != [] && more[i].day < after.order[0])
    {
      if i < |fetches| && more[i].day !in after.entries {
        assert more[i] == fetches[i];
        OlderThanTheRest(memo, after, day, more[i].day);
      }
    }
  }

  lemma OlderThanTheRest(memo: Memo<int, nat>, after: Memo<int, nat>, day: int, d: int)
    requires memo.Valid() && after.Valid() && d < day && d !in after.entries
    requires Increasing(memo.order)
    requires d in memo.entries || (memo.order != [] && d < memo.order[0])
    requires after.order == memo.order + [day] || (memo.order != [] && after.order == memo.order[1..] + [day])
    ensures d < after.order[0]
  {
    assert d in memo.entries ==> d in memo.order;
    assert d !in after.order;
    if after.order == memo.order + [day] {
      assert forall x :: x in memo.order ==> x in after.order;
    } else {
      assert memo.order == [memo.order[0]] + memo.order[1..];
      assert forall x :: x in memo.order[1..] ==> x in after.order;
      assert |memo.order| > 1 ==> memo.order[1..][0] == memo.order[1];
    }
  }

  lemma AskedKeepsProcess(s: State, q: nat, candidate: string, p: nat)
    requires ProcessOk(s, p)
    ensures ProcessOk(Asked(s, q, candidate), p)
  {
    var t := Asked(s, q, candidate);
    if DayOf(s.now) in MemoOf(s, q).entries {
      HitKeepsProcess(s, q, candidate, p);
    } else if p == q {
      AskedKeepsMemo(s, p, candidate);
      MissKeepsOwn(s, p, candidate);
    } else {
      MissElsewhere(s, q, candidate, p);
    }
  }

  lemma HitKeepsProcess(s: State, q: nat, candidate: string, p: nat)
    requires ProcessOk(s, p) && DayOf(s.now) in MemoOf(s, q).entries
    ensures ProcessOk(Asked(s, q, candidate), p)
  {
    assert MemoOf(Asked(s, q, candidate), p) == MemoOf(s, p);
  }

  lemma MissKeepsOwn(s: State, p: nat, candidate: string)
    requires ProcessOk(s, p) && DayOf(s.now) !in MemoOf(s, p).entries
    ensures OneFetchADay(Asked(s, p, candidate), p) && CallsOk(Asked(s, p, candidate), p)
  {
    MissMeansNewDay(s, p);
    var t := Asked(s, p, candidate);
    assert t.fetches == s.fetches + [Fetch(p, DayOf(s.now), candidate, Setting)];
  }

  lemma MissElsewhere(s: State, q: nat, candidate: string, p: nat)
    requires ProcessOk(s, p) && DayOf(s.now) !in MemoOf(s, q).entries && p != q
    ensures ProcessOk(Asked(s, q, candidate), p)
  {
    hide Remember, Increasing, DayOf, Memo.Valid;
    var t := Asked(s, q, candidate);
    assert MemoOf(t, p) == MemoOf(s, p);
    assert t.fetches == s.fetches + [Fetch(q, DayOf(s.now), candidate, Setting)];
  }

  /** Steps other than a call leave the memos and the calls alone and each fetch with its process and day. */
  lemma OthersKeepProcess(s: State, t: State, p: nat)
    requires ProcessOk(s, p) && s.now <= t.now && t.memos == s.memos && t.calls == s.calls && |t.fetches| == |s.fetches|
    requires forall i :: 0 <= i < |s.fetches| ==>
      t.fetches[i].process == s.fetches[i].process && t.fetches[i].day == s.fetches[i].day
    ensures ProcessOk(t, p)
  {
    assert DayOf(s.now) <= DayOf(t.now);
  }

  lemma {:induction false} RunKeepsProcess(s: State, steps: seq<Step>, p: nat)
    requires ProcessOk(s, p) && Run(s, steps).Some?
    ensures ProcessOk(Run(s, steps).value, p)
    decreases |steps|
  {
    if steps != [] {
      hide ProcessOk;
      StepKeepsProcess(s, steps[0], p);
      RunKeepsProcess(Apply(s, steps[0]), steps[1..], p);
    }
  }

  lemma StepKeepsProcess(s: State, step: Step, p: nat)
    requires ProcessOk(s, p) && Enabled(s, step)
    ensures ProcessOk(Apply(s, step), p)
  {
    hide MemoOk, OneFetchADay, CallsOk;
    if step.GetDailySalt? {
      AskedKeepsProcess(s, step.process, step.candidate, p);
    } else {
      OthersKeepProcess(s, Apply(s, step), p);
    }
  }

  /**
   * One process returns one salt a day, whatever fails: all its calls on a day get the same promise,
   * it sends at most one `SET` a day, and its memo never has more than two days.
   */
  lemma OneSaltADayPerProcess(start: int, steps: seq<Step>, p: nat, k: nat, l: nat)
    requires Run(Init(start), steps).Some?
    requires var s := Run(Init(start), steps).value;
             k < |s.calls| && l < |s.calls| && s.calls[k].process == p && s.calls[l].process == p
               && s.calls[k].day == s.calls[l].day
    ensures var s := Run(Init(start), steps).value;
            && s.calls[k].fetch == s.calls[l].fetch
            && OneFetchADay(s, p)
            && |MemoOf(s, p).entries| <= SALT_MEMO_MAX_ENTRIES
  {
    RunKeepsProcess(Init(start), steps, p);
  }
}
