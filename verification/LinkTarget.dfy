/**
 * apps/api/src/redirect/middleware.ts, `handleLinkTarget`: resolve, validate, redirect, then capture.
 *
 * The two lookups may reject, and the capture may fail anywhere between the response and the queue.
 */
module LinkTarget {
  import opened Prelude
  import opened Utf16
  import opened HeaderEncoding
  import opened HeaderTheorems
  import opened CacheLadder
  import opened CacheTheorems

  datatype Lookup<T> = Found(value: T) | Absent | Rejects

  /** How far the capture gets after the response; the salt's promise never rejects. */
  datatype Capture = FailsAtOnce | FailsAfterSalt | Captured

  /** What the request will meet: the answers of both ladders, and how far the capture gets. */
  datatype Circumstances = Circumstances(tenant: Lookup<string>, link: Lookup<CachedLink>, capture: Capture)

  datatype Effect =
    | AwaitedTenant
    | AwaitedLink
    | AnsweredNotFound
    | AnsweredRedirect(location: Text)
    | AwaitedSalt
    | Enqueued(tenantId: string, linkId: string)

  predicate IsAnswer(e: Effect) { e.AnsweredNotFound? || e.AnsweredRedirect? }

  /** The `Location` that a resolved link leads to: validated first, then encoded. */
  function LocationOf(format: LinkFormat, link: CachedLink): Option<Text> {
    match format.normalize(link.destination)
    case None => None
    case Some(d) => Encode(d)
  }

  /** The location when everything resolves. */
  function Target(format: LinkFormat, c: Circumstances): Option<Text> {
    if c.tenant.Found? && c.link.Found? then LocationOf(format, c.link.value) else None
  }

  /** Everything the request does, in order. */
  function Effects(format: LinkFormat, c: Circumstances): seq<Effect> {
    [AwaitedTenant] + (if c.tenant.Found? then [AwaitedLink] else []) +
    match Target(format, c)
    case None => [AnsweredNotFound]
    case Some(location) =>
      [AnsweredRedirect(location)]
      + (if c.capture == FailsAtOnce then [] else [AwaitedSalt])
      + (if c.capture == Captured then [Enqueued(c.tenant.value, c.link.value.linkId)] else [])
  }

  class Handler {
    const format: LinkFormat
    var effects: seq<Effect>

    constructor (format: LinkFormat)
      ensures this.format == format && effects == []
    {
      this.format := format;
      effects := [];
    }

    method SendNotFound(res: Response)
      modifies this`effects, res
      ensures effects == old(effects) + [AnsweredNotFound]
      ensures res.status == Some(404) && res.cacheControl == Some("no-store") && res.ended
        && res.location == old(res.location)
    {
      res.cacheControl := Some("no-store");
      res.status := Some(404);
      res.ended := true;
      effects := effects + [AnsweredNotFound];
    }

    method HandleLinkTarget(c: Circumstances, res: Response)
      requires !res.ended
      modifies this`effects, res
      ensures effects == old(effects) + Effects(format, c)
      ensures res.ended && res.cacheControl == Some("no-store")
      ensures res.location == if Target(format, c).Some? then Target(format, c) else old(res.location)
      ensures res.status == Some(if Target(format, c).Some? then 307 else 404)
    {
      effects := effects + [AwaitedTenant];
      if !c.tenant.Found? {
        SendNotFound(res);
        return;
      }
      effects := effects + [AwaitedLink];
      if !c.link.Found? {
        SendNotFound(res);
        return;
      }
      var checked := format.normalize(c.link.value.destination);
      if checked.None? {
        SendNotFound(res);
        return;
      }
      var redirected := SendLinkRedirect(res, checked.value);
      NullExactlyOnLoneSurrogates(checked.value);
      if !redirected {
        SendNotFound(res);
        return;
      }
      effects := effects + [AnsweredRedirect(res.location.value)];
      if c.capture == FailsAtOnce {
        return;
      }
      effects := effects + [AwaitedSalt];
      if c.capture == Captured {
        effects := effects + [Enqueued(c.tenant.value, c.link.value.linkId)];
      }
    }
  }

  /**
   * Every request is answered exactly once, by a redirect if and only if there is a location. A redirect
   * never waits for analytics: only the two lookups come before the answer. And only a redirect is
   * captured: an event is enqueued at most once, after a 307.
   */
  lemma EveryRequestIsAnswered(format: LinkFormat, c: Circumstances) returns (i: nat)
    ensures i < |Effects(format, c)| && IsAnswer(Effects(format, c)[i])
    ensures Effects(format, c)[i].AnsweredRedirect? <==> Target(format, c).Some?
    ensures var es := Effects(format, c);
            && (forall j :: 0 <= j < |es| && IsAnswer(es[j]) ==> j == i)
            && (forall j :: 0 <= j < i ==> es[j].AwaitedTenant? || es[j].AwaitedLink?)
            && (forall j :: i < j < |es| ==> es[i].AnsweredRedirect? && (es[j].AwaitedSalt? || es[j].Enqueued?))
            && (forall j, k :: 0 <= j < k < |es| ==> !(es[j].Enqueued? && es[k].Enqueued?))
  {
    i := if c.tenant.Found? then 2 else 1;
  }

  /**
   * A click is recorded, for the tenant that the handle named and for the link that was found, if and
   * only if the visitor is redirected and the capture succeeds. The tenant is always looked up, the link
   * exactly for a tenant that was found, the salt is asked for unless the capture fails before that, and
   * nothing happens twice.
   */
  lemma ClicksAreCaptured(format: LinkFormat, c: Circumstances, tenantId: string, linkId: string)
    ensures var es := Effects(format, c);
            && (Enqueued(tenantId, linkId) in es <==>
                  && (exists location :: AnsweredRedirect(location) in es) && c.capture == Captured
                  && c.tenant == Found(tenantId) && c.link.Found? && c.link.value.linkId == linkId)
            && AwaitedTenant in es
            && (AwaitedLink in es <==> exists t :: c.tenant == Found(t))
            && (AwaitedSalt in es <==>
                  (exists location :: AnsweredRedirect(location) in es) && c.capture != FailsAtOnce)
            && forall e :: multiset(es)[e] <= 1
  {
    var there := Target(format, c);
    TargetNeedsBoth(format, c);
    assert c.tenant.Found? ==> c.tenant == Found(c.tenant.value);
    if there.Some? {
      OfRedirect(there.value, c.capture, c.tenant.value, c.link.value.linkId);
      RedirectEffects(format, c);
      hide Target, Effects;
    } else {
      OfNotFound(c.tenant.Found?);
      NotFoundEffects(format, c);
      hide Target, Effects;
    }
  }

  function WhenRedirected(location: Text, capture: Capture, tenantId: string, linkId: string): seq<Effect> {
    [AwaitedTenant, AwaitedLink, AnsweredRedirect(location)]
    + match capture
      case FailsAtOnce => []
      case FailsAfterSalt => [AwaitedSalt]
      case Captured => [AwaitedSalt, Enqueued(tenantId, linkId)]
  }

  function WhenNotFound(tenantFound: bool): seq<Effect> {
    if tenantFound then [AwaitedTenant, AwaitedLink, AnsweredNotFound] else [AwaitedTenant, AnsweredNotFound]
  }

  lemma RedirectEffects(format: LinkFormat, c: Circumstances)
    requires Target(format, c).Some?
    ensures c.tenant.Found? && c.link.Found?
    ensures Effects(format, c) ==
            WhenRedirected(Target(format, c).value, c.capture, c.tenant.value, c.link.value.linkId)
  {
  }

  lemma NotFoundEffects(format: LinkFormat, c: Circumstances)
    requires Target(format, c).None?
    ensures Effects(format, c) == WhenNotFound(c.tenant.Found?)
  {
  }

  lemma OfRedirect(location: Text, capture: Capture, tenantId: string, linkId: string)
    ensures var es := WhenRedirected(location, capture, tenantId, linkId);
            && AwaitedTenant in es && AwaitedLink in es && AnsweredRedirect(location) in es
            && (AwaitedSalt in es <==> capture != FailsAtOnce)
            && (forall t, l :: Enqueued(t, l) in es <==> capture == Captured && t == tenantId && l == linkId)
            && forall e :: multiset(es)[e] <= 1
  {
  }

  lemma OfNotFound(tenantFound: bool)
    ensures var es := WhenNotFound(tenantFound);
            && AwaitedTenant in es && (AwaitedLink in es <==> tenantFound) && AwaitedSalt !in es
            && (forall location :: AnsweredRedirect(location) !in es) && (forall t, l :: Enqueued(t, l) !in es)
            && forall e :: multiset(es)[e] <= 1
  {
  }

  lemma TargetNeedsBoth(format: LinkFormat, c: Circumstances)
    ensures Target(format, c).Some? ==> c.tenant.Found? && c.link.Found?
  {
  }

  /**
   * The visitor is redirected exactly if tenant and link are found and the link's destination validates
   * to a text without a lone surrogate, and then to that text with only those code points escaped that
   * a header cannot carry.
   */
  lemma RedirectsExactly(format: LinkFormat, c: Circumstances, location: Text)
    ensures AnsweredRedirect(location) in Effects(format, c) ==>
              && c.tenant.Found? && c.link.Found? && format.normalize(c.link.value.destination).Some?
              && Escaped(format.normalize(c.link.value.destination).value, location)
    ensures (exists there :: AnsweredRedirect(there) in Effects(format, c)) <==>
              && c.tenant.Found? && c.link.Found? && format.normalize(c.link.value.destination).Some?
              && !HasLoneSurrogate(format.normalize(c.link.value.destination).value)
  {
    if c.tenant.Found? && c.link.Found? && format.normalize(c.link.value.destination).Some? {
      var d := format.normalize(c.link.value.destination).value;
      NullExactlyOnLoneSurrogates(d);
      if Encode(d).Some? {
        EncodingIsExact(d);
        assert AnsweredRedirect(Encode(d).value) in Effects(format, c);
      }
    }
  }

  /** What is sent is always a validated destination, and always header-safe. */
  lemma LocationIsSafe(format: LinkFormat, link: CachedLink)
    requires format.Valid() && LocationOf(format, link).Some?
    ensures AllSafe(LocationOf(format, link).value)
    ensures exists d :: format.normalize(d) == Some(d) && Encode(d) == LocationOf(format, link)
  {
    var d := format.normalize(link.destination).value;
    OutputIsSafeAndStable(d);
    assert format.normalize(d) == Some(d);
  }

  /**
   * The visitor is sent to the same place whichever tier answered: two links that validate to the
   * same record, such as a cached one and the row it was made from, have the same location.
   */
  lemma SameLocationFromEveryTier(format: LinkFormat, cached: CachedLink, row: CachedLink)
    requires format.Validated(cached) == format.Validated(row)
    ensures LocationOf(format, cached) == LocationOf(format, row)
  {
    var a, b := format.normalize(cached.destination), format.normalize(row.destination);
    assert a.Some? <==> b.Some?;
    if a.Some? {
      assert format.Validated(cached).value.destination == a.value;
      assert format.Validated(row).value.destination == b.value;
    }
  }

  /**
   * End to end: however Redis fails and whatever unreadable payloads it holds, a link answered for a
   * slug sends the visitor to where Postgres's row sent visitors at an instant within the cache's time
   * to live plus the delays.
   */
  lemma VisitorsFollowPostgres(conf: Conf<LinkName, CachedLink>, format: LinkFormat,
                               truth: (LinkName, int) -> Option<CachedLink>, cacheTtlSeconds: nat, timeout: nat,
                               lookupDelay: nat, writeDelay: nat, start: int, steps: seq<Step<LinkName>>, i: nat)
    requires format.Valid() && conf == LinkConf(format, truth, cacheTtlSeconds, timeout, lookupDelay, writeDelay)
    requires forall n, t :: truth(n, t).Some? ==> truth(n, t).value.tenantId == n.tenant
    requires Run(conf, Init(start), steps).Some? && i < |Run(conf, Init(start), steps).value.answers|
    ensures var a := Run(conf, Init(start), steps).value.answers[i];
            a.value.Some? ==>
              exists asOf ::
                && asOf <= a.at <= asOf + 1000 * cacheTtlSeconds + timeout + lookupDelay + writeDelay
                && truth(a.key, asOf).Some?
                && LocationOf(format, a.value.value) == LocationOf(format, truth(a.key, asOf).value)
  {
    LinkAnswers(conf, format, truth, cacheTtlSeconds, timeout, lookupDelay, writeDelay, start, steps, i);
    var a := Run(conf, Init(start), steps).value.answers[i];
    if a.value.Some? { SameLocationFromEveryTier(format, a.value.value, truth(a.key, a.asOf).value); }
  }
}
