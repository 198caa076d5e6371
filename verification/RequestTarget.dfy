/**
 * packages/contracts/src/domain.ts, links.ts and reserved.ts and apps/api/src/redirect/host.ts: build
 * the URL of a link, and find out what a request's host and path address.
 *
 * JavaScript's `trim`, `toLowerCase` and `decodeURIComponent` are uninterpreted functions over all
 * strings; all that is used of them is that they leave plain host and slug text as it is.
 */
module RequestTarget {
  import opened Prelude

  // ---------------------------------------------------------------------------------------------
  // Text
  // ---------------------------------------------------------------------------------------------

  predicate IsDigit(c: char) { '0' <= c <= '9' }
  predicate IsAlnum(c: char) { 'a' <= c <= 'z' || IsDigit(c) }
  predicate IsLabelChar(c: char) { IsAlnum(c) || c == '-' }

  /** Text that occurs in host names and slugs in normal form. */
  predicate IsPlain(s: string) {
    forall i :: 0 <= i < |s| ==> IsLabelChar(s[i]) || s[i] == '.' || s[i] == '/' || s[i] == ':'
  }

  datatype Text = Text(trim: string -> string, lower: string -> string, decode: string -> Option<string>) {
    ghost predicate Lawful() {
      forall s :: IsPlain(s) ==> trim(s) == s && lower(s) == s && decode(s) == Some(s)
    }

    function Normalize(s: string): string { lower(trim(s)) }
  }

  predicate EndsWith(s: string, t: string) { |t| <= |s| && s[|s| - |t|..] == t }

  /** `/^[a-z0-9](?:[a-z0-9-]*[a-z0-9])?$/`. */
  predicate IsLabel(s: string) {
    s != [] && IsAlnum(s[0]) && IsAlnum(s[|s| - 1]) && forall i :: 0 <= i < |s| ==> IsLabelChar(s[i])
  }

  // ---------------------------------------------------------------------------------------------
  // domain.ts
  // ---------------------------------------------------------------------------------------------

  const HANDLE_MAX_LENGTH: nat := 63

  function LastColon(s: string): Option<nat> {
    if s == [] then None
    else if s[|s| - 1] == ':' then Some(|s| - 1)
    else LastColon(s[..|s| - 1])
  }

  predicate AllDigits(s: string) { s != [] && forall i :: 0 <= i < |s| ==> IsDigit(s[i]) }

  function StripPort(host: string): string {
    match LastColon(host)
    case None => host
    case Some(i) => if i < |host| && AllDigits(host[i + 1..]) then host[..i] else host
  }

  datatype BuildError = InvalidHandle | CollidesWithOwnHost | EmptySlug

  /** Everything `makeUrlBuilders` computes once from its configuration, the names normalized. */
  datatype UrlBuilders = UrlBuilders(text: Text, domain: string, protocol: string, app: string, api: string) {

    /** A host name in normal form, which does not end with a dot. */
    predicate PlainDomain() {
      domain != [] && domain[|domain| - 1] != '.' && forall i :: 0 <= i < |domain| ==>
        IsLabelChar(domain[i]) || domain[i] == '.'
    }

    predicate IsReservedSubdomain(name: string) { name == app || name == api }

    function ClaimableHandle(handle: string): Result<string, BuildError> {
      var normalized := text.Normalize(handle);
      if !IsLabel(normalized) then Err(InvalidHandle)
      else if IsReservedSubdomain(normalized) then Err(CollidesWithOwnHost)
      else Ok(normalized)
    }

    function BuildLinkUrl(handle: string, slug: string): Result<string, BuildError> {
      match ClaimableHandle(handle)
      case Err(e) => Err(e)
      case Ok(h) =>
        if text.trim(slug) == [] then Err(EmptySlug)
        else Ok(protocol + "://" + h + "." + domain + "/" + text.trim(slug))
    }

    /** The host once normalized, without port and without the dot of the DNS root. */
    function Bare(rawHost: string): string {
      var withoutPort := StripPort(text.Normalize(rawHost));
      if EndsWith(withoutPort, ".") then withoutPort[..|withoutPort| - 1] else withoutPort
    }

    function ParseHandleFromHost(rawHost: string): Option<string> {
      var host := Bare(rawHost);
      if host == [] || host == domain || !EndsWith(host, "." + domain) then None
      else
        var name := host[..|host| - |"." + domain|];
        if name == [] || |name| > HANDLE_MAX_LENGTH || !IsLabel(name) || IsReservedSubdomain(name) then None
        else Some(name)
    }
  }

  // ---------------------------------------------------------------------------------------------
  // links.ts and reserved.ts
  // ---------------------------------------------------------------------------------------------

  const SLUG_MAX_LENGTH: nat := 64
  const RESERVED_HANDLES: seq<string> :=
    ["app", "api", "www", "admin", "static", "assets", "cdn", "mail", "blog", "docs", "status"]
  const RESERVED_PATHS: seq<string> := ["/", "/favicon.ico", "/robots.txt"]
  const WELL_KNOWN: string := "/.well-known"

  /** `/^[a-z0-9]([a-z0-9-]{0,62}[a-z0-9])?$/`, within the length, and not a reserved path. */
  predicate IsValidSlug(slug: string) {
    1 <= |slug| <= SLUG_MAX_LENGTH && IsLabel(slug) && "/" + slug !in RESERVED_PATHS
  }

  /** Tells the built-in words apart: their lengths, first and last letters. */
  function Mark(word: string): int
    requires word != []
  {
    1000 * |word| + 2 * (word[0] as int) + word[|word| - 1] as int
  }

  lemma BuiltInHandlesAreDistinct()
    ensures NoDup(RESERVED_HANDLES)
  {
    forall i, j | 0 <= i < j < |RESERVED_HANDLES| ensures RESERVED_HANDLES[i] != RESERVED_HANDLES[j] {
      assert Mark(RESERVED_HANDLES[i]) != Mark(RESERVED_HANDLES[j]);
    }
  }

  /** `resolveReservedHandles`: the built-in words and whatever non-empty words are configured. */
  method ResolveReservedHandles(text: Text, overrides: seq<string>) returns (merged: seq<string>)
    ensures RESERVED_HANDLES <= merged
    ensures forall h :: h in merged <==>
      h in RESERVED_HANDLES || (h != [] && exists i :: 0 <= i < |overrides| && text.Normalize(overrides[i]) == h)
    ensures NoDup(merged)
  {
    merged := RESERVED_HANDLES;
    BuiltInHandlesAreDistinct();
    var k := 0;
    while k < |overrides|
      invariant 0 <= k <= |overrides| && RESERVED_HANDLES <= merged
      invariant forall h :: h in merged <==>
        h in RESERVED_HANDLES || (h != [] && exists i :: 0 <= i < k && text.Normalize(overrides[i]) == h)
      invariant NoDup(merged)
    {
      var normalized := text.Normalize(overrides[k]);
      if |normalized| > 0 && normalized !in merged {
        merged := merged + [normalized];
      }
      k := k + 1;
    }
  }

  predicate IsReservedHandle(text: Text, handle: string, reserved: seq<string>) {
    text.Normalize(handle) != [] && text.Normalize(handle) in reserved
  }

  function NormalizePath(text: Text, path: string): string {
    var trimmed := text.Normalize(path);
    if trimmed == [] then "/"
    else if |trimmed| > 1 && EndsWith(trimmed, "/") then trimmed[..|trimmed| - 1]
    else trimmed
  }

  predicate IsReservedPath(text: Text, path: string) {
    var normalized := NormalizePath(text, path);
    normalized in RESERVED_PATHS || normalized == WELL_KNOWN || WELL_KNOWN + "/" <= normalized
  }

  // ---------------------------------------------------------------------------------------------
  // host.ts
  // ---------------------------------------------------------------------------------------------

  datatype Target =
    | Link(handle: string, slug: string)
    | HandleRoot(handle: string)
    | ReservedPath
    | ReservedHandle(handle: string)
    | InvalidPath
    | NotOurs

  const MAX_ENCODED_SLUG_LENGTH: nat := SLUG_MAX_LENGTH * 3

  function ExtractSlug(text: Text, path: string): Option<string> {
    if path == [] || path[0] != '/' then None
    else
      var encoded := path[1..];
      if encoded == [] || |encoded| > MAX_ENCODED_SLUG_LENGTH || '/' in encoded then None
      else
        match text.decode(encoded)
        case None => None
        case Some(decoded) => if '/' in decoded then None else Some(decoded)
  }

  predicate OnlySlashes(path: string) { path != [] && forall i :: 0 <= i < |path| ==> path[i] == '/' }

  function ParseRequestTarget(urls: UrlBuilders, reserved: seq<string>, host: string, path: string): Target {
    match urls.ParseHandleFromHost(host)
    case None => NotOurs
    case Some(handle) =>
      if IsReservedHandle(urls.text, handle, reserved) then ReservedHandle(handle)
      else if path == "" || path == "/" then HandleRoot(handle)
      else if OnlySlashes(path) then InvalidPath
      else if IsReservedPath(urls.text, path) then ReservedPath
      else
        match ExtractSlug(urls.text, path)
        case None => InvalidPath
        case Some(slug) => if IsValidSlug(slug) then Link(handle, slug) else InvalidPath
  }

  // ---------------------------------------------------------------------------------------------
  // Labels, slugs and reserved paths, character by character
  // ---------------------------------------------------------------------------------------------

  /** Only lower-case ASCII letters, digits and hyphens, with a hyphen at neither end. */
  predicate Hyphenated(s: string) {
    && s != "" && s[0] != '-' && s[|s| - 1] != '-'
    && forall i :: 0 <= i < |s| ==> 97 <= s[i] as int <= 122 || 48 <= s[i] as int <= 57 || s[i] as int == 45
  }

  /** Handles and slugs share one shape; a slug has 1 to 64 characters, and no reserved path looks like one. */
  lemma LabelsAndSlugs(s: string)
    ensures IsLabel(s) <==> Hyphenated(s)
    ensures IsValidSlug(s) <==> Hyphenated(s) && |s| <= 64
  {
    if IsLabel(s) {
      assert forall i :: 0 <= i < |s| ==> IsLabelChar(s[i]);
      forall i | 0 <= i < |RESERVED_PATHS| && i > 0 ensures RESERVED_PATHS[i] != "/" + s { DotInReserved(s, i); }
    }
    if Hyphenated(s) { assert IsLabelChar(s[0]) && IsLabelChar(s[|s| - 1]); }
  }

  lemma DotInReserved(s: string, i: nat)
    requires 0 < i < |RESERVED_PATHS| && IsLabel(s)
    ensures RESERVED_PATHS[i] != "/" + s
  {
    var at := if i == 1 then 8 else 7;
    assert RESERVED_PATHS[i][at] == '.';
    if |s| >= at { assert ("/" + s)[at] == s[at - 1] && IsLabelChar(s[at - 1]); }
  }

  /** In normal form, exactly which paths are answered without a lookup. */
  lemma ReservedPathsExactly(text: Text, path: string)
    requires text.Lawful() && IsPlain(path)
    ensures IsReservedPath(text, path) <==>
      || path in {"", "/", "//", "/favicon.ico", "/favicon.ico/", "/robots.txt", "/robots.txt/", "/.well-known"}
      || "/.well-known/" <= path
  {
    var n := NormalizePath(text, path);
    if path != "" && |path| > 1 && EndsWith(path, "/") {
      assert path == n + "/";
      assert "/.well-known/" <= path <==> n == "/.well-known" || "/.well-known/" <= n by {
        assert |"/.well-known/"| == 13;
        if "/.well-known/" <= path && |path| == 13 { assert n == "/.well-known/"[..12]; }
      }
      NoSlashAtEnd(n, path);
    }
  }

  lemma NoSlashAtEnd(n: string, path: string)
    requires path == n + "/" && n != ""
    ensures n in RESERVED_PATHS <==> path in {"//", "/favicon.ico/", "/robots.txt/"}
    ensures path !in {"", "/", "/favicon.ico", "/robots.txt", "/.well-known"}
  {
    assert "//" == "/" + "/" && "/favicon.ico/" == "/favicon.ico" + "/" && "/robots.txt/" == "/robots.txt" + "/";
    assert path[|path| - 1] == '/';
    assert forall m: string :: m + "/" == path ==> m == path[..|path| - 1];
    if path in {"//", "/favicon.ico/", "/robots.txt/"} {
      assert n == path[..|path| - 1];
    }
  }

  /**
   * Exactly which requests are for a link: on a host that yields a handle which is not reserved, a path of
   * one segment, of at most three encoded characters for each of a slug's, that decodes to a valid slug.
   */
  lemma LinkTargetExactly(urls: UrlBuilders, reserved: seq<string>, host: string, path: string, handle: string,
      slug: string)
    requires urls.text.Lawful()
    ensures ParseRequestTarget(urls, reserved, host, path) == Link(handle, slug) <==>
      && urls.ParseHandleFromHost(host) == Some(handle) && handle !in reserved
      && "/" <= path && path != "/" && '/' !in path[1..] && |path| <= 193 && !IsReservedPath(urls.text, path)
      && urls.text.decode(path[1..]) == Some(slug) && Hyphenated(slug) && |slug| <= 64
  {
    LabelsAndSlugs(slug);
    HandleIsPlain(urls, host);
    SlugOfPath(urls.text, path, slug);
    hide UrlBuilders.ParseHandleFromHost, IsReservedPath, Hyphenated, IsValidSlug, IsPlain, ExtractSlug, OneSegment;
    NoSegmentOfSlashes(path);
  }

  /** A path of one segment, no longer than three encoded characters for each of a slug's. */
  predicate OneSegment(path: string) { "/" <= path && path != "/" && '/' !in path[1..] && |path| <= 193 }

  lemma NoSegmentOfSlashes(path: string)
    ensures OneSegment(path) <==> "/" <= path && path != "/" && '/' !in path[1..] && |path| <= 193
    ensures OneSegment(path) ==> !OnlySlashes(path) && path != ""
  {
    if OneSegment(path) { assert path[1] in path[1..]; }
  }

  lemma HandleIsPlain(urls: UrlBuilders, host: string)
    ensures var h := urls.ParseHandleFromHost(host); h.Some? ==> h.value != "" && IsPlain(h.value)
  {
    if urls.ParseHandleFromHost(host).Some? {
      ParsedHandle(urls, host, urls.ParseHandleFromHost(host).value);
    }
  }

  lemma SlugOfPath(text: Text, path: string, slug: string)
    ensures Hyphenated(slug) ==>
      (ExtractSlug(text, path) == Some(slug) <==> OneSegment(path) && text.decode(path[1..]) == Some(slug))
  {
    if Hyphenated(slug) { assert forall i :: 0 <= i < |slug| ==> slug[i] != '/'; }
  }

  // ---------------------------------------------------------------------------------------------
  // What a parsed host is
  // ---------------------------------------------------------------------------------------------

  /**
   * Exactly which hosts yield handle `h`: those that, without port and root dot, spell `h.domain`,
   * for an `h` that is a label of at most 63 characters and not one of this deployment's own hosts.
   */
  lemma ParsedHandle(urls: UrlBuilders, host: string, h: string)
    ensures urls.ParseHandleFromHost(host) == Some(h) <==>
      && urls.Bare(host) == h + "." + urls.domain && IsLabel(h) && |h| <= 63
      && h != urls.app && h != urls.api
  {
    var bare, suffix := urls.Bare(host), "." + urls.domain;
    assert h + "." + urls.domain == h + suffix;
    if EndsWith(bare, suffix) {
      assert bare == bare[..|bare| - |suffix|] + suffix;
    }
    if bare == h + suffix {
      assert bare[|bare| - |suffix|..] == suffix && bare[..|bare| - |suffix|] == h;
    }
  }

  lemma {:induction false} NoColon(s: string)
    requires ':' !in s
    ensures LastColon(s) == None
  {
    if s != [] {
      assert s[|s| - 1] in s;
      assert forall c :: c in s[..|s| - 1] ==> c in s;
      NoColon(s[..|s| - 1]);
    }
  }

  lemma {:induction false} ColonBeforeDigits(s: string, digits: string)
    requires forall i :: 0 <= i < |digits| ==> IsDigit(digits[i])
    ensures LastColon(s + ":" + digits) == Some(|s|)
    decreases |digits|
  {
    var t := s + ":" + digits;
    if digits == [] {
      assert t[|t| - 1] == ':';
    } else {
      assert t[|t| - 1] == digits[|digits| - 1];
      assert t[..|t| - 1] == s + ":" + digits[..|digits| - 1];
      ColonBeforeDigits(s, digits[..|digits| - 1]);
    }
  }

  /** Host text in normal form: labels and dots. */
  predicate IsHostText(s: string) { forall i :: 0 <= i < |s| ==> IsLabelChar(s[i]) || s[i] == '.' }

  lemma BareHost(urls: UrlBuilders, host: string)
    requires urls.text.Lawful() && IsHostText(host) && host != [] && host[|host| - 1] != '.'
    ensures urls.Bare(host) == host && urls.Bare(host + ".") == host
  {
    assert IsPlain(host) && IsPlain(host + ".");
    NoColon(host);
    NoColon(host + ".");
    assert (host + ".")[..|host|] == host;
  }

  lemma BareWithPort(urls: UrlBuilders, host: string, digits: string)
    requires urls.text.Lawful() && IsHostText(host) && AllDigits(digits)
    ensures urls.Bare(host + ":" + digits) == if EndsWith(host, ".") then host[..|host| - 1] else host
  {
    var full := host + ":" + digits;
    assert IsPlain(full);
    ColonBeforeDigits(host, digits);
    assert full[|host| + 1..] == digits && full[..|host|] == host;
  }

  /** The port and one trailing dot never matter. */
  lemma PortAndRootDotAreIgnored(urls: UrlBuilders, reserved: seq<string>, host: string, digits: string, path: string)
    requires urls.text.Lawful() && IsHostText(host) && host != [] && host[|host| - 1] != '.' && AllDigits(digits)
    ensures var target := ParseRequestTarget(urls, reserved, host, path);
            && ParseRequestTarget(urls, reserved, host + ".", path) == target
            && ParseRequestTarget(urls, reserved, host + ":" + digits, path) == target
            && ParseRequestTarget(urls, reserved, host + ".:" + digits, path) == target
  {
    hide ParseRequestTarget, IsHostText, AllDigits;
    BareVariants(urls, host, digits);
    SameBareSameTarget(urls, reserved, host, host + ".", path);
    SameBareSameTarget(urls, reserved, host, host + ":" + digits, path);
    SameBareSameTarget(urls, reserved, host, host + ".:" + digits, path);
  }

  lemma BareVariants(urls: UrlBuilders, host: string, digits: string)
    requires urls.text.Lawful() && IsHostText(host) && host != [] && host[|host| - 1] != '.' && AllDigits(digits)
    ensures urls.Bare(host) == urls.Bare(host + ".") == urls.Bare(host + ":" + digits)
      == urls.Bare(host + ".:" + digits) == host
  {
    hide UrlBuilders.Bare;
    BareHost(urls, host);
    BareWithPort(urls, host, digits);
    var dotted := host + ".";
    BareWithPort(urls, dotted, digits);
    assert dotted[..|host|] == host && dotted + ":" + digits == host + ".:" + digits;
  }

  lemma SameBareSameTarget(urls: UrlBuilders, reserved: seq<string>, host: string, other: string, path: string)
    requires urls.Bare(host) == urls.Bare(other)
    ensures ParseRequestTarget(urls, reserved, host, path) == ParseRequestTarget(urls, reserved, other, path)
  {
    assert urls.ParseHandleFromHost(host) == urls.ParseHandleFromHost(other);
  }

  // ---------------------------------------------------------------------------------------------
  // Building and parsing undo each other
  // ---------------------------------------------------------------------------------------------

  /** Host and path of a URL: what is between `://` and the next slash, and the rest. */
  function UpToSlash(s: string): string {
    if s == [] || s[0] == '/' then [] else [s[0]] + UpToSlash(s[1..])
  }

  function HostAndPath(protocol: string, url: string): (string, string)
    requires protocol + "://" <= url
  {
    var rest := url[|protocol| + 3..];
    UpToSlashIsPrefix(rest);
    (UpToSlash(rest), rest[|UpToSlash(rest)|..])
  }

  lemma {:induction false} UpToSlashIsPrefix(s: string)
    ensures UpToSlash(s) <= s
  {
    if s != [] && s[0] != '/' { UpToSlashIsPrefix(s[1..]); }
  }

  lemma {:induction false} UpToSlashStops(s: string, t: string)
    requires '/' !in s
    ensures UpToSlash(s + "/" + t) == s
  {
    if s != [] {
      assert (s + "/" + t)[1..] == s[1..] + "/" + t;
      UpToSlashStops(s[1..], t);
    }
  }

  lemma BuiltUrl(urls: UrlBuilders, handle: string, slug: string)
    requires urls.PlainDomain() && urls.BuildLinkUrl(handle, slug).Ok?
    ensures var url := urls.BuildLinkUrl(handle, slug).value;
            && urls.protocol + "://" <= url
            && HostAndPath(urls.protocol, url)
              == (urls.text.Normalize(handle) + "." + urls.domain, "/" + urls.text.trim(slug))
  {
    var h, s := urls.text.Normalize(handle), urls.text.trim(slug);
    var host := h + "." + urls.domain;
    var url := urls.BuildLinkUrl(handle, slug).value;
    assert url == (urls.protocol + "://") + (host + "/" + s);
    assert url[|urls.protocol| + 3..] == host + "/" + s;
    UpToSlashStops(host, s);
    assert (host + "/" + s)[|host|..] == "/" + s;
  }

  /** The parser, on the host and path of a URL. */
  function TargetOf(urls: UrlBuilders, reserved: seq<string>, url: string): Target
    requires urls.protocol + "://" <= url
  {
    ParseRequestTarget(urls, reserved, HostAndPath(urls.protocol, url).0, HostAndPath(urls.protocol, url).1)
  }

  lemma PathOfSlug(text: Text, slug: string)
    requires text.Lawful() && IsValidSlug(slug)
    ensures !OnlySlashes("/" + slug) && "/" + slug != "/" && !IsReservedPath(text, "/" + slug)
      && ExtractSlug(text, "/" + slug) == Some(slug)
  {
    var path := "/" + slug;
    assert path[1..] == slug && path[1] == slug[0];
    assert IsPlain(path) && IsPlain(slug);
    assert path[|path| - 1] == slug[|slug| - 1];
    assert NormalizePath(text, path) == path;
    assert WELL_KNOWN[1] == '.' && (WELL_KNOWN + "/")[1] == '.';
  }

  lemma HostParses(urls: UrlBuilders, h: string)
    requires urls.text.Lawful() && urls.PlainDomain() && IsLabel(h) && !urls.IsReservedSubdomain(h)
    ensures urls.ParseHandleFromHost(h + "." + urls.domain) == if |h| <= HANDLE_MAX_LENGTH then Some(h) else None
  {
    var host := h + "." + urls.domain;
    assert host[|host| - 1] == urls.domain[|urls.domain| - 1];
    BareHost(urls, host);
    if |h| <= HANDLE_MAX_LENGTH {
      ParsedHandle(urls, host, h);
    } else {
      forall other ensures urls.ParseHandleFromHost(host) != Some(other) { LongHandleIsNotParsed(urls, h, other); }
    }
  }

  lemma LongHandleIsNotParsed(urls: UrlBuilders, h: string, other: string)
    requires urls.Bare(h + "." + urls.domain) == h + "." + urls.domain && |h| > HANDLE_MAX_LENGTH
    ensures urls.ParseHandleFromHost(h + "." + urls.domain) != Some(other)
  {
    hide IsLabel, UrlBuilders.Bare, UrlBuilders.ParseHandleFromHost;
    ParsedHandle(urls, h + "." + urls.domain, other);
    SameSuffix(h, other, "." + urls.domain);
    assert h + "." + urls.domain == h + ("." + urls.domain) && other + "." + urls.domain == other + ("." + urls.domain);
  }

  lemma SameSuffix(a: string, b: string, suffix: string)
    ensures a + suffix == b + suffix ==> a == b
  {
    if a + suffix == b + suffix {
      assert (a + suffix)[..|a|] == a && (b + suffix)[..|b|] == b;
    }
  }

  /**
   * The round trip, exactly: the URL built for a handle and a slug parses back to that handle
   * (normalized) and slug if and only if the handle is at most 63 characters long and not a reserved
   * word, and the slug is valid. The builder checks none of the three.
   */
  lemma RoundTripIsExact(urls: UrlBuilders, reserved: seq<string>, handle: string, slug: string)
    requires urls.text.Lawful() && urls.PlainDomain() && urls.BuildLinkUrl(handle, slug).Ok?
    ensures urls.protocol + "://" <= urls.BuildLinkUrl(handle, slug).value
    ensures var h, s := urls.text.Normalize(handle), urls.text.trim(slug);
            TargetOf(urls, reserved, urls.BuildLinkUrl(handle, slug).value) == Link(h, s) <==>
              |h| <= HANDLE_MAX_LENGTH && h !in reserved && IsValidSlug(s)
  {
    hide ParseRequestTarget, IsValidSlug, UrlBuilders.ParseHandleFromHost;
    var h, s := urls.text.Normalize(handle), urls.text.trim(slug);
    BuiltUrl(urls, handle, slug);
    HostParses(urls, h);
    SlugTarget(urls, reserved, h + "." + urls.domain, h, s);
  }

  /** The target of a slug's path on a host that yields `h`, or none for a long `h`. */
  lemma SlugTarget(urls: UrlBuilders, reserved: seq<string>, host: string, h: string, slug: string)
    requires urls.text.Lawful() && IsLabel(h)
    requires urls.ParseHandleFromHost(host) == if |h| <= HANDLE_MAX_LENGTH then Some(h) else None
    ensures ParseRequestTarget(urls, reserved, host, "/" + slug) == Link(h, slug) <==>
              |h| <= HANDLE_MAX_LENGTH && h !in reserved && IsValidSlug(slug)
  {
    hide UrlBuilders.ParseHandleFromHost;
    assert IsPlain(h);
    if IsValidSlug(slug) { PathOfSlug(urls.text, slug); }
  }

  /** A link target's parts have the shape that keys and queries rely on, whatever was requested. */
  lemma LinkTargetsAreValid(urls: UrlBuilders, reserved: seq<string>, host: string, path: string)
    requires urls.text.Lawful()
    ensures var t := ParseRequestTarget(urls, reserved, host, path);
            t.Link? ==> IsLabel(t.handle) && |t.handle| <= HANDLE_MAX_LENGTH && !urls.IsReservedSubdomain(t.handle)
                        && t.handle !in reserved && IsValidSlug(t.slug)
  {
    hide UrlBuilders.ParseHandleFromHost, IsReservedPath, ExtractSlug, OnlySlashes, IsValidSlug;
    var t := ParseRequestTarget(urls, reserved, host, path);
    if t.Link? {
      hide ParseRequestTarget;
      ParsedHandle(urls, host, t.handle);
      assert IsPlain(t.handle);
    }
  }

  /** The other way: every link target the parser returns can be built, and parses to itself. */
  lemma LinkTargetsRebuild(urls: UrlBuilders, reserved: seq<string>, host: string, path: string)
    requires urls.text.Lawful() && urls.PlainDomain()
    requires ParseRequestTarget(urls, reserved, host, path).Link?
    ensures var t := ParseRequestTarget(urls, reserved, host, path);
            && urls.BuildLinkUrl(t.handle, t.slug).Ok?
            && urls.protocol + "://" <= urls.BuildLinkUrl(t.handle, t.slug).value
            && TargetOf(urls, reserved, urls.BuildLinkUrl(t.handle, t.slug).value) == t
  {
    var t := ParseRequestTarget(urls, reserved, host, path);
    LinkTargetsAreValid(urls, reserved, host, path);
    assert IsPlain(t.handle) && IsPlain(t.slug);
    RoundTripIsExact(urls, reserved, t.handle, t.slug);
  }

  // ---------------------------------------------------------------------------------------------
  // Every other target
  // ---------------------------------------------------------------------------------------------

  predicate Slashes(path: string) { forall c :: c in path ==> c == '/' }

  lemma SlashesOnly(path: string)
    ensures path != "" ==> (OnlySlashes(path) <==> Slashes(path))
    ensures |path| == 1 && Slashes(path) ==> path == "/"
  {
    if path != "" && Slashes(path) {
      forall i | 0 <= i < |path| ensures path[i] == '/' { assert path[i] in path; }
    }
  }

  /**
   * What is decided without any lookup, and in which order: a foreign host before anything else, a
   * reserved handle whatever the path, the root exactly for "" and "/", and a path of two or more
   * slashes as invalid, never as the root or as a reserved path.
   */
  lemma OtherTargets(urls: UrlBuilders, reserved: seq<string>, host: string, path: string)
    requires urls.text.Lawful()
    ensures var t, h := ParseRequestTarget(urls, reserved, host, path), urls.ParseHandleFromHost(host);
            && (t == NotOurs <==> h == None)
            && (t.ReservedHandle? <==> h.Some? && h.value in reserved)
            && (t.HandleRoot? <==> h.Some? && h.value !in reserved && (path == "" || path == "/"))
            && (h.Some? && h.value !in reserved && |path| > 1 && Slashes(path) ==> t == InvalidPath)
            && (t == ReservedPath <==>
                  && h.Some? && h.value !in reserved && path != "" && !Slashes(path)
                  && IsReservedPath(urls.text, path))
  {
    SlashesOnly(path);
    if urls.ParseHandleFromHost(host).Some? {
      var h := urls.ParseHandleFromHost(host).value;
      ParsedHandle(urls, host, h);
      assert IsPlain(h);
    }
  }

  /** The well-known prefix is matched as a directory: itself, with a slash, and everything under it. */
  lemma WellKnownIsADirectory(text: Text, rest: string)
    requires text.Lawful() && IsPlain(rest)
    ensures IsReservedPath(text, WELL_KNOWN) && IsReservedPath(text, WELL_KNOWN + "/")
      && IsReservedPath(text, WELL_KNOWN + "/" + rest)
    ensures rest != [] && rest[0] != '/' ==> !IsReservedPath(text, WELL_KNOWN + rest)
  {
    var under, beside := WELL_KNOWN + "/" + rest, WELL_KNOWN + rest;
    assert IsPlain(WELL_KNOWN) && IsPlain(WELL_KNOWN + "/") && IsPlain(under) && IsPlain(beside);
    assert (WELL_KNOWN + "/")[..12] == WELL_KNOWN;
    WellKnownUnder(text, rest);
    if rest != [] && rest[0] != '/' { WellKnownBeside(text, rest); }
  }

  lemma WellKnownUnder(text: Text, rest: string)
    requires text.Lawful() && IsPlain(rest) && IsPlain(WELL_KNOWN + "/" + rest)
    ensures IsReservedPath(text, WELL_KNOWN + "/" + rest)
  {
    var path := WELL_KNOWN + "/" + rest;
    var normalized := NormalizePath(text, path);
    if rest == [] {
      assert path == WELL_KNOWN + "/" && path[..|path| - 1] == WELL_KNOWN;
    } else {
      assert path[|path| - 1] == rest[|rest| - 1];
      assert path[..|path| - 1] == WELL_KNOWN + "/" + rest[..|rest| - 1];
    }
  }

  lemma WellKnownBeside(text: Text, rest: string)
    requires text.Lawful() && IsPlain(rest) && IsPlain(WELL_KNOWN + rest) && rest != [] && rest[0] != '/'
    ensures !IsReservedPath(text, WELL_KNOWN + rest)
  {
    var path := WELL_KNOWN + rest;
    var normalized := NormalizePath(text, path);
    assert path[12] == rest[0] && path[1] == '.';
    assert EndsWith(path, "/") ==> |rest| > 1;
    assert normalized == path || normalized == path[..|path| - 1];
    assert |normalized| > 12 && normalized[12] == rest[0] && normalized[1] == '.';
    assert (WELL_KNOWN + "/")[12] == '/';
  }
}
