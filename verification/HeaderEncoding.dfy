/**
 * apps/api/src/redirect/redirect-response.ts: percent-encode what an HTTP header cannot carry in a
 * redirect's destination, and only that.
 */
module HeaderEncoding {
  import opened Prelude
  import opened Utf16

  type Byte = b: int | 0 <= b < 0x100

  predicate IsHeaderSafe(cp: int) {
    cp == 0x09 || 0x20 <= cp <= 0x7e || 0x80 <= cp <= 0xff
  }

  /** The regular expression of the fast path. */
  predicate AllSafe(s: Text) { forall i :: 0 <= i < |s| ==> IsHeaderSafe(s[i]) }

  // ---------------------------------------------------------------------------------------------
  // UTF-8 and percent-encoding
  // ---------------------------------------------------------------------------------------------

  function Utf8(cp: int): (bytes: seq<Byte>)
    requires 0 <= cp < 0x11_0000 && !IsSurrogate(cp)
    ensures 1 <= |bytes| <= 4
  {
    if cp < 0x80 then [cp]
    else if cp < 0x800 then [0xC0 + cp / 64, 0x80 + cp % 64]
    else if cp < 0x1_0000 then [0xE0 + cp / 4096, 0x80 + cp / 64 % 64, 0x80 + cp % 64]
    else [0xF0 + cp / 262144, 0x80 + cp / 4096 % 64, 0x80 + cp / 64 % 64, 0x80 + cp % 64]
  }

  const PERCENT: Unit := 0x25

  function Percent(b: Byte): Text { [PERCENT, HexDigit(b / 16, UPPER_A), HexDigit(b % 16, UPPER_A)] }

  function PercentAll(bytes: seq<Byte>): Text {
    if bytes == [] then [] else Percent(bytes[0]) + PercentAll(bytes[1..])
  }

  /** `encodeURIComponent` of one code point that is not header-safe: throws on a lone surrogate. */
  function EncodeComponent(cp: int): Option<Text>
    requires 0 <= cp < 0x11_0000
  {
    if IsSurrogate(cp) then None else Some(PercentAll(Utf8(cp)))
  }

  /** What the loop appends for the first code point. */
  function Part(s: Text): Option<Text>
    requires s != []
  {
    if IsHeaderSafe(CodePoint(s)) then Some(s[..Width(s)]) else EncodeComponent(CodePoint(s))
  }

  /** The slow path, code point by code point. */
  function EncodeAll(s: Text): Option<Text>
    decreases |s|
  {
    if s == [] then Some([])
    else
      match Part(s)
      case None => None
      case Some(part) =>
        match EncodeAll(s[Width(s)..])
        case None => None
        case Some(rest) => Some(part + rest)
  }

  function Encode(s: Text): Option<Text> {
    if AllSafe(s) then Some(s) else EncodeAll(s)
  }

  /** What has been pushed, in front of what is still to come. */
  function Prepend(parts: Text, rest: Option<Text>): Option<Text> {
    match rest
    case None => None
    case Some(more) => Some(parts + more)
  }

  lemma EncodeNext(s: Text, i: nat, parts: Text)
    requires i < |s|
    ensures var rest, w := s[i..], Width(s[i..]);
            && 1 <= w <= |rest|
            && (Part(rest).None? ==> EncodeAll(rest) == None)
            && (Part(rest).Some? ==>
              Prepend(parts, EncodeAll(rest)) == Prepend(parts + Part(rest).value, EncodeAll(s[i + w..])))
  {
    hide Part;
    var rest, w := s[i..], Width(s[i..]);
    assert rest[w..] == s[i + w..];
    if Part(rest).Some? && EncodeAll(s[i + w..]).Some? {
      var part, more := Part(rest).value, EncodeAll(s[i + w..]).value;
      assert parts + (part + more) == (parts + part) + more;
    }
  }

  lemma EncodeNothing(s: Text, parts: Text)
    ensures s[0..] == s && Prepend([], EncodeAll(s)) == EncodeAll(s) && Prepend(parts, EncodeAll([])) == Some(parts)
  {
    assert parts + [] == parts;
    if EncodeAll(s).Some? { assert [] + EncodeAll(s).value == EncodeAll(s).value; }
  }

  /** The function of the source: the scan first, then the loop that pushes parts. */
  method EncodeDestinationForHeader(destination: Text) returns (encoded: Option<Text>)
    ensures encoded == Encode(destination)
  {
    if AllSafe(destination) {
      return Some(destination);
    }
    hide Part, Width, EncodeAll;
    var parts: Text := [];
    var i := 0;
    EncodeNothing(destination, parts);
    while i < |destination|
      invariant 0 <= i <= |destination|
      invariant EncodeAll(destination) == Prepend(parts, EncodeAll(destination[i..]))
      decreases |destination| - i
    {
      EncodeNext(destination, i, parts);
      var rest := destination[i..];
      var part := Part(rest);
      if part.None? {
        return None;
      }
      parts := parts + part.value;
      i := i + Width(rest);
    }
    EncodeNothing([], parts);
    assert destination[i..] == [];
    return Some(parts);
  }

  // ---------------------------------------------------------------------------------------------
  // Safe output, agreement of the two paths, idempotence
  // ---------------------------------------------------------------------------------------------

  /** The scan by code unit and the loop by code point agree: where the first applies, the second changes nothing. */
  lemma {:induction false} FastPathAgrees(s: Text)
    requires AllSafe(s)
    ensures EncodeAll(s) == Some(s)
    decreases |s|
  {
    if s != [] {
      FastPathAgrees(s[1..]);
      assert s == s[..1] + s[1..];
    }
  }

  lemma {:induction false} PercentAllIsSafe(bytes: seq<Byte>)
    ensures AllSafe(PercentAll(bytes))
  {
    if bytes != [] { PercentAllIsSafe(bytes[1..]); }
  }

  lemma {:induction false} EncodeAllIsSafe(s: Text)
    requires EncodeAll(s).Some?
    ensures AllSafe(EncodeAll(s).value)
    decreases |s|
  {
    if s != [] {
      EncodeAllIsSafe(s[Width(s)..]);
      if !IsHeaderSafe(CodePoint(s)) { PercentAllIsSafe(Utf8(CodePoint(s))); }
    }
  }

  /** Every unit of the output can be written to a header, and encoding again changes nothing. */
  lemma OutputIsSafeAndStable(s: Text)
    requires Encode(s).Some?
    ensures AllSafe(Encode(s).value)
    ensures Encode(Encode(s).value) == Encode(s)
    ensures AllSafe(s) ==> EncodeAll(s) == Encode(s)
  {
    if AllSafe(s) { FastPathAgrees(s); } else { EncodeAllIsSafe(s); }
  }

  // ---------------------------------------------------------------------------------------------
  // When there is no encoding
  // ---------------------------------------------------------------------------------------------

  lemma {:induction false} EncodeAllFailsOnLone(s: Text)
    ensures EncodeAll(s).None? <==> HasLoneSurrogate(s)
    decreases |s|
  {
    if s != [] {
      LoneInRest(s);
      EncodeAllFailsOnLone(s[Width(s)..]);
    }
  }

  /** There is no Location exactly for destinations that hold a lone surrogate. */
  lemma NullExactlyOnLoneSurrogates(s: Text)
    ensures Encode(s).None? <==> HasLoneSurrogate(s)
  {
    EncodeAllFailsOnLone(s);
  }

  // ---------------------------------------------------------------------------------------------
  // Decoding gives the destination back
  // ---------------------------------------------------------------------------------------------

  /** The byte of the escape `%XX` at the start, if there is one. */
  function EscapeAt(t: Text): Option<Byte> {
    if |t| < 3 || t[0] != PERCENT then None
    else
      var hi, lo := HexValue(t[1]), HexValue(t[2]);
      if hi.None? || lo.None? then None else Some(16 * hi.value + lo.value)
  }

  /** How many bytes the sequence has that this byte leads. */
  function SequenceLength(lead: Byte): nat {
    if lead < 0x80 then 1 else if lead < 0xE0 then 2 else if lead < 0xF0 then 3 else 4
  }

  function EscapedBytes(t: Text, n: nat): Option<seq<Byte>>
    decreases n
  {
    if n == 0 then Some([])
    else
      match EscapeAt(t)
      case None => None
      case Some(b) =>
        match EscapedBytes(t[3..], n - 1)
        case None => None
        case Some(rest) => Some([b] + rest)
  }

  /** Six more bits from a continuation byte. */
  function Sixtyfour(bits: int, continuation: Byte): int { bits * 64 + (continuation as int - 0x80) }

  function FromUtf8(b: seq<Byte>): int
    requires 1 <= |b| <= 4
  {
    if |b| == 1 then b[0]
    else if |b| == 2 then Sixtyfour(b[0] as int - 0xC0, b[1])
    else if |b| == 3 then Sixtyfour(Sixtyfour(b[0] as int - 0xE0, b[1]), b[2])
    else Sixtyfour(Sixtyfour(Sixtyfour(b[0] as int - 0xF0, b[1]), b[2]), b[3])
  }

  function UnitsOf(cp: int): Option<Text> {
    if 0 <= cp < 0x1_0000 then Some([cp])
    else if 0x1_0000 <= cp < 0x11_0000 then Some([0xD800 + (cp - 0x1_0000) / 0x400, 0xDC00 + (cp - 0x1_0000) % 0x400])
    else None
  }

  /** Read escapes as UTF-8 and leave every other unit as it is. */
  function Decode(t: Text): Option<Text>
    decreases |t|
  {
    if t == [] then Some([])
    else if t[0] != PERCENT then
      match Decode(t[1..])
      case None => None
      case Some(rest) => Some([t[0]] + rest)
    else
      match EscapeAt(t)
      case None => None
      case Some(lead) =>
        var n := SequenceLength(lead);
        match EscapedBytes(t, n)
        case None => None
        case Some(bytes) =>
          EscapedBytesLength(t, n);
          match UnitsOf(FromUtf8(bytes))
          case None => None
          case Some(units) =>
            match Decode(t[3 * n..])
            case None => None
            case Some(rest) => Some(units + rest)
  }

  lemma {:induction false} EscapedBytesLength(t: Text, n: nat)
    requires EscapedBytes(t, n).Some?
    ensures |EscapedBytes(t, n).value| == n && |t| >= 3 * n
    decreases n
  {
    if n > 0 { EscapedBytesLength(t[3..], n - 1); }
  }

  lemma EscapeReadsBack(b: Byte, rest: Text)
    ensures EscapeAt(Percent(b) + rest) == Some(b)
  {
    HexReadsBack(b / 16, UPPER_A);
    HexReadsBack(b % 16, UPPER_A);
  }

  lemma {:induction false} BytesReadBack(bytes: seq<Byte>, rest: Text)
    ensures EscapedBytes(PercentAll(bytes) + rest, |bytes|) == Some(bytes)
    ensures |PercentAll(bytes)| == 3 * |bytes|
    decreases |bytes|
  {
    if bytes != [] {
      var t, more := PercentAll(bytes) + rest, PercentAll(bytes[1..]) + rest;
      assert |Percent(bytes[0])| == 3;
      EscapeReadsBack(bytes[0], more);
      hide EscapeAt, Percent, HexDigit, HexValue;
      assert t == Percent(bytes[0]) + more;
      assert t[3..] == more;
      BytesReadBack(bytes[1..], rest);
      assert bytes == [bytes[0]] + bytes[1..];
    }
  }

  lemma Utf8ReadsBack(cp: int)
    requires 0 <= cp < 0x11_0000 && !IsSurrogate(cp)
    ensures FromUtf8(Utf8(cp)) == cp && SequenceLength(Utf8(cp)[0]) == |Utf8(cp)|
  {
    if cp >= 0x800 { Digits64(cp); }
  }

  lemma Digits64(cp: int)
    requires 0 <= cp
    ensures cp == cp / 64 * 64 + cp % 64 && cp / 64 == cp / 4096 * 64 + cp / 64 % 64
    ensures cp / 4096 == cp / 262144 * 64 + cp / 4096 % 64
  {
    assert cp / 64 / 64 == cp / 4096;
    assert cp / 4096 / 64 == cp / 262144;
  }

  lemma PairReadsBack(s: Text)
    requires s != [] && !(Width(s) == 1 && IsSurrogate(s[0]))
    ensures UnitsOf(CodePoint(s)) == Some(s[..Width(s)])
  {
    if Width(s) == 2 {
      var x: int, y: int := s[0] as int - 0xD800, s[1] as int - 0xDC00;
      assert CodePoint(s) - 0x1_0000 == x * 0x400 + y && 0 <= y < 0x400;
      assert (x * 0x400 + y) / 0x400 == x && (x * 0x400 + y) % 0x400 == y;
      assert s[..2] == [s[0], s[1]];
    } else {
      assert s[..1] == [s[0]];
    }
  }

  /** One encoded code point, decoded in front of anything. */
  lemma EscapedPartDecodes(s: Text, rest: Text)
    requires s != [] && !(Width(s) == 1 && IsSurrogate(s[0])) && Decode(rest).Some?
    ensures Decode(PercentAll(Utf8(CodePoint(s))) + rest) == Some(s[..Width(s)] + Decode(rest).value)
  {
    var cp := CodePoint(s);
    var bytes := Utf8(cp);
    var t := PercentAll(bytes) + rest;
    Utf8ReadsBack(cp);
    PairReadsBack(s);
    hide CodePoint, Utf8, UnitsOf, FromUtf8, SequenceLength, PercentAll, EscapedBytes, EscapeAt;
    BytesReadBack(bytes, rest);
    LeadReadsBack(bytes, rest);
    assert t[3 * |bytes|..] == rest;
  }

  lemma LeadReadsBack(bytes: seq<Byte>, rest: Text)
    requires bytes != []
    ensures var t := PercentAll(bytes) + rest; t != [] && t[0] == PERCENT && EscapeAt(t) == Some(bytes[0])
  {
    assert PercentAll(bytes) + rest == Percent(bytes[0]) + (PercentAll(bytes[1..]) + rest);
    EscapeReadsBack(bytes[0], PercentAll(bytes[1..]) + rest);
  }

  lemma {:induction false} EncodeAllDecodes(s: Text)
    requires EncodeAll(s).Some? && PERCENT !in s
    ensures Decode(EncodeAll(s).value) == Some(s)
    decreases |s|
  {
    if s != [] {
      var w := Width(s);
      var rest := EncodeAll(s[w..]).value;
      EncodeAllDecodes(s[w..]);
      assert s == s[..w] + s[w..];
      if IsHeaderSafe(CodePoint(s)) {
        assert EncodeAll(s).value == s[..1] + rest;
        assert (s[..1] + rest)[1..] == rest && (s[..1] + rest)[0] == s[0] && s[0] in s;
        assert s[..1] == [s[0]];
      } else {
        EscapedPartDecodes(s, rest);
      }
    }
  }

  /**
   * For a destination without `%`, reading the escapes of the output as UTF-8 gives the destination
   * back: nothing but the characters a header cannot carry is touched, and the target is the same.
   */
  lemma DecodingRecovers(s: Text)
    requires Encode(s).Some? && PERCENT !in s
    ensures Decode(Encode(s).value) == Some(s)
  {
    if AllSafe(s) { FastPathAgrees(s); }
    EncodeAllDecodes(s);
  }

  // ---------------------------------------------------------------------------------------------
  // sendLinkRedirect
  // ---------------------------------------------------------------------------------------------

  class Response {
    var status: Option<int>
    var cacheControl: Option<string>
    var location: Option<Text>
    var ended: bool

    constructor ()
      ensures status == None && cacheControl == None && location == None && !ended
    {
      status, cacheControl, location, ended := None, None, None, false;
    }
  }

  /** The whole redirect, or nothing at all. */
  method SendLinkRedirect(res: Response, destination: Text) returns (sent: bool)
    modifies res
    ensures sent <==> !HasLoneSurrogate(destination)
    ensures !sent ==> unchanged(res)
    ensures sent ==>
      && res.status == Some(307) && res.cacheControl == Some("no-store") && res.ended
      && res.location == Encode(destination)
    ensures sent ==> Encode(destination).Some? && AllSafe(Encode(destination).value)
  {
    NullExactlyOnLoneSurrogates(destination);
    var encoded := EncodeDestinationForHeader(destination);
    if encoded.None? {
      return false;
    }
    OutputIsSafeAndStable(destination);
    res.cacheControl := Some("no-store");
    res.location := encoded;
    res.status := Some(307);
    res.ended := true;
    return true;
  }
}
