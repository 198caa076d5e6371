/**
 * packages/core/src/r2/ndjson.ts: the event log as newline-delimited JSON, written a batch per object
 * and read back object by object.
 *
 * A record is an object from column names to values, possibly with other names besides. Bodies are
 * texts: what is printed holds no lone surrogate, so UTF-8 carries it unchanged. `ends` are the units
 * besides line feed and carriage return at which the line reader breaks lines; Node's takes U+2028
 * and U+2029 for line ends, which JSON prints as they are.
 */
module Ndjson {
  import opened Prelude
  import opened Utf16
  import opened Json

  const LF: Unit := 0x0A
  const CR: Unit := 0x0D

  type Record = Object

  const CAPTURED: seq<string> := [
    "event_id", "occurred_at", "tenant_id", "link_id", "slug", "visitor_hash", "http_method", "user_agent", "referer"]
  const HEADERS: seq<string> := [
    "accept", "accept_language", "sec_fetch_site", "sec_fetch_mode", "sec_fetch_dest", "sec_fetch_user", "sec_purpose"]
  const HINTS: seq<string> := [
    "sec_ch_ua", "sec_ch_ua_mobile", "sec_ch_ua_platform", "purpose", "x_purpose", "x_moz", "country", "asn"]
  const DERIVED: seq<string> := [
    "browser", "browser_version", "os", "device_type", "source_platform", "is_in_app", "dest_host"]

  /** The columns of a line, in the order in which they are written. */
  const COLUMNS: seq<string> := CAPTURED + HEADERS + HINTS + DERIVED

  function Units(s: string): Text { seq(|s|, i requires 0 <= i < |s| => (s[i] as int) % 0x1_0000) }

  // ---------------------------------------------------------------------------------------------
  // Writing
  // ---------------------------------------------------------------------------------------------

  /** `toLogLine`: the listed columns in order, and nothing else of the object. */
  function Members(columns: seq<string>, e: Record): Pairs {
    if columns == [] then []
    else (if Units(columns[0]) in e then [(Units(columns[0]), e[Units(columns[0])])] else []) + Members(columns[1..], e)
  }

  function SerializeEvent(e: Record): Text { PrintObject(Members(COLUMNS, e)) }

  function SerializeBatch(events: seq<Record>): Text {
    if events == [] then [] else SerializeEvent(events[0]) + [LF] + SerializeBatch(events[1..])
  }

  predicate IsColumn(columns: seq<string>, name: Text) { exists i :: 0 <= i < |columns| && Units(columns[i]) == name }

  function Among(columns: seq<string>, e: Record): Record { map name | name in e && IsColumn(columns, name) :: e[name] }

  /** The record without anything that is not a column. */
  function Allowed(e: Record): Record { Among(COLUMNS, e) }

  lemma AmongFirst(columns: seq<string>, e: Record)
    requires columns != []
    ensures var name := Units(columns[0]);
            Among(columns, e) == (if name in e then map[name := e[name]] else map[]) + Among(columns[1..], e)
  {
    var name := Units(columns[0]);
    var rest := Among(columns[1..], e);
    var whole := (if name in e then map[name := e[name]] else map[]) + rest;
    forall n ensures IsColumn(columns, n) <==> n == name || IsColumn(columns[1..], n) { ColumnSplit(columns, n); }
    assert Among(columns, e).Keys == whole.Keys;
  }

  lemma {:induction false} MembersAreAmong(columns: seq<string>, e: Record)
    ensures FromPairs(Members(columns, e)) == Among(columns, e)
  {
    if columns != [] {
      var name, rest := Units(columns[0]), columns[1..];
      MembersAreAmong(rest, e);
      AmongFirst(columns, e);
      if name in e {
        var ps := Members(columns, e);
        assert ps == [(name, e[name])] + Members(rest, e) && ps[1..] == Members(rest, e);
      } else {
        assert Members(columns, e) == Members(rest, e);
        assert map[] + Among(rest, e) == Among(rest, e);
      }
    }
  }

  lemma ColumnSplit(columns: seq<string>, n: Text)
    requires columns != []
    ensures IsColumn(columns, n) <==> n == Units(columns[0]) || IsColumn(columns[1..], n)
  {
    if i :| 0 <= i < |columns[1..]| && Units(columns[1..][i]) == n { assert Units(columns[i + 1]) == n; }
    if i :| 0 < i < |columns| && Units(columns[i]) == n { assert Units(columns[1..][i - 1]) == n; }
  }

  /** A line reads back as the record restricted to the 31 columns: nothing else can reach the log. */
  lemma LineReadsBack(e: Record)
    ensures |COLUMNS| == 31
    ensures ReadObject(SerializeEvent(e)) == Some((Allowed(e), []))
  {
    ObjectReadsBack(Members(COLUMNS, e), []);
    MembersAreAmong(COLUMNS, e);
    assert SerializeEvent(e) + [] == SerializeEvent(e);
  }

  // ---------------------------------------------------------------------------------------------
  // Reading one object
  // ---------------------------------------------------------------------------------------------

  type Ends = set<Unit>

  predicate IsEnd(u: Unit, ends: Ends) { u == LF || u == CR || u in ends }

  /** Where the first line ends. */
  function FirstEnd(t: Text, ends: Ends): (i: nat)
    ensures i <= |t| && (i < |t| ==> IsEnd(t[i], ends)) && forall j :: 0 <= j < i ==> !IsEnd(t[j], ends)
  {
    if t == [] || IsEnd(t[0], ends) then 0 else 1 + FirstEnd(t[1..], ends)
  }

  /** A carriage return and a line feed together end one line. */
  function EndWidth(t: Text, i: nat): nat
    requires i < |t|
  {
    if t[i] == CR && i + 1 < |t| && t[i + 1] == LF then 2 else 1
  }

  /** The lines that the reader yields; an end at the very end yields no further line. */
  function Lines(t: Text, ends: Ends): seq<Text>
    decreases |t|
  {
    if t == [] then []
    else
      var i := FirstEnd(t, ends);
      if i == |t| then [t] else [t[..i]] + Lines(t[i + EndWidth(t, i)..], ends)
  }

  /** A batch is its records' lines in order, each ended by one line feed and holding none. */
  lemma {:induction false} TextOfABatch(events: seq<Record>, e: Record)
    ensures SerializeBatch([]) == []
    ensures SerializeBatch(events + [e]) == SerializeBatch(events) + SerializeEvent(e) + [10]
    ensures forall u :: u in SerializeEvent(e) ==> u >= 32
    decreases |events|
  {
    LineHasNoControls(e);
    hide SerializeEvent;
    if events == [] {
      assert [e][1..] == [] && events + [e] == [e];
      assert SerializeBatch([e]) == SerializeEvent(e) + [LF] + SerializeBatch([]);
    } else {
      assert (events + [e])[0] == events[0] && (events + [e])[1..] == events[1..] + [e];
      TextOfABatch(events[1..], e);
      var first := SerializeEvent(events[0]) + [LF];
      assert first + (SerializeBatch(events[1..]) + SerializeEvent(e) + [10])
        == (first + SerializeBatch(events[1..])) + SerializeEvent(e) + [10];
    }
  }

  lemma LineHasNoControls(e: Record)
    ensures forall u :: u in SerializeEvent(e) ==> u >= 32
  {
    ObjectIsClean(Members(COLUMNS, e));
  }

  datatype LineError = NotJson | NotAnObject

  function ParseLoggedEventLine(line: Text): Result<Record, LineError> {
    match ReadObject(line)
    case Some((o, rest)) => if rest == [] then Ok(o) else Err(NotJson)
    case None =>
      match ReadValue(line)
      case Some((v, rest)) => if rest == [] then Err(NotAnObject) else Err(NotJson)
      case None => Err(NotJson)
  }

  /**
   * A line that is JSON but no object is told apart from one that is not JSON: a value by itself is no
   * record, and neither it nor an object may be followed by anything.
   */
  lemma LineErrors(v: Value, e: Record, rest: Text)
    requires rest != [] && !IsDigit(rest[0])
    ensures ParseLoggedEventLine(PrintValue(v)) == Err(NotAnObject)
    ensures ParseLoggedEventLine(PrintValue(v) + rest) == Err(NotJson)
    ensures ParseLoggedEventLine(SerializeEvent(e)) == Ok(Allowed(e))
    ensures ParseLoggedEventLine(SerializeEvent(e) + rest) == Err(NotJson)
  {
    ValueReadsBack(v, []);
    ValueReadsBack(v, rest);
    ValueOpensNothing(v);
    LineReadsBack(e);
    ObjectReadsBack(Members(COLUMNS, e), rest);
    MembersAreAmong(COLUMNS, e);
    assert PrintValue(v) + [] == PrintValue(v);
    assert (PrintValue(v) + rest)[0] == PrintValue(v)[0];
  }

  lemma ValueOpensNothing(v: Value)
    ensures PrintValue(v) != [] && PrintValue(v)[0] != OPEN
  {
    if v.Num? { TextOfANumber(if v.n < 0 then -v.n else v.n); }
  }

  datatype StreamError =
    | BadLine(lineNumber: nat, error: LineError)
    | NoContinuation

  /** What a generator yields, and the error it ends with if it does not end well. */
  datatype Emitted = Emitted(records: seq<Record>, error: Option<StreamError>)

  /** `yield*` one and then the other; an error ends it. */
  function Then(a: Emitted, b: Emitted): Emitted {
    if a.error.Some? then a else Emitted(a.records + b.records, b.error)
  }

  /** The records of the lines from number `n` on; empty lines are skipped, the first bad one ends it. */
  function RecordsOf(lines: seq<Text>, n: nat): Emitted
    decreases |lines|
  {
    if lines == [] then Emitted([], None)
    else if lines[0] == [] then RecordsOf(lines[1..], n + 1)
    else
      match ParseLoggedEventLine(lines[0])
      case Err(error) => Emitted([], Some(BadLine(n, error)))
      case Ok(record) => Then(Emitted([record], None), RecordsOf(lines[1..], n + 1))
  }

  /** The records read so far, followed by those of the lines still to come, from number `n` on. */
  function Continued(records: seq<Record>, lines: seq<Text>, n: nat): Emitted {
    Then(Emitted(records, None), RecordsOf(lines, n))
  }

  lemma NextLine(records: seq<Record>, line: Text, lines: seq<Text>, n: nat)
    ensures line == [] ==> Continued(records, [line] + lines, n) == Continued(records, lines, n + 1)
    ensures line != [] && ParseLoggedEventLine(line).Ok? ==>
              Continued(records, [line] + lines, n)
                == Continued(records + [ParseLoggedEventLine(line).value], lines, n + 1)
    ensures line != [] && ParseLoggedEventLine(line).Err? ==>
              Continued(records, [line] + lines, n)
                == Emitted(records, Some(BadLine(n, ParseLoggedEventLine(line).error)))
  {
    hide ParseLoggedEventLine;
    assert ([line] + lines)[1..] == lines;
    if line != [] {
      match ParseLoggedEventLine(line)
      case Ok(record) => Reassociate(records, record, RecordsOf(lines, n + 1).records);
      case Err(_) => assert records + [] == records;
    }
  }

  lemma Reassociate(a: seq<Record>, r: Record, b: seq<Record>)
    ensures a + ([r] + b) == (a + [r]) + b
  {
  }

  lemma LinesFirst(t: Text, ends: Ends)
    requires t != []
    ensures var i := FirstEnd(t, ends);
            Lines(t, ends) == [t[..i]] + Lines(if i == |t| then [] else t[i + EndWidth(t, i)..], ends)
  {
    assert t[..|t|] == t && Lines([], ends) == [];
  }

  /** The loop over the lines of one object. */
  method StreamRecordsFromObject(body: Text, ends: Ends) returns (r: Emitted)
    ensures r == RecordsOf(Lines(body, ends), 1)
  {
    var records: seq<Record> := [];
    var rest := body;
    var lineNumber: nat := 0;
    AtStart(Lines(body, ends));
    while rest != []
      invariant Continued(records, Lines(rest, ends), lineNumber + 1) == RecordsOf(Lines(body, ends), 1)
      decreases |rest|
    {
      var i := FirstEnd(rest, ends);
      var line := rest[..i];
      LinesFirst(rest, ends);
      rest := if i == |rest| then [] else rest[i + EndWidth(rest, i)..];
      lineNumber := lineNumber + 1;
      NextLine(records, line, Lines(rest, ends), lineNumber);
      if |line| != 0 {
        var parsed := ParseLoggedEventLine(line);
        if parsed.Err? {
          return Emitted(records, Some(BadLine(lineNumber, parsed.error)));
        }
        records := records + [parsed.value];
      }
    }
    assert records + [] == records;
    return Emitted(records, None);
  }

  lemma AtStart(lines: seq<Text>)
    ensures Continued([], lines, 1) == RecordsOf(lines, 1)
  {
    assert [] + RecordsOf(lines, 1).records == RecordsOf(lines, 1).records;
  }

  // ---------------------------------------------------------------------------------------------
  // The round trip of one object
  // ---------------------------------------------------------------------------------------------

  /** The line holds no unit at which the reader would break it. */
  predicate Unbroken(line: Text, ends: Ends) { forall i :: 0 <= i < |line| ==> !IsEnd(line[i], ends) }

  function AllowedAll(events: seq<Record>): seq<Record> { Map(Allowed, events) }

  lemma FirstLine(line: Text, rest: Text, ends: Ends)
    requires Unbroken(line, ends)
    ensures FirstEnd(line + [LF] + rest, ends) == |line|
    ensures Lines(line + [LF] + rest, ends) == [line] + Lines(rest, ends)
  {
    var t := line + [LF] + rest;
    var i := FirstEnd(t, ends);
    assert t[|line|] == LF && IsEnd(t[|line|], ends);
    assert forall j :: 0 <= j < |line| ==> t[j] == line[j];
    assert i == |line|;
    assert t[..i] == line && t[i + 1..] == rest;
  }

  lemma LineParses(e: Record)
    ensures SerializeEvent(e) != [] && ParseLoggedEventLine(SerializeEvent(e)) == Ok(Allowed(e))
  {
    LineReadsBack(e);
  }

  /** A whole line in front of a body, for the reader. */
  lemma LineInFront(line: Text, rest: Text, ends: Ends, n: nat)
    requires line != [] && Unbroken(line, ends) && ParseLoggedEventLine(line).Ok?
    ensures RecordsOf(Lines(line + [LF] + rest, ends), n)
      == Continued([ParseLoggedEventLine(line).value], Lines(rest, ends), n + 1)
  {
    hide ParseLoggedEventLine;
    FirstLine(line, rest, ends);
    assert ([line] + Lines(rest, ends))[1..] == Lines(rest, ends);
  }

  lemma {:induction false} UnbrokenLinesReadBack(events: seq<Record>, ends: Ends, n: nat)
    requires forall i :: 0 <= i < |events| ==> Unbroken(SerializeEvent(events[i]), ends)
    ensures RecordsOf(Lines(SerializeBatch(events), ends), n) == Emitted(AllowedAll(events), None)
    decreases |events|
  {
    if events != [] {
      GoodFirst(events, ends, n);
      UnbrokenLinesReadBack(events[1..], ends, n + 1);
      AllowedFirst(events);
    }
  }

  lemma AllowedFirst(events: seq<Record>)
    requires events != []
    ensures AllowedAll(events) == [Allowed(events[0])] + AllowedAll(events[1..])
  {
  }

  /** What is left of a line cut short is no object: the reader reports it instead of losing anything silently. */
  lemma CutLineFails(e: Record, i: nat)
    requires 0 < i < |SerializeEvent(e)|
    ensures ParseLoggedEventLine(SerializeEvent(e)[..i]).Err?
  {
    LineReadsBack(e);
    CutIsNoObject(SerializeEvent(e), i);
  }

  lemma CutIsNoObject(line: Text, i: nat)
    requires 0 < i < |line| && ReadObject(line).Some? && ReadObject(line).value.1 == []
    ensures ParseLoggedEventLine(line[..i]).Err?
  {
    assert line[..i] + line[i..] == line;
    CutReadsOn(line[..i], line[i..]);
  }

  lemma CutReadsOn(a: Text, b: Text)
    requires b != [] && ReadObject(a + b).Some? && ReadObject(a + b).value.1 == []
    ensures ReadObject(a).None? || ReadObject(a).value.1 != []
  {
    hide ReadObject;
    if ReadObject(a).Some? { ObjectExtends(a, b); }
  }

  lemma {:induction false} BrokenLineFails(events: seq<Record>, ends: Ends, n: nat, k: nat)
    requires k < |events| && !Unbroken(SerializeEvent(events[k]), ends)
    requires forall i :: 0 <= i < k ==> Unbroken(SerializeEvent(events[i]), ends)
    requires forall u :: u in ends ==> u >= 0x80
    ensures RecordsOf(Lines(SerializeBatch(events), ends), n).error.Some?
    decreases k
  {
    if k > 0 {
      GoodFirst(events, ends, n);
      ShiftUnbroken(events, ends, k);
      BrokenLineFails(events[1..], ends, n + 1, k - 1);
    } else {
      BadFirst(events, ends, n);
    }
  }

  lemma ShiftUnbroken(events: seq<Record>, ends: Ends, k: nat)
    requires 0 < k < |events| && forall i :: 0 <= i < k ==> Unbroken(SerializeEvent(events[i]), ends)
    ensures events[1..][k - 1] == events[k] && forall i :: 0 <= i < k - 1 ==>
      Unbroken(SerializeEvent(events[1..][i]), ends)
  {
    forall i | 0 <= i < k - 1
      ensures Unbroken(SerializeEvent(events[1..][i]), ends)
    {
      assert events[1..][i] == events[i + 1];
    }
  }

  lemma GoodFirst(events: seq<Record>, ends: Ends, n: nat)
    requires events != [] && Unbroken(SerializeEvent(events[0]), ends)
    ensures RecordsOf(Lines(SerializeBatch(events), ends), n)
      == Continued([Allowed(events[0])], Lines(SerializeBatch(events[1..]), ends), n + 1)
  {
    LineParses(events[0]);
    LineInFront(SerializeEvent(events[0]), SerializeBatch(events[1..]), ends, n);
  }

  lemma BadFirst(events: seq<Record>, ends: Ends, n: nat)
    requires events != [] && !Unbroken(SerializeEvent(events[0]), ends) && forall u :: u in ends ==> u >= 0x80
    ensures RecordsOf(Lines(SerializeBatch(events), ends), n).error.Some?
  {
    BreaksAt(events[0], SerializeBatch(events[1..]), ends, n);
  }

  lemma BreaksAt(e: Record, rest: Text, ends: Ends, n: nat)
    requires !Unbroken(SerializeEvent(e), ends) && forall u :: u in ends ==> u >= 0x80
    ensures RecordsOf(Lines(SerializeEvent(e) + [LF] + rest, ends), n).error.Some?
  {
    StartsWithBrace(e);
    FirstCut(SerializeEvent(e), rest, ends);
    var t := SerializeEvent(e) + [LF] + rest;
    CutLineFails(e, FirstEnd(t, ends));
    FirstLineBad(Lines(t, ends), n);
  }

  lemma StartsWithBrace(e: Record)
    ensures SerializeEvent(e) != [] && SerializeEvent(e)[0] == OPEN
  {
  }

  lemma FirstLineBad(lines: seq<Text>, n: nat)
    requires lines != [] && lines[0] != [] && ParseLoggedEventLine(lines[0]).Err?
    ensures RecordsOf(lines, n).error.Some?
  {
  }

  lemma FirstCut(line: Text, rest: Text, ends: Ends)
    requires !Unbroken(line, ends) && line != [] && line[0] == OPEN
    requires forall u :: u in ends ==> u >= 0x80
    ensures var i := FirstEnd(line + [LF] + rest, ends);
            0 < i < |line| && Lines(line + [LF] + rest, ends)[0] == line[..i]
  {
    var t := line + [LF] + rest;
    var i := FirstEnd(t, ends);
    var j :| 0 <= j < |line| && IsEnd(line[j], ends);
    assert t[j] == line[j] && t[0] == OPEN;
    assert t[..i] == line[..i];
  }

  /** The first number below `n` with a property. */
  lemma {:induction false} First(n: nat, p: nat -> bool) returns (k: nat)
    requires exists i: nat :: i < n && p(i)
    ensures k < n && p(k) && forall i: nat :: i < k ==> !p(i)
  {
    if n > 1 && exists i: nat :: i < n - 1 && p(i) {
      k := First(n - 1, p);
    } else {
      k := n - 1;
    }
  }

  /** A printed line never holds a line feed or a carriage return; it can hold one of the other ends. */
  lemma PrintedLineBreaksOnlyAtEnds(e: Record, ends: Ends)
    ensures Unbroken(SerializeEvent(e), ends) <==> forall i :: 0 <= i < |SerializeEvent(e)| ==>
      SerializeEvent(e)[i] !in ends
    ensures !HasLoneSurrogate(SerializeEvent(e))
  {
    ObjectIsClean(Members(COLUMNS, e));
  }

  /** By the printed lines: the batch comes back exactly, or an error is reported. */
  lemma RoundTripByLines(events: seq<Record>, ends: Ends)
    requires forall u :: u in ends ==> u >= 0x80
    ensures AllUnbroken(events, ends) ==>
      RecordsOf(Lines(SerializeBatch(events), ends), 1) == Emitted(AllowedAll(events), None)
    ensures !AllUnbroken(events, ends) ==> RecordsOf(Lines(SerializeBatch(events), ends), 1).error.Some?
  {
    if AllUnbroken(events, ends) {
      UnbrokenLinesReadBack(events, ends, 1);
    } else {
      var broken := (i: nat) => i < |events| && !Unbroken(SerializeEvent(events[i]), ends);
      var j :| 0 <= j < |events| && !Unbroken(SerializeEvent(events[j]), ends);
      assert broken(j);
      var k := First(|events|, broken);
      forall i | 0 <= i < k ensures Unbroken(SerializeEvent(events[i]), ends) { assert !broken(i); }
      BrokenLineFails(events, ends, 1, k);
    }
  }

  predicate AllUnbroken(events: seq<Record>, ends: Ends) {
    forall i :: 0 <= i < |events| ==> Unbroken(SerializeEvent(events[i]), ends)
  }

  // ---------------------------------------------------------------------------------------------
  // Which units a line holds
  // ---------------------------------------------------------------------------------------------

  /** A unit that JSON prints as it is, other than the ASCII ones. */
  predicate Verbatim(u: Unit) { u >= 0x80 && !IsSurrogate(u) }

  lemma {:induction false} EscapeHolds(s: Text, u: Unit)
    requires Verbatim(u)
    ensures u in Escape(s) <==> u in s
    decreases |s|
  {
    if s != [] {
      var w := Width(s);
      assert s == s[..w] + s[w..];
      HeadHolds(s, u);
      EscapeHolds(s[w..], u);
    }
  }

  lemma HeadHolds(s: Text, u: Unit)
    requires s != [] && Verbatim(u)
    ensures u in EscapeHead(s) <==> u in s[..Width(s)]
  {
  }

  lemma QuoteHolds(s: Text, u: Unit)
    requires Verbatim(u)
    ensures u in Quote(s) <==> u in s
  {
    EscapeHolds(s, u);
  }

  /** The value is a string with this unit in it. */
  predicate StringWith(v: Value, u: Unit) { v.Str? && u in v.s }

  lemma ValueHolds(v: Value, u: Unit)
    requires Verbatim(u)
    ensures u in PrintValue(v) <==> StringWith(v, u)
  {
    match v
    case Str(s) => QuoteHolds(s, u);
    case Num(n) => NatIsAscii(if n < 0 then -n else n);
    case _ =>
  }

  /** Neither the names nor the punctuation of these members hold the unit. */
  predicate NamesWithout(ps: Pairs, u: Unit) { forall p :: p in ps ==> u !in p.0 }

  lemma PairHolds(p: (Text, Value), u: Unit)
    requires Verbatim(u) && u !in p.0
    ensures u in PrintPair(p) <==> StringWith(p.1, u)
  {
    hide Quote, PrintValue;
    QuoteHolds(p.0, u);
    ValueHolds(p.1, u);
  }

  lemma {:induction false} PairsHold(ps: Pairs, u: Unit)
    requires Verbatim(u) && NamesWithout(ps, u)
    ensures u in PrintPairs(ps) <==> exists p :: p in ps && StringWith(p.1, u)
    decreases |ps|
  {
    hide PrintPair;
    if ps != [] {
      var rest := ps[1..];
      assert ps == [ps[0]] + rest;
      PairHolds(ps[0], u);
      PairsHold(rest, u);
      assert u in PrintPairs(ps) <==> u in PrintPair(ps[0]) || u in PrintPairs(rest);
    }
  }

  lemma {:induction false} MembersHold(columns: seq<string>, e: Record, name: Text, v: Value)
    ensures (name, v) in Members(columns, e) <==> name in Among(columns, e) && Among(columns, e)[name] == v
    decreases |columns|
  {
    if columns != [] {
      MembersHold(columns[1..], e, name, v);
      ColumnSplit(columns, name);
    }
  }

  predicate AsciiName(s: string) { forall j :: 0 <= j < |s| ==> s[j] < 0x80 as char }

  predicate AllAscii(names: seq<string>) { forall i :: 0 <= i < |names| ==> AsciiName(names[i]) }

  lemma AsciiCaptured()
    ensures AllAscii(CAPTURED)
  {
    assert AsciiName("event_id");
    assert AsciiName("occurred_at");
    assert AsciiName("tenant_id");
    assert AsciiName("link_id");
    assert AsciiName("slug");
    assert AsciiName("visitor_hash");
    assert AsciiName("http_method");
    assert AsciiName("user_agent");
    assert AsciiName("referer");
  }

  lemma AsciiHeaders()
    ensures AllAscii(HEADERS)
  {
    assert AsciiName("accept");
    assert AsciiName("accept_language");
    assert AsciiName("sec_fetch_site");
    assert AsciiName("sec_fetch_mode");
    assert AsciiName("sec_fetch_dest");
    assert AsciiName("sec_fetch_user");
    assert AsciiName("sec_purpose");
  }

  lemma AsciiHints()
    ensures AllAscii(HINTS)
  {
    assert AsciiName("sec_ch_ua");
    assert AsciiName("sec_ch_ua_mobile");
    assert AsciiName("sec_ch_ua_platform");
    assert AsciiName("purpose");
    assert AsciiName("x_purpose");
    assert AsciiName("x_moz");
    assert AsciiName("country");
    assert AsciiName("asn");
  }

  lemma AsciiDerived()
    ensures AllAscii(DERIVED)
  {
    assert AsciiName("browser");
    assert AsciiName("browser_version");
    assert AsciiName("os");
    assert AsciiName("device_type");
    assert AsciiName("source_platform");
    assert AsciiName("is_in_app");
    assert AsciiName("dest_host");
  }

  lemma AsciiJoin(a: seq<string>, b: seq<string>)
    requires AllAscii(a) && AllAscii(b)
    ensures AllAscii(a + b)
  {
  }

  lemma AsciiColumns()
    ensures AllAscii(COLUMNS)
  {
    hide CAPTURED, HEADERS, HINTS, DERIVED, AsciiName;
    AsciiCaptured();
    AsciiHeaders();
    AsciiHints();
    AsciiDerived();
    AsciiJoin(CAPTURED, HEADERS);
    AsciiJoin(CAPTURED + HEADERS, HINTS);
    AsciiJoin(CAPTURED + HEADERS + HINTS, DERIVED);
  }

  /** No name among ASCII ones holds a unit beyond ASCII. */
  lemma AsciiNames(columns: seq<string>, name: Text, u: Unit)
    requires AllAscii(columns) && IsColumn(columns, name) && u >= 0x80
    ensures u !in name
  {
    var i :| 0 <= i < |columns| && Units(columns[i]) == name;
    assert AsciiName(columns[i]);
    assert forall j :: 0 <= j < |columns[i]| ==> columns[i][j] < 0x80 as char;
  }

  /** The unit is in the text of some logged column of the record. */
  ghost predicate Logs(e: Record, u: Unit) {
    exists name :: name in Allowed(e) && StringWith(Allowed(e)[name], u)
  }

  /** A line holds such a unit exactly when a logged column of its record does. */
  lemma LineHolds(e: Record, u: Unit)
    requires Verbatim(u)
    ensures u in SerializeEvent(e) <==> Logs(e, u)
  {
    hide PrintPairs, Members;
    var ps := Members(COLUMNS, e);
    AsciiColumns();
    forall p | p in ps ensures u !in p.0 {
      MembersHold(COLUMNS, e, p.0, p.1);
      AsciiNames(COLUMNS, p.0, u);
    }
    PairsHold(ps, u);
    if p :| p in ps && StringWith(p.1, u) {
      MembersHold(COLUMNS, e, p.0, p.1);
      assert StringWith(Allowed(e)[p.0], u);
    }
    if name :| name in Allowed(e) && StringWith(Allowed(e)[name], u) {
      MembersHold(COLUMNS, e, name, Allowed(e)[name]);
      assert StringWith((name, Allowed(e)[name]).1, u);
    }
  }

  /** No logged column holds a unit at which the reader breaks lines. */
  ghost predicate Loggable(e: Record, ends: Ends) { forall u :: u in ends ==> !Logs(e, u) }

  lemma LoggableMeansUnbroken(e: Record, ends: Ends)
    requires forall u :: u in ends ==> Verbatim(u)
    ensures Unbroken(SerializeEvent(e), ends) <==> Loggable(e, ends)
  {
    hide SerializeEvent, Logs;
    PrintedLineBreaksOnlyAtEnds(e, ends);
    var line := SerializeEvent(e);
    forall u | u in ends ensures u in line <==> Logs(e, u) { LineHolds(e, u); }
    if i :| 0 <= i < |line| && line[i] in ends { assert Logs(e, line[i]); }
    if u :| u in ends && Logs(e, u) { assert u in line; }
  }

  /**
   * Reading a batch back yields exactly its records, in order, if and only if no string in a logged
   * column of any of them holds a unit, other than line feed and carriage return, at which the line
   * reader breaks lines; otherwise an error is reported. With a reader that breaks at those two only,
   * always. `ends` are units that JSON prints as they are.
   */
  lemma RoundTripIsExact(events: seq<Record>, ends: Ends)
    requires forall u :: u in ends ==> Verbatim(u)
    ensures RecordsOf(Lines(SerializeBatch(events), ends), 1) == Emitted(AllowedAll(events), None) <==>
      forall i :: 0 <= i < |events| ==> Loggable(events[i], ends)
    ensures RecordsOf(Lines(SerializeBatch(events), ends), 1).error.Some? <==>
      exists i :: 0 <= i < |events| && !Loggable(events[i], ends)
  {
    hide RecordsOf, Lines, SerializeBatch, Unbroken, Loggable, SerializeEvent;
    forall i | 0 <= i < |events| ensures Unbroken(SerializeEvent(events[i]), ends) <==> Loggable(events[i], ends) {
      LoggableMeansUnbroken(events[i], ends);
    }
    RoundTripByLines(events, ends);
  }

  /** A record with U+2028 anywhere in its `user_agent` does not come back from a reader that breaks lines there. */
  lemma LineSeparatorBreaksTheLog(e: Record)
    requires Units("user_agent") in e && StringWith(e[Units("user_agent")], 0x2028)
    ensures RecordsOf(Lines(SerializeBatch([e]), {0x2028, 0x2029}), 1).error.Some?
  {
    hide RecordsOf, Lines, SerializeBatch;
    assert COLUMNS[7] == "user_agent";
    assert Units("user_agent") in Allowed(e);
    assert Logs(e, 0x2028);
    assert !Loggable([e][0], {0x2028, 0x2029});
    RoundTripIsExact([e], {0x2028, 0x2029});
  }
}
