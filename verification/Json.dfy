/**
 * The JSON that one line of the event log uses (section 7 of RFC 8259 for strings): a flat object of
 * strings, whole numbers, booleans and null, printed the way `JSON.stringify` prints it and read the
 * way `JSON.parse` reads it. Arrays, nested objects, fractions and white space between tokens do not
 * occur in printed lines and are read as errors here.
 */
module Json {
  import opened Prelude
  import opened Utf16

  const QUOTE: Unit := 0x22
  const BACKSLASH: Unit := 0x5C
  const COLON: Unit := 0x3A
  const COMMA: Unit := 0x2C
  const OPEN: Unit := 0x7B
  const CLOSE: Unit := 0x7D
  const MINUS: Unit := 0x2D
  const LETTER_U: Unit := 0x75

  datatype Value = Null | Bool(b: bool) | Num(n: int) | Str(s: Text)

  // ---------------------------------------------------------------------------------------------
  // Strings
  // ---------------------------------------------------------------------------------------------

  /** The letter after the backslash for a unit that has a short escape. */
  function ShortEscape(u: Unit): Option<Unit> {
    if u == QUOTE then Some(QUOTE)
    else if u == BACKSLASH then Some(BACKSLASH)
    else if u == 0x08 then Some(0x62)
    else if u == 0x0C then Some(0x66)
    else if u == 0x0A then Some(0x6E)
    else if u == 0x0D then Some(0x72)
    else if u == 0x09 then Some(0x74)
    else None
  }

  /** What the reader makes of the letter after a backslash, other than `u`. */
  function Unescape(u: Unit): Option<Unit> {
    if u == QUOTE || u == BACKSLASH || u == 0x2F then Some(u)
    else if u == 0x62 then Some(0x08)
    else if u == 0x66 then Some(0x0C)
    else if u == 0x6E then Some(0x0A)
    else if u == 0x72 then Some(0x0D)
    else if u == 0x74 then Some(0x09)
    else None
  }

  function UnicodeEscape(u: Unit): Text {
    [BACKSLASH, LETTER_U, HexDigit(u / 4096, LOWER_A), HexDigit(u / 256 % 16, LOWER_A), HexDigit(u / 16 % 16, LOWER_A),
      HexDigit(u % 16, LOWER_A)]
  }

  function FourHex(t: Text): Option<Unit>
    requires |t| == 4
  {
    var a, b, c, d := HexValue(t[0]), HexValue(t[1]), HexValue(t[2]), HexValue(t[3]);
    if a.None? || b.None? || c.None? || d.None? then None
    else UnitOf(4096 * a.value + 256 * b.value + 16 * c.value + d.value)
  }

  function UnitOf(n: int): Option<Unit> { if 0 <= n < 0x1_0000 then Some(n) else None }

  /** The text printed for the first code point: pairs stay, lone surrogates and control units are escaped. */
  function EscapeHead(s: Text): Text
    requires s != []
  {
    if StartsWithPair(s) then s[..2]
    else if ShortEscape(s[0]).Some? then [BACKSLASH, ShortEscape(s[0]).value]
    else if s[0] < 0x20 || IsSurrogate(s[0]) then UnicodeEscape(s[0])
    else [s[0]]
  }

  function Escape(s: Text): Text
    decreases |s|
  {
    if s == [] then [] else EscapeHead(s) + Escape(s[Width(s)..])
  }

  function Quote(s: Text): Text { [QUOTE] + Escape(s) + [QUOTE] }

  /** The first unit of a string's text, read, and where it ends; `None` at an error. */
  function ReadUnit(t: Text): Option<(Unit, Text)>
    requires t != []
  {
    if t[0] < 0x20 then None
    else if t[0] != BACKSLASH then Some((t[0], t[1..]))
    else if |t| < 2 then None
    else if t[1] != LETTER_U then
      match Unescape(t[1])
      case None => None
      case Some(u) => Some((u, t[2..]))
    else if |t| < 6 then None
    else
      match FourHex(t[2..6])
      case None => None
      case Some(u) => Some((u, t[6..]))
  }

  /** The text after the opening quote: the string and what follows the closing quote. */
  function ReadString(t: Text): Option<(Text, Text)>
    decreases |t|
  {
    if t == [] then None
    else if t[0] == QUOTE then Some(([], t[1..]))
    else
      match ReadUnit(t)
      case None => None
      case Some((u, rest)) =>
        match ReadString(rest)
        case None => None
        case Some((s, more)) => Some(([u] + s, more))
  }

  // ---------------------------------------------------------------------------------------------
  // Values and objects
  // ---------------------------------------------------------------------------------------------

  function Digit(n: int): Unit
    requires 0 <= n < 10
  {
    0x30 + n
  }

  predicate IsDigit(u: Unit) { 0x30 <= u <= 0x39 }

  function PrintNat(n: nat): Text {
    if n < 10 then [Digit(n)] else PrintNat(n / 10) + [Digit(n % 10)]
  }

  /** Digits, greedily. */
  function ReadDigits(t: Text, sofar: nat): (nat, Text)
    decreases |t|
  {
    if t == [] || !IsDigit(t[0]) then (sofar, t) else ReadDigits(t[1..], 10 * sofar + (t[0] as int - 0x30))
  }

  /** No leading zeros. */
  function ReadNat(t: Text): Option<(nat, Text)> {
    if t == [] || !IsDigit(t[0]) then None
    else if t[0] == 0x30 then Some((0, t[1..]))
    else Some(ReadDigits(t, 0))
  }

  const TRUE: Text := [0x74, 0x72, 0x75, 0x65]
  const FALSE: Text := [0x66, 0x61, 0x6C, 0x73, 0x65]
  const NULL: Text := [0x6E, 0x75, 0x6C, 0x6C]

  function PrintValue(v: Value): Text {
    match v
    case Null => NULL
    case Bool(b) => if b then TRUE else FALSE
    case Num(n) => if n < 0 then [MINUS] + PrintNat(-n) else PrintNat(n)
    case Str(s) => Quote(s)
  }

  function ReadValue(t: Text): Option<(Value, Text)> {
    if t == [] then None
    else if t[0] == QUOTE then
      match ReadString(t[1..])
      case None => None
      case Some((s, rest)) => Some((Str(s), rest))
    else if t[0] == MINUS then
      match ReadNat(t[1..])
      case None => None
      case Some((n, rest)) => Some((Num(-(n as int)), rest))
    else if IsDigit(t[0]) then
      match ReadNat(t)
      case None => None
      case Some((n, rest)) => Some((Num(n), rest))
    else if TRUE <= t then Some((Bool(true), t[4..]))
    else if FALSE <= t then Some((Bool(false), t[5..]))
    else if NULL <= t then Some((Null, t[4..]))
    else None
  }

  type Pairs = seq<(Text, Value)>
  type Object = map<Text, Value>

  function PrintPair(p: (Text, Value)): Text { Quote(p.0) + [COLON] + PrintValue(p.1) }

  function PrintPairs(ps: Pairs): Text {
    if ps == [] then [] else if |ps| == 1 then PrintPair(ps[0]) else PrintPair(ps[0]) + [COMMA] + PrintPairs(ps[1..])
  }

  function PrintObject(ps: Pairs): Text { [OPEN] + PrintPairs(ps) + [CLOSE] }

  /** Of two members with one name the later counts. */
  function FromPairs(ps: Pairs): Object {
    if ps == [] then map[] else map[ps[0].0 := ps[0].1] + FromPairs(ps[1..])
  }

  function ReadPair(t: Text): Option<((Text, Value), Text)> {
    if t == [] || t[0] != QUOTE then None
    else
      match ReadString(t[1..])
      case None => None
      case Some((name, rest)) =>
        if rest == [] || rest[0] != COLON then None
        else
          match ReadValue(rest[1..])
          case None => None
          case Some((v, more)) => Some(((name, v), more))
  }

  lemma {:induction false} ReadStringShorter(t: Text)
    ensures ReadString(t).Some? ==> |ReadString(t).value.1| < |t|
    decreases |t|
  {
    if t != [] && t[0] != QUOTE && ReadUnit(t).Some? { ReadStringShorter(ReadUnit(t).value.1); }
  }

  lemma {:induction false} ReadDigitsShorter(t: Text, sofar: nat)
    ensures |ReadDigits(t, sofar).1| <= |t|
    decreases |t|
  {
    if t != [] && IsDigit(t[0]) { ReadDigitsShorter(t[1..], 10 * sofar + (t[0] as int - 0x30)); }
  }

  lemma ReadValueShorter(t: Text)
    ensures ReadValue(t).Some? ==> |ReadValue(t).value.1| <= |t|
  {
    if t != [] {
      ReadStringShorter(t[1..]);
      ReadDigitsShorter(t[1..], 0);
      ReadDigitsShorter(t, 0);
    }
  }

  lemma ReadPairShorter(t: Text)
    ensures ReadPair(t).Some? ==> |ReadPair(t).value.1| < |t|
  {
    if t != [] {
      ReadStringShorter(t[1..]);
      if ReadString(t[1..]).Some? {
        var rest := ReadString(t[1..]).value.1;
        if rest != [] { ReadValueShorter(rest[1..]); }
      }
    }
  }

  /** The members up to the closing brace. */
  function ReadMembers(t: Text): Option<(Object, Text)>
    decreases |t|
  {
    match ReadPair(t)
    case None => None
    case Some((p, rest)) =>
      ReadPairShorter(t);
      if rest == [] then None
      else if rest[0] == CLOSE then Some((map[p.0 := p.1], rest[1..]))
      else if rest[0] != COMMA then None
      else
        match ReadMembers(rest[1..])
        case None => None
        case Some((o, more)) => Some((map[p.0 := p.1] + o, more))
  }

  function ReadObject(t: Text): Option<(Object, Text)> {
    if t == [] || t[0] != OPEN then None
    else if |t| > 1 && t[1] == CLOSE then Some((map[], t[2..]))
    else ReadMembers(t[1..])
  }

  // ---------------------------------------------------------------------------------------------
  // What is printed, in numbers
  // ---------------------------------------------------------------------------------------------

  /** The single-character escapes: backspace, tab, line feed, form feed, carriage return, quote, backslash. */
  const SHORT_ESCAPES: map<int, int> :=
    map[8 := 0x62, 9 := 0x74, 10 := 0x6E, 12 := 0x66, 13 := 0x72, 0x22 := 0x22, 0x5C := 0x5C]

  predicate IsLowerHex(u: int, n: int) { 0 <= n < 16 && u == if n < 10 then 48 + n else 87 + n }

  /**
   * The escapes of `QuoteJSONString` (section 25.5.2.3 of ECMA-262): seven units have short ones, other
   * control units and lone surrogates four lower-case hexadecimal digits, and everything else stays.
   */
  lemma EscapesOfAString(s: Text)
    requires s != []
    ensures var u, t := s[0], EscapeHead(s);
            if (u as int) in SHORT_ESCAPES then t == [0x5C, SHORT_ESCAPES[u]]
            else if u < 32 || (0xD800 <= u < 0xE000 && !StartsWithPair(s)) then
              && |t| == 6 && t[..2] == [0x5C, 0x75] && IsLowerHex(t[2], u / 4096) && IsLowerHex(t[3], u / 256 % 16)
              && IsLowerHex(t[4], u / 16 % 16) && IsLowerHex(t[5], u % 16)
            else t == if StartsWithPair(s) then [s[0], s[1]] else [s[0]]
  {
  }

  /** A sign exactly below zero, and no leading zeros. */
  lemma {:induction false} TextOfANumber(n: nat)
    ensures PrintNat(n) != [] && (PrintNat(n)[0] == 0x30 <==> n == 0) && 0x30 <= PrintNat(n)[0] <= 0x39
    ensures PrintValue(Num(n)) == PrintNat(n) && (n == 0 ==> PrintNat(n) == [0x30])
    ensures n > 0 ==> PrintValue(Num(-(n as int))) == [0x2D] + PrintNat(n)
  {
    if n >= 10 { TextOfANumber(n / 10); }
  }

  /** `{"a":null,"c":-10}` */
  lemma TextOfAnObject()
    ensures PrintObject([([0x61], Null), ([0x63], Num(-10))])
      == [0x7B, 0x22, 0x61, 0x22, 0x3A, 0x6E, 0x75, 0x6C, 0x6C, 0x2C, 0x22, 0x63, 0x22, 0x3A, 0x2D, 0x31, 0x30, 0x7D]
  {
    var a, c := ([0x61], Null), ([0x63], Num(-10));
    PairTexts();
    hide PrintPair;
    assert [a, c][1..] == [c];
    assert PrintPairs([c]) == PrintPair(c);
    assert PrintPairs([a, c]) == PrintPair(a) + [0x2C] + PrintPairs([c]);
  }

  lemma PairTexts()
    ensures PrintPair(([0x61], Null)) == [0x22, 0x61, 0x22, 0x3A, 0x6E, 0x75, 0x6C, 0x6C]
    ensures PrintPair(([0x62], Bool(true))) == [0x22, 0x62, 0x22, 0x3A, 0x74, 0x72, 0x75, 0x65]
    ensures PrintPair(([0x63], Num(-10))) == [0x22, 0x63, 0x22, 0x3A, 0x2D, 0x31, 0x30]
  {
    OneLetter(0x61);
    OneLetter(0x62);
    OneLetter(0x63);
    assert PrintNat(10) == PrintNat(1) + [Digit(0)];
    hide Quote, Escape;
  }

  lemma OneLetter(u: Unit)
    requires 0x61 <= u <= 0x7A
    ensures Quote([u]) == [0x22, u, 0x22]
  {
    assert [u][1..] == [];
    assert Escape([u]) == [u] + Escape([]);
  }

  // ---------------------------------------------------------------------------------------------
  // Reading undoes printing
  // ---------------------------------------------------------------------------------------------

  lemma UnicodeReadsBack(u: Unit, rest: Text)
    ensures ReadUnit(UnicodeEscape(u) + rest) == Some((u, rest))
  {
    var t := UnicodeEscape(u) + rest;
    HexReadsBack(u / 4096, LOWER_A);
    HexReadsBack(u / 256 % 16, LOWER_A);
    HexReadsBack(u / 16 % 16, LOWER_A);
    HexReadsBack(u % 16, LOWER_A);
    assert t[2..6] == [HexDigit(u / 4096, LOWER_A), HexDigit(u / 256 % 16, LOWER_A), HexDigit(u / 16 % 16, LOWER_A),
      HexDigit(u % 16, LOWER_A)];
    assert t[6..] == rest;
    SixteenDigits(u);
  }

  lemma SixteenDigits(u: Unit)
    ensures 4096 * (u / 4096) + 256 * (u / 256 % 16) + 16 * (u / 16 % 16) + u % 16 == u
  {
    assert u / 16 / 16 == u / 256 && u / 256 / 16 == u / 4096;
  }

  /** One printed code point, read in front of anything: its units. */
  lemma HeadReadsBack(s: Text, rest: Text)
    requires s != []
    ensures var t := EscapeHead(s) + rest;
            t != [] && t[0] != QUOTE
            && if StartsWithPair(s) then ReadUnit(t) == Some((s[0], [s[1]] + rest))
              && ReadUnit([s[1]] + rest) == Some((s[1], rest))
               else ReadUnit(t) == Some((s[0], rest))
  {
    var t := EscapeHead(s) + rest;
    if StartsWithPair(s) {
      assert t[1..] == [s[1]] + rest && ([s[1]] + rest)[1..] == rest;
    } else if ShortEscape(s[0]).Some? {
      assert t[2..] == rest;
    } else if s[0] < 0x20 || IsSurrogate(s[0]) {
      UnicodeReadsBack(s[0], rest);
    } else {
      assert t[1..] == rest;
    }
  }

  lemma {:induction false} StringReadsBack(s: Text, rest: Text)
    ensures ReadString(Escape(s) + [QUOTE] + rest) == Some((s, rest))
    decreases |s|
  {
    if s == [] {
      assert Escape(s) + [QUOTE] + rest == [QUOTE] + rest;
      assert ([QUOTE] + rest)[1..] == rest;
    } else {
      var more := Escape(s[Width(s)..]) + [QUOTE] + rest;
      assert Escape(s) + [QUOTE] + rest == EscapeHead(s) + more;
      StringReadsBack(s[Width(s)..], rest);
      HeadThenRest(s, more, rest);
    }
  }

  /** A printed code point in front of text that reads as the rest of the string. */
  lemma HeadThenRest(s: Text, more: Text, rest: Text)
    requires s != [] && ReadString(more) == Some((s[Width(s)..], rest))
    ensures ReadString(EscapeHead(s) + more) == Some((s, rest))
  {
    HeadReadsBack(s, more);
    hide ReadUnit, EscapeHead;
    if Width(s) == 2 {
      assert ReadString([s[1]] + more) == Some(([s[1]] + s[2..], rest));
      assert s == [s[0]] + ([s[1]] + s[2..]);
    } else {
      assert s == [s[0]] + s[1..];
    }
  }

  lemma QuoteReadsBack(s: Text, rest: Text)
    ensures var t := Quote(s) + rest; t != [] && t[0] == QUOTE && ReadString(t[1..]) == Some((s, rest))
  {
    var t := Quote(s) + rest;
    assert t[1..] == Escape(s) + [QUOTE] + rest;
    StringReadsBack(s, rest);
  }

  lemma {:induction false} NatReadsBack(n: nat, rest: Text)
    ensures PrintNat(n) != [] && IsDigit(PrintNat(n)[0]) && (n > 0 ==> PrintNat(n)[0] != 0x30)
    ensures ReadDigits(PrintNat(n) + rest, 0) == ReadDigits(rest, n)
    decreases n
  {
    if n < 10 {
      assert (PrintNat(n) + rest)[1..] == rest;
    } else {
      var more := [Digit(n % 10)] + rest;
      assert PrintNat(n) + rest == PrintNat(n / 10) + more;
      NatReadsBack(n / 10, more);
      assert more[1..] == rest;
      assert 10 * (n / 10) + n % 10 == n;
    }
  }

  lemma NumberReadsBack(n: nat, rest: Text)
    requires rest == [] || !IsDigit(rest[0])
    ensures ReadNat(PrintNat(n) + rest) == Some((n, rest))
  {
    NatReadsBack(n, rest);
    if n == 0 { assert PrintNat(0) == [0x30] && (PrintNat(0) + rest)[1..] == rest; }
  }

  lemma ValueReadsBack(v: Value, rest: Text)
    requires rest == [] || !IsDigit(rest[0])
    ensures ReadValue(PrintValue(v) + rest) == Some((v, rest))
  {
    hide ReadString, Quote, ReadNat, PrintNat;
    var t := PrintValue(v) + rest;
    match v
    case Null => assert t[4..] == rest && NULL <= t;
    case Bool(b) =>
      if b { assert t[4..] == rest && TRUE <= t; } else { assert t[5..] == rest && FALSE <= t; }
    case Str(s) => QuoteReadsBack(s, rest);
    case Num(n) => NumReadsBack(n, rest);
  }

  lemma NumReadsBack(n: int, rest: Text)
    requires rest == [] || !IsDigit(rest[0])
    ensures ReadValue(PrintValue(Num(n)) + rest) == Some((Num(n), rest))
  {
    var m := if n < 0 then -n else n;
    NumberReadsBack(m, rest);
    NatReadsBack(m, rest);
    SignReads(PrintNat(m), m, rest);
  }

  lemma SignReads(digits: Text, m: nat, rest: Text)
    requires digits != [] && IsDigit(digits[0]) && ReadNat(digits + rest) == Some((m, rest))
    ensures ReadValue(digits + rest) == Some((Num(m), rest))
    ensures ReadValue([MINUS] + digits + rest) == Some((Num(-(m as int)), rest))
  {
    hide ReadNat, ReadString, TRUE, FALSE, NULL;
    var t := [MINUS] + digits + rest;
    assert t[0] == MINUS && t[1..] == digits + rest;
  }

  lemma PairReadsBack(p: (Text, Value), rest: Text)
    requires rest == [] || !IsDigit(rest[0])
    ensures ReadPair(PrintPair(p) + rest) == Some((p, rest))
  {
    hide Quote, PrintValue, ReadValue, ReadString;
    var more := [COLON] + (PrintValue(p.1) + rest);
    assert PrintPair(p) + rest == Quote(p.0) + more;
    QuoteReadsBack(p.0, more);
    assert more[1..] == PrintValue(p.1) + rest;
    ValueReadsBack(p.1, rest);
  }

  lemma {:induction false} MembersReadBack(ps: Pairs, rest: Text)
    requires ps != []
    ensures ReadMembers(PrintPairs(ps) + [CLOSE] + rest) == Some((FromPairs(ps), rest))
    decreases |ps|
  {
    var next := AfterHead(ps, rest);
    PairReadsBack(ps[0], next);
    HeadOfPairs(ps, rest);
    if |ps| == 1 {
      OnePair(ps);
    } else {
      MembersReadBack(ps[1..], rest);
    }
  }

  /** What follows the first pair of a printed object. */
  function AfterHead(ps: Pairs, rest: Text): Text
    requires ps != []
  {
    if |ps| == 1 then [CLOSE] + rest else [COMMA] + (PrintPairs(ps[1..]) + [CLOSE] + rest)
  }

  lemma HeadOfPairs(ps: Pairs, rest: Text)
    requires ps != []
    ensures PrintPairs(ps) + [CLOSE] + rest == PrintPair(ps[0]) + AfterHead(ps, rest)
    ensures AfterHead(ps, rest)[1..] == if |ps| == 1 then rest else PrintPairs(ps[1..]) + [CLOSE] + rest
  {
    if |ps| == 1 {
      Regroup(PrintPair(ps[0]), [], [], [CLOSE], rest);
    } else {
      Regroup(PrintPair(ps[0]), [COMMA], PrintPairs(ps[1..]), [CLOSE], rest);
    }
  }

  lemma Regroup(a: Text, b: Text, c: Text, d: Text, e: Text)
    ensures (a + b + c) + d + e == a + (b + (c + d + e))
    ensures a + d + e == a + (d + e)
  {
  }

  lemma OnePair(ps: Pairs)
    requires |ps| == 1
    ensures FromPairs(ps) == map[ps[0].0 := ps[0].1]
  {
    assert ps[1..] == [];
  }

  /** Every flat object reads back as it was printed, whatever units its strings hold. */
  lemma ObjectReadsBack(ps: Pairs, rest: Text)
    ensures ReadObject(PrintObject(ps) + rest) == Some((FromPairs(ps), rest))
  {
    if ps == [] {
      EmptyReadsBack(rest);
    } else {
      hide PrintPairs, ReadMembers, FromPairs, ReadObject;
      FirstUnitIsQuote(ps);
      MembersReadBack(ps, rest);
      BracesReadBack(PrintPairs(ps), FromPairs(ps), rest);
    }
  }

  lemma EmptyReadsBack(rest: Text)
    ensures ReadObject(PrintObject([]) + rest) == Some((map[], rest))
  {
    hide ReadMembers;
    assert (PrintObject([]) + rest)[2..] == rest;
  }

  lemma BracesReadBack(members: Text, o: Object, rest: Text)
    requires members != [] && members[0] == QUOTE && ReadMembers(members + [CLOSE] + rest) == Some((o, rest))
    ensures ReadObject([OPEN] + members + [CLOSE] + rest) == Some((o, rest))
  {
    hide ReadMembers;
    var t := [OPEN] + members + [CLOSE] + rest;
    assert t[1..] == members + [CLOSE] + rest;
    assert t[1] == members[0];
  }

  lemma FirstUnitIsQuote(ps: Pairs)
    requires ps != []
    ensures PrintPairs(ps) != [] && PrintPairs(ps)[0] == QUOTE
  {
    assert PrintPair(ps[0])[0] == QUOTE;
  }

  // ---------------------------------------------------------------------------------------------
  // Printed text holds no control unit and no lone surrogate
  // ---------------------------------------------------------------------------------------------

  predicate NoControls(t: Text) { forall i :: 0 <= i < |t| ==> t[i] >= 0x20 }

  /** No lone surrogate, so that UTF-8 can carry the text. */
  predicate WellFormed(t: Text)
    decreases |t|
  {
    t == [] || (!(Width(t) == 1 && IsSurrogate(t[0])) && WellFormed(t[Width(t)..]))
  }

  lemma {:induction false} WellFormedMeans(t: Text)
    ensures WellFormed(t) <==> !HasLoneSurrogate(t)
    decreases |t|
  {
    if t != [] {
      LoneInRest(t);
      WellFormedMeans(t[Width(t)..]);
    }
  }

  lemma {:induction false} WellFormedAppend(a: Text, b: Text)
    requires WellFormed(a) && WellFormed(b)
    ensures WellFormed(a + b)
    decreases |a|
  {
    if a == [] {
      assert a + b == b;
    } else {
      var w := Width(a);
      assert (a + b)[w..] == a[w..] + b;
      WellFormedAppend(a[w..], b);
    }
  }

  predicate Ascii(t: Text) { forall i :: 0 <= i < |t| ==> 0x20 <= t[i] < 0x7F }

  lemma {:induction false} AsciiIsClean(t: Text)
    requires Ascii(t)
    ensures NoControls(t) && WellFormed(t)
    decreases |t|
  {
    if t != [] { AsciiIsClean(t[1..]); }
  }

  lemma HeadIsClean(s: Text)
    requires s != []
    ensures NoControls(EscapeHead(s)) && WellFormed(EscapeHead(s))
  {
    var t := EscapeHead(s);
    if StartsWithPair(s) {
      assert t[2..] == [] && WellFormed(t[2..]);
    } else if ShortEscape(s[0]).Some? || s[0] < 0x20 || IsSurrogate(s[0]) {
      AsciiIsClean(t);
    } else {
      assert t[1..] == [] && WellFormed(t[1..]);
    }
  }

  lemma {:induction false} EscapeIsClean(s: Text)
    ensures NoControls(Escape(s)) && WellFormed(Escape(s))
    decreases |s|
  {
    if s != [] {
      HeadIsClean(s);
      EscapeIsClean(s[Width(s)..]);
      WellFormedAppend(EscapeHead(s), Escape(s[Width(s)..]));
    }
  }

  lemma QuoteIsClean(s: Text)
    ensures NoControls(Quote(s)) && WellFormed(Quote(s))
  {
    EscapeIsClean(s);
    AsciiIsClean([QUOTE]);
    WellFormedAppend([QUOTE], Escape(s));
    WellFormedAppend([QUOTE] + Escape(s), [QUOTE]);
  }

  lemma {:induction false} NatIsAscii(n: nat)
    ensures Ascii(PrintNat(n))
  {
    if n >= 10 { NatIsAscii(n / 10); }
  }

  lemma ValueIsClean(v: Value)
    ensures NoControls(PrintValue(v)) && WellFormed(PrintValue(v))
  {
    match v
    case Str(s) => QuoteIsClean(s);
    case Num(n) => NatIsAscii(if n < 0 then -n else n); AsciiIsClean(PrintValue(v));
    case _ => AsciiIsClean(PrintValue(v));
  }

  lemma PairIsClean(p: (Text, Value))
    ensures NoControls(PrintPair(p)) && WellFormed(PrintPair(p))
  {
    QuoteIsClean(p.0);
    ValueIsClean(p.1);
    AsciiIsClean([COLON]);
    WellFormedAppend(Quote(p.0), [COLON]);
    WellFormedAppend(Quote(p.0) + [COLON], PrintValue(p.1));
  }

  lemma {:induction false} PairsAreClean(ps: Pairs)
    ensures NoControls(PrintPairs(ps)) && WellFormed(PrintPairs(ps))
    decreases |ps|
  {
    if ps != [] {
      PairIsClean(ps[0]);
      if |ps| > 1 {
        PairsAreClean(ps[1..]);
        AsciiIsClean([COMMA]);
        WellFormedAppend(PrintPair(ps[0]), [COMMA]);
        WellFormedAppend(PrintPair(ps[0]) + [COMMA], PrintPairs(ps[1..]));
      }
    }
  }

  /** A printed object is one line whatever its strings hold, and text that UTF-8 can carry. */
  lemma ObjectIsClean(ps: Pairs)
    ensures NoControls(PrintObject(ps)) && !HasLoneSurrogate(PrintObject(ps))
  {
    PairsAreClean(ps);
    AsciiIsClean([OPEN]);
    AsciiIsClean([CLOSE]);
    WellFormedAppend([OPEN], PrintPairs(ps));
    WellFormedAppend([OPEN] + PrintPairs(ps), [CLOSE]);
    WellFormedMeans(PrintObject(ps));
  }

  // ---------------------------------------------------------------------------------------------
  // No proper beginning of an object is an object
  // ---------------------------------------------------------------------------------------------

  lemma UnitExtends(t: Text, q: Text)
    requires t != [] && ReadUnit(t).Some?
    ensures ReadUnit(t + q) == Some((ReadUnit(t).value.0, ReadUnit(t).value.1 + q))
  {
    var whole := t + q;
    assert whole[1..] == t[1..] + q;
    if t[0] == BACKSLASH {
      assert whole[2..] == t[2..] + q;
      if t[1] == LETTER_U { assert whole[2..6] == t[2..6] && whole[6..] == t[6..] + q; }
    }
  }

  lemma {:induction false} StringExtends(t: Text, q: Text)
    requires ReadString(t).Some?
    ensures ReadString(t + q) == Some((ReadString(t).value.0, ReadString(t).value.1 + q))
    decreases |t|
  {
    assert (t + q)[1..] == t[1..] + q;
    if t[0] != QUOTE {
      UnitExtends(t, q);
      StringExtends(ReadUnit(t).value.1, q);
    }
  }

  lemma {:induction false} DigitsExtend(t: Text, sofar: nat, q: Text)
    requires ReadDigits(t, sofar).1 != []
    ensures ReadDigits(t + q, sofar) == (ReadDigits(t, sofar).0, ReadDigits(t, sofar).1 + q)
    decreases |t|
  {
    if t != [] {
      assert (t + q)[1..] == t[1..] + q;
      if IsDigit(t[0]) { DigitsExtend(t[1..], 10 * sofar + (t[0] as int - 0x30), q); }
    }
  }

  lemma NatExtends(t: Text, q: Text)
    requires ReadNat(t).Some? && ReadNat(t).value.1 != []
    ensures ReadNat(t + q) == Some((ReadNat(t).value.0, ReadNat(t).value.1 + q))
  {
    assert (t + q)[1..] == t[1..] + q;
    if t[0] != 0x30 { DigitsExtend(t, 0, q); }
  }

  lemma ValueExtends(t: Text, q: Text)
    requires ReadValue(t).Some? && ReadValue(t).value.1 != []
    ensures ReadValue(t + q) == Some((ReadValue(t).value.0, ReadValue(t).value.1 + q))
  {
    var whole := t + q;
    assert whole[0] == t[0] && whole[1..] == t[1..] + q;
    if t[0] == QUOTE {
      StringExtends(t[1..], q);
    } else if t[0] == MINUS {
      NatExtends(t[1..], q);
    } else if IsDigit(t[0]) {
      NatExtends(t, q);
    } else {
      LiteralExtends(TRUE, t, q);
      LiteralExtends(FALSE, t, q);
      LiteralExtends(NULL, t, q);
    }
  }

  /** The literals begin differently, so a longer text cannot turn one into another. */
  lemma LiteralExtends(literal: Text, t: Text, q: Text)
    ensures literal <= t ==> literal <= t + q && (t + q)[|literal|..] == t[|literal|..] + q
  {
  }

  lemma PairExtends(t: Text, q: Text)
    requires ReadPair(t).Some? && ReadPair(t).value.1 != []
    ensures ReadPair(t + q) == Some((ReadPair(t).value.0, ReadPair(t).value.1 + q))
  {
    assert (t + q)[1..] == t[1..] + q;
    StringExtends(t[1..], q);
    var rest := ReadString(t[1..]).value.1;
    assert (rest + q)[1..] == rest[1..] + q;
    ValueExtends(rest[1..], q);
  }

  lemma {:induction false} MembersExtend(t: Text, q: Text)
    requires ReadMembers(t).Some?
    ensures ReadMembers(t + q) == Some((ReadMembers(t).value.0, ReadMembers(t).value.1 + q))
    decreases |t|
  {
    PairExtends(t, q);
    ReadPairShorter(t);
    var rest := ReadPair(t).value.1;
    assert (rest + q)[1..] == rest[1..] + q;
    if rest[0] == COMMA { MembersExtend(rest[1..], q); }
  }

  lemma ObjectExtends(t: Text, q: Text)
    requires ReadObject(t).Some?
    ensures ReadObject(t + q) == Some((ReadObject(t).value.0, ReadObject(t).value.1 + q))
  {
    assert (t + q)[1..] == t[1..] + q;
    if |t| > 1 && t[1] == CLOSE {
      assert (t + q)[2..] == t[2..] + q;
    } else {
      MembersExtend(t[1..], q);
    }
  }
}
