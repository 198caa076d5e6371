/** JavaScript strings: sequences of UTF-16 code units, any of which may follow any other. */
module Utf16 {
  import opened Prelude

  type Unit = u: int | 0 <= u < 0x1_0000
  type Text = seq<Unit>

  const UPPER_A: Unit := 0x41
  const LOWER_A: Unit := 0x61

  /** A hexadecimal digit with letters of the one or the other case. */
  function HexDigit(n: int, a: Unit): Unit
    requires 0 <= n < 16 && (a == UPPER_A || a == LOWER_A)
  {
    if n < 10 then 0x30 + n else a + n - 10
  }

  /** The value of a hexadecimal digit of either case. */
  function HexValue(u: Unit): (v: Option<int>)
    ensures v.Some? ==> 0 <= v.value < 16
  {
    if 0x30 <= u <= 0x39 then Some(u - 0x30)
    else if UPPER_A <= u < UPPER_A + 6 then Some(u - UPPER_A + 10)
    else if LOWER_A <= u < LOWER_A + 6 then Some(u - LOWER_A + 10)
    else None
  }

  lemma HexReadsBack(n: int, a: Unit)
    requires 0 <= n < 16 && (a == UPPER_A || a == LOWER_A)
    ensures HexValue(HexDigit(n, a)) == Some(n)
  {
  }

  predicate IsHigh(u: int) { 0xD800 <= u < 0xDC00 }
  predicate IsLow(u: int) { 0xDC00 <= u < 0xE000 }
  predicate IsSurrogate(cp: int) { 0xD800 <= cp < 0xE000 }

  /** Does the text start with a surrogate pair? */
  predicate StartsWithPair(s: Text) { |s| >= 2 && IsHigh(s[0]) && IsLow(s[1]) }

  /** The number of units of the first code point, and the code point; a lone surrogate is one by itself. */
  function Width(s: Text): nat
    requires s != []
  {
    if StartsWithPair(s) then 2 else 1
  }

  function CodePoint(s: Text): (cp: int)
    requires s != []
    ensures 0 <= cp < 0x11_0000
  {
    var u: int := s[0];
    if StartsWithPair(s) then
      var v: int := s[1];
      0x1_0000 + (u - 0xD800) * 0x400 + (v - 0xDC00)
    else u
  }

  /** The unit at `i` is a surrogate without its other half next to it. */
  predicate LoneAt(s: Text, i: int)
    requires 0 <= i < |s|
  {
    || (IsHigh(s[i]) && !(i + 1 < |s| && IsLow(s[i + 1])))
    || (IsLow(s[i]) && !(i > 0 && IsHigh(s[i - 1])))
  }

  ghost predicate HasLoneSurrogate(s: Text) { exists i :: 0 <= i < |s| && LoneAt(s, i) }

  /** Past the first code point, nothing changes about which surrogates are lone. */
  lemma LoneInRest(s: Text)
    requires s != []
    ensures HasLoneSurrogate(s) <==> (Width(s) == 1 && IsSurrogate(s[0])) || HasLoneSurrogate(s[Width(s)..])
  {
    var w := Width(s);
    var rest := s[w..];
    assert forall i :: 0 <= i < |rest| ==> rest[i] == s[i + w];
    if Width(s) == 1 && IsSurrogate(s[0]) {
      assert LoneAt(s, 0);
    } else {
      if HasLoneSurrogate(s) {
        var i :| 0 <= i < |s| && LoneAt(s, i);
        assert i >= w;
        assert LoneAt(rest, i - w);
      }
      if HasLoneSurrogate(rest) {
        var j :| 0 <= j < |rest| && LoneAt(rest, j);
        assert LoneAt(s, j + w);
      }
    }
  }
}
