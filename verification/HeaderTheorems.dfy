/** What the encoded destination is, in numbers: which units stay, and what the others become. */
module HeaderTheorems {
  import opened Prelude
  import opened Utf16
  import opened HeaderEncoding

  /** Tab, printable ASCII, or the upper half of Latin-1. */
  predicate StaysAsItIs(u: int) { u == 9 || 32 <= u <= 126 || 128 <= u <= 255 }

  /** A destination is sent unit for unit if and only if all its units can be; `?`, `&`, `#` and `%` can. */
  lemma VerbatimExactly(s: Text)
    ensures Encode(s) == Some(s) <==> forall i :: 0 <= i < |s| ==> StaysAsItIs(s[i])
  {
    if Encode(s) == Some(s) {
      OutputIsSafeAndStable(s);
      forall i | 0 <= i < |s| ensures StaysAsItIs(s[i]) { assert IsHeaderSafe(s[i]); }
    }
    if forall i :: 0 <= i < |s| ==> StaysAsItIs(s[i]) {
      forall i | 0 <= i < |s| ensures IsHeaderSafe(s[i]) { assert StaysAsItIs(s[i]); }
    }
  }

  /** How many bytes the shortest UTF-8 form has. */
  function ByteCount(cp: int): nat {
    if cp < 128 then 1 else if cp < 2048 then 2 else if cp < 65536 then 3 else 4
  }

  /** The shortest well-formed sequence that is read as this code point (section 3 of RFC 3629). */
  predicate IsUtf8Of(bytes: seq<Byte>, cp: int) {
    && |bytes| == ByteCount(cp) && FromUtf8(bytes) == cp
    && (|bytes| == 1 ==> bytes[0] < 128) && (|bytes| == 2 ==> 192 <= bytes[0] < 224)
    && (|bytes| == 3 ==> 224 <= bytes[0] < 240) && (|bytes| == 4 ==> 240 <= bytes[0] < 248)
    && forall i :: 1 <= i < |bytes| ==> 128 <= bytes[i] < 192
  }

  /** `0` to `9` and `A` to `F`. */
  predicate IsHex(u: int, n: int) { u == if n < 10 then 48 + n else 55 + n }

  /** Three units for each byte: `%` and two upper-case digits. */
  predicate AreEscapes(t: Text, bytes: seq<Byte>) {
    && |t| == 3 * |bytes|
    && forall k :: 0 <= k < |bytes| ==>
         t[3 * k] == 37 && IsHex(t[3 * k + 1], bytes[k] / 16) && IsHex(t[3 * k + 2], bytes[k] % 16)
  }

  /** What stands for the first code point of a text. */
  ghost predicate Shown(s: Text, t: Text)
    requires s != []
  {
    if StaysAsItIs(s[0]) then t == [s[0]]
    else exists bytes :: IsUtf8Of(bytes, CodePoint(s)) && AreEscapes(t, bytes)
  }

  function ShownLength(s: Text): nat
    requires s != []
  {
    if StaysAsItIs(s[0]) then 1 else 3 * ByteCount(CodePoint(s))
  }

  /** The second text is the first with every code point that a header cannot carry escaped, and no other. */
  ghost predicate Escaped(s: Text, t: Text)
    decreases |s|
  {
    if s == [] then t == []
    else
      var n := ShownLength(s);
      n <= |t| && Shown(s, t[..n]) && Escaped(s[Width(s)..], t[n..])
  }

  lemma {:induction false} PercentAllEscapes(bytes: seq<Byte>)
    ensures AreEscapes(PercentAll(bytes), bytes)
  {
    if bytes != [] {
      var rest := PercentAll(bytes[1..]);
      PercentAllEscapes(bytes[1..]);
      var t := PercentAll(bytes);
      assert t == Percent(bytes[0]) + rest && |Percent(bytes[0])| == 3;
      forall k | 0 <= k < |bytes|
        ensures t[3 * k] == 37 && IsHex(t[3 * k + 1], bytes[k] / 16) && IsHex(t[3 * k + 2], bytes[k] % 16)
      {
        if k > 0 {
          assert bytes[k] == bytes[1..][k - 1];
          assert t[3 * k] == rest[3 * (k - 1)] && t[3 * k + 1] == rest[3 * (k - 1) + 1]
            && t[3 * k + 2] == rest[3 * (k - 1) + 2];
        }
      }
    }
  }

  lemma Utf8IsUtf8(cp: int)
    requires 0 <= cp < 0x11_0000 && !IsSurrogate(cp)
    ensures IsUtf8Of(Utf8(cp), cp)
  {
    Utf8ReadsBack(cp);
  }

  lemma PartIsShown(s: Text)
    requires s != [] && Part(s).Some?
    ensures Shown(s, Part(s).value) && |Part(s).value| == ShownLength(s)
  {
    if IsHeaderSafe(CodePoint(s)) {
      assert Part(s).value == [s[0]];
    } else {
      var cp := CodePoint(s);
      hide CodePoint, Utf8, PercentAll, IsUtf8Of, AreEscapes;
      Utf8IsUtf8(cp);
      PercentAllEscapes(Utf8(cp));
      EscapeCount(Utf8(cp), cp);
      assert !StaysAsItIs(s[0]) by { FirstUnit(s); }
    }
  }

  lemma EscapeCount(bytes: seq<Byte>, cp: int)
    requires IsUtf8Of(bytes, cp) && AreEscapes(PercentAll(bytes), bytes)
    ensures |PercentAll(bytes)| == 3 * ByteCount(cp)
  {
  }

  lemma FirstUnit(s: Text)
    requires s != []
    ensures StaysAsItIs(s[0]) ==> CodePoint(s) == s[0]
  {
  }

  lemma {:induction false} EncodeAllEscapes(s: Text)
    requires EncodeAll(s).Some?
    ensures Escaped(s, EncodeAll(s).value)
    decreases |s|
  {
    if s != [] {
      var part, rest := Part(s).value, EncodeAll(s[Width(s)..]).value;
      PartIsShown(s);
      EncodeAllEscapes(s[Width(s)..]);
      hide Part, Shown, ShownLength;
      assert EncodeAll(s).value == part + rest;
      assert (part + rest)[..|part|] == part && (part + rest)[|part|..] == rest;
    }
  }

  /** Every encoded destination is the text with exactly the code points escaped that have to be. */
  lemma EncodingIsExact(s: Text)
    requires Encode(s).Some?
    ensures Escaped(s, Encode(s).value)
  {
    OutputIsSafeAndStable(s);
    EncodeAllEscapes(s);
  }
}
