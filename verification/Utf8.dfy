/** Lossy UTF-8 decoding, after the byte sequences of section 4 of RFC 3629: each maximal piece of a
    broken sequence becomes one U+FFFD. */
module Utf8 {
  import opened Texts

  type Byte = b: int | 0 <= b < 0x100
  type Text = seq<int>

  const NEWLINE: Byte := 0x0A
  const REPLACEMENT := 0xFFFD

  /** How long a sequence the lead byte announces; 0 for a byte that leads none. */
  function Width(lead: Byte): (w: nat)
    ensures w <= 4
  {
    if lead < 0x80 then 1
    else if 0xC2 <= lead <= 0xDF then 2
    else if 0xE0 <= lead <= 0xEF then 3
    else if 0xF0 <= lead <= 0xF4 then 4
    else 0
  }

  predicate Tail(b: Byte) { 0x80 <= b <= 0xBF }

  /** The second byte has a narrower range after some leads (no overlong forms, no surrogates,
      nothing above U+10FFFF). */
  predicate Second(lead: Byte, b: Byte) {
    (if lead == 0xE0 then 0xA0 else if lead == 0xF0 then 0x90 else 0x80) <= b
      <= (if lead == 0xED then 0x9F else if lead == 0xF4 then 0x8F else 0xBF)
  }

  /** How many bytes are the beginning of one well-formed sequence. */
  function Matched(bs: seq<Byte>): (n: nat)
    requires bs != [] && Width(bs[0]) >= 2
    ensures 1 <= n <= Width(bs[0]) && n <= |bs|
  {
    var w := Width(bs[0]);
    if |bs| < 2 || !Second(bs[0], bs[1]) then 1
    else if w == 2 || |bs| < 3 || !Tail(bs[2]) then 2
    else if w == 3 || |bs| < 4 || !Tail(bs[3]) then 3
    else 4
  }

  function Scalar(bs: seq<Byte>): int
    requires bs != [] && |bs| == Width(bs[0])
  {
    var lead: int := bs[0];
    if |bs| == 1 then lead
    else if |bs| == 2 then (lead - 0xC0) * 0x40 + Low(bs[1])
    else if |bs| == 3 then (lead - 0xE0) * 0x1000 + Low(bs[1]) * 0x40 + Low(bs[2])
    else (lead - 0xF0) * 0x40000 + Low(bs[1]) * 0x1000 + Low(bs[2]) * 0x40 + Low(bs[3])
  }

  function Low(b: int): int { b - 0x80 }

  datatype Char = Char(length: nat, code: int)

  function First(bs: seq<Byte>): (c: Char)
    requires bs != []
    ensures 1 <= c.length <= |bs|
  {
    var w := Width(bs[0]);
    if w == 0 then Char(1, REPLACEMENT)
    else if w == 1 then Char(1, bs[0])
    else
      var n := Matched(bs);
      if n == w then Char(w, Scalar(bs[..w])) else Char(n, REPLACEMENT)
  }

  function Lossy(bs: seq<Byte>): Text
    decreases |bs|
  {
    if bs == [] then []
    else var c := First(bs); [c.code] + Lossy(bs[c.length..])
  }

  /** No sequence reaches across a newline, so what follows one cannot change what precedes it. */
  lemma FirstStopsAtNewline(a: seq<Byte>, b: seq<Byte>)
    requires a != []
    ensures First(a + [NEWLINE] + b) == First(a)
  {
    var whole := a + [NEWLINE] + b;
    assert whole[0] == a[0];
    if Width(a[0]) >= 2 {
      assert Matched(whole) == Matched(a);
      assert whole[..Matched(a)] == a[..Matched(a)];
    }
  }

  lemma LossyOfFirst(bs: seq<Byte>)
    requires bs != []
    ensures Lossy(bs) == [First(bs).code] + Lossy(bs[First(bs).length..])
  {
  }

  lemma SplitsBehindFirst(a: seq<Byte>, b: seq<Byte>, rest: seq<Byte>)
    requires a != [] && rest == a[First(a).length..]
    ensures Lossy(a + [NEWLINE] + b) == [First(a).code] + Lossy(rest + [NEWLINE] + b)
    ensures Lossy(a) == [First(a).code] + Lossy(rest)
  {
    var whole := a + [NEWLINE] + b;
    FirstStopsAtNewline(a, b);
    assert whole[First(a).length..] == rest + [NEWLINE] + b;
    LossyOfFirst(a);
    LossyOfFirst(whole);
  }

  lemma SplitsAtTheStart(b: seq<Byte>)
    ensures Lossy([NEWLINE] + b) == [NEWLINE] + Lossy(b)
  {
    assert ([NEWLINE] + b)[1..] == b;
    LossyOfFirst([NEWLINE] + b);
  }

  lemma {:induction false} LossySplits(a: seq<Byte>, b: seq<Byte>)
    ensures Lossy(a + [NEWLINE] + b) == Lossy(a) + [NEWLINE] + Lossy(b)
    decreases |a|
  {
    if a == [] {
      SplitsAtTheStart(b);
      assert a + [NEWLINE] + b == [NEWLINE] + b;
    } else {
      var rest := a[First(a).length..];
      LossySplits(rest, b);
      SplitsBehindFirst(a, b, rest);
      Regroup([First(a).code], Lossy(rest) + [NEWLINE], Lossy(b));
      Regroup([First(a).code], Lossy(rest), [NEWLINE]);
    }
  }

  /** A newline comes only from a newline byte. */
  lemma {:induction false} LossyAddsNoNewline(bs: seq<Byte>)
    requires NEWLINE !in bs
    ensures NEWLINE !in Lossy(bs)
    decreases |bs|
  {
    if bs != [] {
      LossyAddsNoNewline(bs[First(bs).length..]);
      assert First(bs).code != NEWLINE;
    }
  }

  // ---- the encoder, as a check on the decoder ----

  predicate IsScalar(c: int) { 0 <= c <= 0xD7FF || 0xE000 <= c <= 0x10FFFF }

  function EncodeOne(c: int): (bs: seq<Byte>)
    requires IsScalar(c)
    ensures 1 <= |bs| <= 4
  {
    if c < 0x80 then [c]
    else if c < 0x800 then [0xC0 + c / 0x40, 0x80 + c % 0x40]
    else if c < 0x10000 then [0xE0 + c / 0x1000, 0x80 + c / 0x40 % 0x40, 0x80 + c % 0x40]
    else [0xF0 + c / 0x40000, 0x80 + c / 0x1000 % 0x40, 0x80 + c / 0x40 % 0x40, 0x80 + c % 0x40]
  }

  function Encode(cs: Text): seq<Byte>
    requires forall i :: 0 <= i < |cs| ==> IsScalar(cs[i])
    decreases |cs|
  {
    if cs == [] then [] else EncodeOne(cs[0]) + Encode(cs[1..])
  }

  /** The decoder looks at one announced sequence and nothing more. */
  lemma FirstLooksAtWidth(one: seq<Byte>, rest: seq<Byte>)
    requires one != [] && |one| == Width(one[0])
    ensures First(one + rest) == First(one)
  {
    var bs := one + rest;
    assert bs[0] == one[0];
    assert bs[..|one|] == one && one[..|one|] == one;
    if |one| >= 2 {
      assert bs[1] == one[1] && (|one| >= 3 ==> bs[2] == one[2]) && (|one| >= 4 ==> bs[3] == one[3]);
      assert Matched(bs) == Matched(one);
      assert Matched(one) < |one| || one[..Matched(one)] == bs[..Matched(one)];
    }
  }

  lemma FirstOfOne(c: int)
    requires IsScalar(c)
    ensures |EncodeOne(c)| == Width(EncodeOne(c)[0])
    ensures First(EncodeOne(c)) == Char(|EncodeOne(c)|, c)
  {
    var one := EncodeOne(c);
    assert one[..|one|] == one;
    Digits(c);
    if c >= 0x800 {
      assert Second(one[0], one[1]);
    }
  }

  lemma Digits(c: nat)
    ensures c == c / 0x40 * 0x40 + c % 0x40
    ensures c / 0x40 == c / 0x1000 * 0x40 + c / 0x40 % 0x40
    ensures c / 0x1000 == c / 0x40000 * 0x40 + c / 0x1000 % 0x40
  {
  }

  lemma FirstOfEncoded(c: int, rest: seq<Byte>)
    requires IsScalar(c)
    ensures First(EncodeOne(c) + rest) == Char(|EncodeOne(c)|, c)
  {
    FirstOfOne(c);
    FirstLooksAtWidth(EncodeOne(c), rest);
  }

  // ---- broken input ----

  /** A character cut short, before anything that does not carry it on, is one replacement. */
  lemma CutCharacterIsOneReplacement(c: int, k: nat, rest: seq<Byte>)
    requires IsScalar(c) && 0 < k < |EncodeOne(c)| && (rest == [] || !Tail(rest[0]))
    ensures Lossy(EncodeOne(c)[..k] + rest) == [REPLACEMENT] + Lossy(rest)
  {
    var one := EncodeOne(c);
    var bs := one[..k] + rest;
    EncodedIsWellFormed(c);
    assert bs[0] == one[0] && (k >= 2 ==> bs[1] == one[1]) && (k >= 3 ==> bs[2] == one[2]);
    assert rest != [] ==> bs[k] == rest[0];
    StopsThere(bs, k);
    LossyOfFirst(bs);
    assert bs[k..] == rest;
  }

  lemma EncodedIsWellFormed(c: int)
    requires IsScalar(c)
    ensures var one := EncodeOne(c);
      Width(one[0]) == |one| && (|one| >= 2 ==> Second(one[0], one[1])) && (|one| >= 3 ==> Tail(one[2]))
  {
    FirstOfOne(c);
    Digits(c);
  }

  lemma StopsThere(bs: seq<Byte>, k: nat)
    requires bs != [] && 0 < k < Width(bs[0]) && k <= |bs| && (k < |bs| ==> !Tail(bs[k]))
    requires k >= 2 ==> Second(bs[0], bs[1]) && (k >= 3 ==> Tail(bs[2]))
    ensures First(bs) == Char(k, REPLACEMENT)
  {
  }

  /** And so is each byte that begins no character. */
  lemma StrayByteIsOneReplacement(b: Byte, rest: seq<Byte>)
    requires 0x80 <= b < 0xC2 || b > 0xF4
    ensures Lossy([b] + rest) == [REPLACEMENT] + Lossy(rest)
  {
    LossyOfFirst([b] + rest);
    assert ([b] + rest)[1..] == rest;
  }

  /** On well-formed input nothing is lost. */
  lemma {:induction false} LossyUndoesEncode(cs: Text)
    requires forall i :: 0 <= i < |cs| ==> IsScalar(cs[i])
    ensures Lossy(Encode(cs)) == cs
    decreases |cs|
  {
    if cs != [] {
      var rest := Encode(cs[1..]);
      FirstOfEncoded(cs[0], rest);
      assert (EncodeOne(cs[0]) + rest)[|EncodeOne(cs[0])|..] == rest;
      LossyUndoesEncode(cs[1..]);
    }
  }
}
