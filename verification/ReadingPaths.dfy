/**
 Two ways to read a transcript: the parser of the whole decoded file, and the streaming readers
 that decode line by line and stop early. They agree on arbitrary bytes.
 */
module ReadingPaths {
  import opened Options
  import opened Records
  import opened Utf8
  import opened Texts

  // ---- lines ----

  function TrimEnd(s: Text): Text {
    if s != [] && IsWhite(s[|s|-1]) then TrimEnd(s[..|s|-1]) else s
  }

  function TrimStart(s: Text): Text {
    if s != [] && IsWhite(s[0]) then TrimStart(s[1..]) else s
  }

  function Trim(s: Text): Text { TrimStart(TrimEnd(s)) }

  function FirstNewline(s: Text): (i: nat)
    ensures i <= |s|
    ensures NEWLINE !in s[..i]
    ensures i < |s| ==> s[i] == NEWLINE
  {
    if s == [] || s[0] == NEWLINE then 0 else 1 + FirstNewline(s[1..])
  }

  function DropReturn(line: Text): Text {
    if line != [] && line[|line|-1] == 0x0D then line[..|line|-1] else line
  }

  /** `str::lines`: a carriage return before the line feed goes with it. */
  function TextLines(s: Text): seq<Text>
    decreases |s|
  {
    if s == [] then []
    else
      var i := FirstNewline(s);
      if i == |s| then [s] else [DropReturn(s[..i])] + TextLines(s[i+1..])
  }

  function Visible(line: Text): seq<Text> { if Trim(line) == [] then [] else [Trim(line)] }

  function AllVisible(lines: seq<Text>): seq<Text>
    decreases |lines|
  {
    if lines == [] then [] else Visible(lines[0]) + AllVisible(lines[1..])
  }

  /** The lines the whole-file parser looks at. */
  function WholeLines(bytes: seq<Byte>): seq<Text> { AllVisible(TextLines(Lossy(bytes))) }

  /** Where `read_until` stops: after the newline, or at the end. */
  function AfterLine(bytes: seq<Byte>): (n: nat)
    requires bytes != []
    ensures 1 <= n <= |bytes|
    ensures NEWLINE !in bytes[..n-1]
    ensures n < |bytes| ==> bytes[n-1] == NEWLINE
  {
    if bytes[0] == NEWLINE || |bytes| == 1 then 1 else 1 + AfterLine(bytes[1..])
  }

  /** The lines a streaming reader sees. */
  function StreamLines(bytes: seq<Byte>): seq<Text>
    decreases |bytes|
  {
    if bytes == [] then []
    else var n := AfterLine(bytes); Visible(Lossy(bytes[..n])) + StreamLines(bytes[n..])
  }

  lemma TrimIgnoresEnd(s: Text, c: int)
    requires IsWhite(c)
    ensures Trim(s + [c]) == Trim(s)
  {
    assert (s + [c])[..|s|] == s;
  }

  lemma TrimIgnoresReturn(s: Text)
    ensures Trim(DropReturn(s)) == Trim(s)
  {
    if s != [] && s[|s|-1] == 0x0D {
      TrimIgnoresEnd(s[..|s|-1], 0x0D);
      assert s[..|s|-1] + [0x0D] == s;
    }
  }

  lemma {:induction false} FirstNewlineAt(a: Text, b: Text)
    requires NEWLINE !in a
    ensures FirstNewline(a + [NEWLINE] + b) == |a|
  {
    var s := a + [NEWLINE] + b;
    if a == [] {
      assert s[0] == NEWLINE;
    } else {
      assert s[0] == a[0] && a[0] in a;
      assert s[1..] == a[1..] + [NEWLINE] + b;
      FirstNewlineAt(a[1..], b);
    }
  }

  lemma NoNewlineAt(s: Text)
    requires NEWLINE !in s
    ensures FirstNewline(s) == |s|
  {
  }

  lemma WholeLinesSplit(a: seq<Byte>, b: seq<Byte>)
    requires NEWLINE !in a
    ensures WholeLines(a + [NEWLINE] + b) == Visible(Lossy(a)) + WholeLines(b)
  {
    LossySplits(a, b);
    LossyAddsNoNewline(a);
    var s := Lossy(a) + [NEWLINE] + Lossy(b);
    FirstNewlineAt(Lossy(a), Lossy(b));
    assert s[..|Lossy(a)|] == Lossy(a) && s[|Lossy(a)|+1..] == Lossy(b);
    TrimIgnoresReturn(Lossy(a));
    assert TextLines(s)[1..] == TextLines(Lossy(b));
  }

  lemma VisibleBeforeNewline(a: seq<Byte>)
    ensures Visible(Lossy(a + [NEWLINE])) == Visible(Lossy(a))
  {
    LossySplits(a, []);
    assert a + [NEWLINE] + [] == a + [NEWLINE];
    assert Lossy(a) + [NEWLINE] + Lossy([]) == Lossy(a) + [NEWLINE];
    TrimIgnoresEnd(Lossy(a), NEWLINE);
  }

  lemma EndedLineIsSeen(a: seq<Byte>, rest: seq<Byte>)
    requires NEWLINE !in a
    ensures WholeLines(a + [NEWLINE] + rest) == Visible(Lossy(a + [NEWLINE])) + WholeLines(rest)
  {
    WholeLinesSplit(a, rest);
    VisibleBeforeNewline(a);
  }

  lemma WholeLastLine(bytes: seq<Byte>)
    requires NEWLINE !in bytes
    ensures WholeLines(bytes) == Visible(Lossy(bytes)) + WholeLines([])
  {
    LastLine(bytes);
    assert WholeLines([]) == [];
  }

  lemma FirstLineIsSeen(bytes: seq<Byte>, n: nat)
    requires 1 <= n <= |bytes| && NEWLINE !in bytes[..n-1] && (n < |bytes| ==> bytes[n-1] == NEWLINE)
    ensures WholeLines(bytes) == Visible(Lossy(bytes[..n])) + WholeLines(bytes[n..])
  {
    if bytes[n-1] == NEWLINE {
      var a, rest := bytes[..n-1], bytes[n..];
      assert bytes == a + [NEWLINE] + rest && bytes[..n] == a + [NEWLINE];
      EndedLineIsSeen(a, rest);
    } else {
      assert bytes == bytes[..n-1] + [bytes[n-1]];
      WholeLastLine(bytes);
      assert bytes[..n] == bytes && bytes[n..] == [];
    }
  }

  /** `inner` is `s` without the white around it. */
  ghost predicate Strips(s: Text, inner: Text) {
    && (inner != [] ==> !IsWhite(inner[0]) && !IsWhite(inner[|inner|-1]))
    && exists a, b :: s == a + inner + b && AllWhite(a) && AllWhite(b)
  }

  predicate AllWhite(s: Text) { forall c :: c in s ==> IsWhite(c) }

  lemma {:induction false} TrimEndStrips(s: Text) returns (b: Text)
    ensures s == TrimEnd(s) + b && AllWhite(b)
    ensures TrimEnd(s) != [] ==> !IsWhite(TrimEnd(s)[|TrimEnd(s)|-1])
  {
    b := [];
    if s != [] && IsWhite(s[|s|-1]) {
      b := TrimEndStrips(s[..|s|-1]);
      b := b + [s[|s|-1]];
    }
  }

  lemma {:induction false} TrimStartStrips(s: Text) returns (a: Text)
    ensures s == a + TrimStart(s) && AllWhite(a)
    ensures TrimStart(s) != [] ==> !IsWhite(TrimStart(s)[0])
    ensures TrimStart(s) != [] ==> TrimStart(s)[|TrimStart(s)|-1] == s[|s|-1]
  {
    a := [];
    if s != [] && IsWhite(s[0]) {
      a := TrimStartStrips(s[1..]);
      a := [s[0]] + a;
    }
  }

  lemma TrimStrips(s: Text)
    ensures Strips(s, Trim(s))
  {
    var b := TrimEndStrips(s);
    var a := TrimStartStrips(TrimEnd(s));
    assert s == a + Trim(s) + b;
  }

  /** Pieces of a file, with newlines between them. */
  function Joined(pieces: seq<seq<Byte>>): seq<Byte>
    requires pieces != []
  {
    if |pieces| == 1 then pieces[0] else pieces[0] + [NEWLINE] + Joined(pieces[1..])
  }

  /** The lines are the pieces, decoded one by one and stripped, but for those that are blank. */
  ghost predicate LinesOf(pieces: seq<seq<Byte>>, lines: seq<Text>)
    decreases |pieces|
  {
    if pieces == [] then lines == []
    else
      || (lines != [] && lines[0] != [] && Strips(Lossy(pieces[0]), lines[0]) && LinesOf(pieces[1..], lines[1..]))
      || (Strips(Lossy(pieces[0]), []) && LinesOf(pieces[1..], lines))
  }

  /** What both paths read, from the bytes alone. */
  lemma {:induction false} WholeLinesAreItsLines(pieces: seq<seq<Byte>>)
    requires pieces != [] && forall i :: 0 <= i < |pieces| ==> NEWLINE !in pieces[i]
    ensures LinesOf(pieces, WholeLines(Joined(pieces)))
    decreases |pieces|
  {
    var a, rest := pieces[0], pieces[1..];
    TrimStrips(Lossy(a));
    if rest == [] {
      LastLine(a);
      FirstPiece(pieces, []);
      assert Visible(Lossy(a)) + [] == Visible(Lossy(a));
    } else {
      WholeLinesSplit(a, Joined(rest));
      WholeLinesAreItsLines(rest);
      FirstPiece(pieces, WholeLines(Joined(rest)));
    }
  }

  lemma FirstPiece(pieces: seq<seq<Byte>>, others: seq<Text>)
    requires pieces != [] && LinesOf(pieces[1..], others)
    ensures LinesOf(pieces, Visible(Lossy(pieces[0])) + others)
  {
    TrimStrips(Lossy(pieces[0]));
    var lines := Visible(Lossy(pieces[0])) + others;
    if Trim(Lossy(pieces[0])) == [] {
      assert lines == others;
    } else {
      assert lines[1..] == others;
    }
  }

  /** Decoding line by line and decoding the whole file see the same lines. */
  lemma {:induction false} StreamSeesWholeLines(bytes: seq<Byte>)
    ensures StreamLines(bytes) == WholeLines(bytes)
    decreases |bytes|
  {
    if bytes != [] {
      var n := AfterLine(bytes);
      StreamSeesWholeLines(bytes[n..]);
      FirstLineIsSeen(bytes, n);
    }
  }

  // ---- what is read from them ----

  /** How one trimmed line parses as a header and as an entry. */
  datatype Parsers<!H, !E> = Parsers(header: Text -> Option<H>, entry: Text -> Option<E>)

  datatype Transcript<H, E> = Transcript(header: Option<H>, entries: seq<E>)

  function ParseLine<H, E>(p: Parsers<H, E>, t: Transcript<H, E>, line: Text): Transcript<H, E> {
    if t.header.None? && p.header(line).Some? then t.(header := p.header(line))
    else if p.entry(line).Some? then t.(entries := t.entries + [p.entry(line).value])
    else t
  }

  function ParseLines<H, E>(p: Parsers<H, E>, t: Transcript<H, E>, lines: seq<Text>): Transcript<H, E>
    decreases |lines|
  {
    if lines == [] then t else ParseLines(p, ParseLine(p, t, lines[0]), lines[1..])
  }

  /** The whole-file answer. */
  function Parsed<H, E>(p: Parsers<H, E>, bytes: seq<Byte>): Transcript<H, E> {
    ParseLines(p, Transcript(None, []), WholeLines(bytes))
  }

  /** One line as it stands in the file. */
  function ParseRaw<H, E>(p: Parsers<H, E>, t: Transcript<H, E>, line: Text): Transcript<H, E> {
    if Trim(line) == [] then t else ParseLine(p, t, Trim(line))
  }

  lemma ParseFirst<H, E>(p: Parsers<H, E>, t: Transcript<H, E>, line: Text, rest: seq<Text>)
    ensures ParseLines(p, t, Visible(line) + rest) == ParseLines(p, ParseRaw(p, t, line), rest)
  {
    if Trim(line) == [] {
      assert Visible(line) + rest == rest;
    } else {
      assert (Visible(line) + rest)[1..] == rest;
    }
  }

  /** The first line that parses as a header, or where the lines end. */
  function HeaderAt<H, E>(p: Parsers<H, E>, lines: seq<Text>): (k: nat)
    ensures k <= |lines| && forall j :: 0 <= j < k ==> p.header(lines[j]).None?
    ensures k < |lines| ==> p.header(lines[k]).Some?
  {
    if lines == [] || p.header(lines[0]).Some? then 0 else 1 + HeaderAt(p, lines[1..])
  }

  /** The values of the lines that parse as entries, in order. */
  function Values<H, E>(p: Parsers<H, E>, lines: seq<Text>): seq<E> {
    if lines == [] then []
    else (if p.entry(lines[0]).Some? then [p.entry(lines[0]).value] else []) + Values(p, lines[1..])
  }

  /** The header is that of the first line that has one, and every other line that parses is an entry. */
  ghost predicate Tells<H, E>(p: Parsers<H, E>, lines: seq<Text>, t: Transcript<H, E>) {
    var k := HeaderAt(p, lines);
    if k == |lines| then t.header.None? && t.entries == Values(p, lines)
    else t.header == p.header(lines[k]) && t.entries == Values(p, lines[..k]) + Values(p, lines[k+1..])
  }

  lemma {:induction false} BehindHeader<H, E>(p: Parsers<H, E>, t: Transcript<H, E>, lines: seq<Text>)
    requires t.header.Some?
    ensures ParseLines(p, t, lines) == t.(entries := t.entries + Values(p, lines))
    decreases |lines|
  {
    if lines == [] {
      assert t.entries + [] == t.entries;
    } else {
      BehindHeader(p, ParseLine(p, t, lines[0]), lines[1..]);
      Regroup(t.entries, if p.entry(lines[0]).Some? then [p.entry(lines[0]).value] else [], Values(p, lines[1..]));
      assert t.entries + [] == t.entries;
    }
  }

  lemma {:induction false} BeforeHeader<H, E>(p: Parsers<H, E>, t: Transcript<H, E>, lines: seq<Text>)
    requires t.header.None? && forall j :: 0 <= j < |lines| ==> p.header(lines[j]).None?
    ensures ParseLines(p, t, lines) == t.(entries := t.entries + Values(p, lines))
    decreases |lines|
  {
    if lines == [] {
      assert t.entries + [] == t.entries;
    } else {
      BeforeHeader(p, ParseLine(p, t, lines[0]), lines[1..]);
      Regroup(t.entries, if p.entry(lines[0]).Some? then [p.entry(lines[0]).value] else [], Values(p, lines[1..]));
      assert t.entries + [] == t.entries;
    }
  }

  lemma ParsedTells<H, E>(p: Parsers<H, E>, lines: seq<Text>)
    ensures Tells(p, lines, ParseLines(p, Transcript(None, []), lines))
  {
    var t, k := Transcript(None, []), HeaderAt(p, lines);
    assert lines == lines[..k] + lines[k..];
    ParseConcat(p, t, lines[..k], lines[k..]);
    BeforeHeader(p, t, lines[..k]);
    assert [] + Values(p, lines[..k]) == Values(p, lines[..k]);
    if k == |lines| {
      assert lines[..k] == lines;
    } else {
      assert lines[k..][1..] == lines[k+1..];
      BehindHeader(p, Transcript(p.header(lines[k]), Values(p, lines[..k])), lines[k+1..]);
    }
  }

  method ParseTranscript<H, E>(p: Parsers<H, E>, bytes: seq<Byte>) returns (t: Transcript<H, E>)
    ensures t == Parsed(p, bytes)
    ensures Tells(p, WholeLines(bytes), t)
  {
    ParsedTells(p, WholeLines(bytes));
    t := Transcript(None, []);
    var lines := TextLines(Lossy(bytes));
    for i := 0 to |lines|
      invariant Parsed(p, bytes) == ParseLines(p, t, AllVisible(lines[i..]))
    {
      assert lines[i..][0] == lines[i] && lines[i..][1..] == lines[i+1..];
      ParseFirst(p, t, lines[i], AllVisible(lines[i+1..]));
      t := ParseRaw(p, t, lines[i]);
    }
  }

  lemma {:induction false} HeaderStays<H, E>(p: Parsers<H, E>, t: Transcript<H, E>, lines: seq<Text>)
    ensures t.header.Some? ==> ParseLines(p, t, lines).header == t.header
    ensures t.entries <= ParseLines(p, t, lines).entries
    decreases |lines|
  {
    if lines != [] {
      HeaderStays(p, ParseLine(p, t, lines[0]), lines[1..]);
    }
  }

  /** Reads to the first header and stops there. */
  method ReadHeader<H, E>(p: Parsers<H, E>, bytes: seq<Byte>) returns (found: Option<H>)
    ensures found == Parsed(p, bytes).header
  {
    found := None;
    var rest := bytes;
    ghost var t := Transcript(None, []);
    StreamSeesWholeLines(bytes);
    while rest != []
      invariant t.header == None && found == None
      invariant Parsed(p, bytes) == ParseLines(p, t, StreamLines(rest))
      decreases |rest|
    {
      var n := AfterLine(rest);
      var decoded := Lossy(rest[..n]);
      ParseFirst(p, t, decoded, StreamLines(rest[n..]));
      t := ParseRaw(p, t, decoded);
      var line := Trim(decoded);
      if line != [] {
        found := p.header(line);
        if found.Some? {
          HeaderStays(p, t, StreamLines(rest[n..]));
          return;
        }
      }
      rest := rest[n..];
    }
  }

  /** Stops at the first entry; the header is consumed, not counted. */
  method HasEntries<H, E>(p: Parsers<H, E>, bytes: seq<Byte>) returns (found: bool)
    ensures found <==> Parsed(p, bytes).entries != []
  {
    found := false;
    var headerSeen := false;
    var rest := bytes;
    ghost var t := Transcript(None, []);
    StreamSeesWholeLines(bytes);
    while rest != []
      invariant t.entries == [] && !found
      invariant headerSeen <==> t.header.Some?
      invariant Parsed(p, bytes) == ParseLines(p, t, StreamLines(rest))
      decreases |rest|
    {
      var n := AfterLine(rest);
      var decoded := Lossy(rest[..n]);
      ParseFirst(p, t, decoded, StreamLines(rest[n..]));
      t := ParseRaw(p, t, decoded);
      var line := Trim(decoded);
      if line != [] {
        if !headerSeen && p.header(line).Some? {
          headerSeen := true;
        } else if p.entry(line).Some? {
          found := true;
          HeaderStays(p, t, StreamLines(rest[n..]));
          return;
        }
      }
      rest := rest[n..];
    }
  }

  // ---- a torn end ----

  lemma FirstLine(a: seq<Byte>) returns (line: seq<Byte>, rest: seq<Byte>)
    requires NEWLINE in a
    ensures a == line + [NEWLINE] + rest && NEWLINE !in line
  {
    var n := AfterLine(a);
    line, rest := a[..n-1], a[n..];
    if n == |a| {
      assert a == line + [a[n-1]];
    }
    assert a == line + [a[n-1]] + rest;
  }

  lemma OneTextLine(s: Text)
    requires NEWLINE !in s
    ensures AllVisible(TextLines(s)) == Visible(s)
  {
    NoNewlineAt(s);
    if s == [] {
      assert Trim(s) == [];
    } else {
      assert TextLines(s) == [s] && [s][1..] == [];
    }
  }

  lemma LastLine(a: seq<Byte>)
    requires NEWLINE !in a
    ensures WholeLines(a) == Visible(Lossy(a))
  {
    LossyAddsNoNewline(a);
    OneTextLine(Lossy(a));
  }

  lemma {:induction false} WholeLinesConcat(a: seq<Byte>, b: seq<Byte>)
    ensures WholeLines(a + [NEWLINE] + b) == WholeLines(a) + WholeLines(b)
    decreases |a|
  {
    if NEWLINE !in a {
      WholeLinesSplit(a, b);
      LastLine(a);
    } else {
      var line, rest := FirstLine(a);
      WholeLinesConcat(rest, b);
      WholeLinesSplit(line, rest);
      WholeLinesSplit(line, rest + [NEWLINE] + b);
      Regroup(line + [NEWLINE], rest + [NEWLINE], b);
      Regroup(line + [NEWLINE], rest, [NEWLINE]);
      Regroup(Visible(Lossy(line)), WholeLines(rest), WholeLines(b));
    }
  }

  lemma {:induction false} ParseConcat<H, E>(p: Parsers<H, E>, t: Transcript<H, E>, a: seq<Text>, b: seq<Text>)
    ensures ParseLines(p, t, a + b) == ParseLines(p, ParseLines(p, t, a), b)
    decreases |a|
  {
    if a == [] {
      assert a + b == b;
    } else {
      assert (a + b)[1..] == a[1..] + b;
      ParseConcat(p, ParseLine(p, t, a[0]), a[1..], b);
    }
  }

  /** Whatever a crash leaves after the last whole line, the lines before it keep their header and
      their entries; and where it parses as nothing, the file reads as though it were not there. */
  lemma TornEndCostsOnlyItself<H, E>(p: Parsers<H, E>, whole: seq<Byte>, torn: seq<Byte>)
    requires NEWLINE !in torn
    ensures var before, after := Parsed(p, whole), Parsed(p, whole + [NEWLINE] + torn);
            var line := Trim(Lossy(torn));
      && (before.header.Some? ==> after.header == before.header)
      && before.entries <= after.entries
      && |after.entries| <= |before.entries| + 1
      && (p.header(line).None? && p.entry(line).None? ==> after == before)
  {
    var t := Parsed(p, whole);
    WholeLinesConcat(whole, torn);
    ParseConcat(p, Transcript(None, []), WholeLines(whole), WholeLines(torn));
    HeaderStays(p, t, WholeLines(torn));
    LastLine(torn);
    if Trim(Lossy(torn)) != [] {
      assert [Trim(Lossy(torn))][1..] == [];
    }
  }
}
