/**
 The transcript file as bytes: one printed record a line.

 The printer is any injective one whose lines hold no newline and of which no torn piece reads as
 a record, alone or in front of another line: what printing one JSON object a line provides.
 */
module TranscriptFile {
  import opened Options
  import opened Records

  datatype Codec<!B> = Codec(newline: B, render: Record -> seq<B>, parse: seq<B> -> Option<Record>)

  ghost predicate Sound<B(!new)>(c: Codec<B>) {
    && c.parse([]) == None
    && (forall r :: c.newline !in c.render(r) && c.parse(c.render(r)) == Some(r))
    && (forall r, k | 0 <= k < |c.render(r)| :: c.parse(c.render(r)[..k]) == None)
    && (forall r, k, next | 0 < k <= |c.render(r)| :: c.parse(c.render(r)[..k] + c.render(next)) == None)
  }

  datatype Cell = Newline | Piece(of: Record, at: nat)

  /** Such a printer exists, so the theorems below speak of something. */
  lemma SoundCodecExists()
    ensures exists c: Codec<Cell> :: Sound(c)
  {
    var render := (r: Record) => [Piece(r, 0), Piece(r, 1)];
    var parse := (line: seq<Cell>) =>
      if |line| == 2 && line[0].Piece? && line == render(line[0].of) then Some(line[0].of) else None;
    var c := Codec(Newline, render, parse);
    assert Sound(c);
  }

  // ---- reading ----

  function ParseLine<B>(c: Codec<B>, line: seq<B>): seq<Record> {
    var r := c.parse(line);
    if r.Some? then [r.value] else []
  }

  /** The records of a file whose current line began with `line`. */
  function DecodeFrom<B(==)>(c: Codec<B>, line: seq<B>, bytes: seq<B>): seq<Record>
    decreases |bytes|
  {
    if bytes == [] then ParseLine(c, line)
    else if bytes[0] == c.newline then ParseLine(c, line) + DecodeFrom(c, [], bytes[1..])
    else DecodeFrom(c, line + [bytes[0]], bytes[1..])
  }

  function Decode<B(==)>(c: Codec<B>, bytes: seq<B>): seq<Record> { DecodeFrom(c, [], bytes) }

  lemma {:induction false} DecodeSplits<B>(c: Codec<B>, line: seq<B>, a: seq<B>, b: seq<B>)
    ensures DecodeFrom(c, line, a + [c.newline] + b) == DecodeFrom(c, line, a) + Decode(c, b)
    decreases |a|
  {
    var whole := a + [c.newline] + b;
    if a == [] {
      assert whole == [c.newline] + b;
      assert whole[1..] == b;
    } else {
      assert whole[0] == a[0] && whole[1..] == a[1..] + [c.newline] + b;
      if a[0] == c.newline {
        DecodeSplits(c, [], a[1..], b);
      } else {
        DecodeSplits(c, line + [a[0]], a[1..], b);
      }
    }
  }

  lemma {:induction false} DecodeOneLine<B>(c: Codec<B>, line: seq<B>, rest: seq<B>)
    requires c.newline !in rest
    ensures DecodeFrom(c, line, rest) == ParseLine(c, line + rest)
    decreases |rest|
  {
    if rest == [] {
      assert line + rest == line;
    } else {
      DecodeOneLine(c, line + [rest[0]], rest[1..]);
      assert line + [rest[0]] + rest[1..] == line + rest;
    }
  }

  /** Nothing of an unfinished line stands at the end. */
  predicate AtBoundary<B(==)>(c: Codec<B>, bytes: seq<B>) {
    bytes == [] || bytes[|bytes|-1] == c.newline
  }

  /** A file splits into finished lines and the one after them. */
  lemma DecodeAppend<B(!new)>(c: Codec<B>, bytes: seq<B>, more: seq<B>)
    requires Sound(c) && AtBoundary(c, bytes)
    ensures Decode(c, bytes + more) == Decode(c, bytes) + Decode(c, more)
  {
    if bytes == [] {
      assert bytes + more == more;
    } else {
      var body := bytes[..|bytes|-1];
      assert bytes + more == body + [c.newline] + more;
      assert bytes == body + [c.newline] + [];
      DecodeSplits(c, [], body, more);
      DecodeSplits(c, [], body, []);
    }
  }

  // ---- writing ----

  /** The bytes of whole lines. */
  function Lines<B>(c: Codec<B>, rs: seq<Record>): seq<B>
    decreases |rs|
  {
    if rs == [] then [] else c.render(rs[0]) + [c.newline] + Lines(c, rs[1..])
  }

  /** How many records the first `n` bytes of their image hold whole, with or without the last
      newline. */
  function Landed<B>(c: Codec<B>, rs: seq<Record>, n: nat): (k: nat)
    ensures k <= |rs|
    decreases |rs|
  {
    if rs == [] || n < |c.render(rs[0])| then 0
    else if n == |c.render(rs[0])| then 1
    else 1 + Landed(c, rs[1..], n - |c.render(rs[0])| - 1)
  }

  /** A piece of one printed line: empty, partial, or whole but for its newline. */
  ghost predicate IsPiece<B(!new)>(c: Codec<B>, t: seq<B>) {
    t == [] || exists r, k :: 0 < k <= |c.render(r)| && t == c.render(r)[..k]
  }

  lemma PieceHasNoNewline<B(!new)>(c: Codec<B>, t: seq<B>)
    requires Sound(c) && IsPiece(c, t)
    ensures c.newline !in t
  {
    if t != [] {
      var r, k :| 0 < k <= |c.render(r)| && t == c.render(r)[..k];
      assert c.newline !in c.render(r);
    }
  }

  lemma DecodePiece<B(!new)>(c: Codec<B>, r: Record, k: nat)
    requires Sound(c) && k <= |c.render(r)|
    ensures Decode(c, c.render(r)[..k]) == if k == |c.render(r)| then [r] else []
    ensures Decode(c, c.render(r)[..k] + [c.newline]) == if k == |c.render(r)| then [r] else []
  {
    var t := c.render(r)[..k];
    assert k == |c.render(r)| ==> t == c.render(r);
    assert c.newline !in c.render(r);
    DecodeOneLine(c, [], t);
    assert [] + t == t;
    DecodeSplits(c, [], t, []);
    assert t + [c.newline] + [] == t + [c.newline];
  }

  lemma DecodeLineThen<B(!new)>(c: Codec<B>, r: Record, rest: seq<B>)
    requires Sound(c)
    ensures Decode(c, c.render(r) + [c.newline] + rest) == [r] + Decode(c, rest)
  {
    DecodeSplits(c, [], c.render(r), rest);
    DecodePiece(c, r, |c.render(r)|);
    assert c.render(r)[..|c.render(r)|] == c.render(r);
  }

  /** A write cut at any byte holds a prefix of the records whole, and only those. */
  lemma {:induction false} CutLines<B(!new)>(c: Codec<B>, rs: seq<Record>, n: nat)
    requires Sound(c) && n <= |Lines(c, rs)|
    ensures Decode(c, Lines(c, rs)[..n]) == rs[..Landed(c, rs, n)]
    ensures Decode(c, Lines(c, rs)[..n] + [c.newline]) == rs[..Landed(c, rs, n)]
    decreases |rs|
  {
    var cut := Lines(c, rs)[..n];
    if rs == [] {
      assert cut + [c.newline] == [] + [c.newline] + [];
      DecodeSplits(c, [], [], []);
    } else if n <= |c.render(rs[0])| {
      assert cut == c.render(rs[0])[..n];
      DecodePiece(c, rs[0], n);
    } else {
      var m := n - |c.render(rs[0])| - 1;
      CutLines(c, rs[1..], m);
      var rest := Lines(c, rs[1..])[..m];
      assert cut == c.render(rs[0]) + [c.newline] + rest;
      assert cut + [c.newline] == c.render(rs[0]) + [c.newline] + (rest + [c.newline]);
      DecodeLineThen(c, rs[0], rest);
      DecodeLineThen(c, rs[0], rest + [c.newline]);
      assert rs[..Landed(c, rs, n)] == [rs[0]] + rs[1..][..Landed(c, rs[1..], m)];
    }
  }

  /** Such a write ends with one piece of a line after the last line end. */
  lemma {:induction false} CutEndsWithPiece<B(!new)>(c: Codec<B>, rs: seq<Record>, n: nat)
      returns (head: seq<B>, piece: seq<B>)
    requires Sound(c) && n <= |Lines(c, rs)|
    ensures Lines(c, rs)[..n] == head + piece && AtBoundary(c, head) && IsPiece(c, piece)
    decreases |rs|
  {
    if rs == [] {
      head, piece := [], [];
    } else if n <= |c.render(rs[0])| {
      head, piece := [], c.render(rs[0])[..n];
      assert Lines(c, rs)[..n] == piece;
    } else {
      var m := n - |c.render(rs[0])| - 1;
      head, piece := CutEndsWithPiece(c, rs[1..], m);
      var line := c.render(rs[0]) + [c.newline];
      assert Lines(c, rs)[..n] == line + Lines(c, rs[1..])[..m] == line + head + piece;
      head := line + head;
    }
  }

  lemma {:induction false} LinesBoundary<B(!new)>(c: Codec<B>, rs: seq<Record>)
    requires Sound(c)
    ensures AtBoundary(c, Lines(c, rs))
    ensures Decode(c, Lines(c, rs)) == rs
    ensures rs != [] ==> Lines(c, rs) != []
    decreases |rs|
  {
    if rs != [] {
      LinesBoundary(c, rs[1..]);
      DecodeLineThen(c, rs[0], Lines(c, rs[1..]));
    }
  }

  /** Appending to an unfinished line loses a record: one more line reads back if and only if the
      file ended at a line end. */
  lemma AppendReadsBackIffAtBoundary<B(!new)>(c: Codec<B>, head: seq<B>, piece: seq<B>, r: Record)
    requires Sound(c) && AtBoundary(c, head) && IsPiece(c, piece)
    ensures var file := head + piece;
            Decode(c, file + Lines(c, [r])) == Decode(c, file) + [r] <==> AtBoundary(c, file)
  {
    var file := head + piece;
    LinesBoundary(c, [r]);
    if piece == [] {
      assert file == head;
      DecodeAppend(c, head, Lines(c, [r]));
    } else {
      PieceHasNoNewline(c, piece);
      assert file[|file|-1] == piece[|piece|-1];
      DecodeAppend(c, head, piece);
      DecodeAppend(c, head, piece + Lines(c, [r]));
      assert file + Lines(c, [r]) == head + (piece + Lines(c, [r]));
      SplicedLineIsLost(c, piece, r);
    }
  }

  lemma SplicedLineIsLost<B(!new)>(c: Codec<B>, piece: seq<B>, r: Record)
    requires Sound(c) && IsPiece(c, piece) && piece != []
    ensures Decode(c, piece + Lines(c, [r])) == []
  {
    var line := piece + c.render(r);
    PieceHasNoNewline(c, piece);
    assert c.newline !in c.render(r);
    assert piece + Lines(c, [r]) == line + [c.newline] + [];
    DecodeSplits(c, [], line, []);
    DecodeOneLine(c, [], line);
    assert [] + line == line && c.parse(line) == None;
  }
}
