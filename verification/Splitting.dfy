/** Lists kept in one string: split at separators, joined with one. */
module Splitting {
  /** The pieces of `s` between its separators: one more than it has of them. */
  function Split(s: string, isSep: char -> bool): (pieces: seq<string>)
    ensures |pieces| >= 1
    decreases |s|
  {
    if s == "" then [""]
    else
      var rest := Split(s[1..], isSep);
      if isSep(s[0]) then [""] + rest else [[s[0]] + rest[0]] + rest[1..]
  }

  function Join(pieces: seq<string>, sep: char): string
    decreases |pieces|
  {
    if pieces == [] then ""
    else if |pieces| == 1 then pieces[0]
    else pieces[0] + [sep] + Join(pieces[1..], sep)
  }

  function Filter(pieces: seq<string>, keep: string -> bool): seq<string> {
    if pieces == [] then []
    else if keep(pieces[0]) then [pieces[0]] + Filter(pieces[1..], keep)
    else Filter(pieces[1..], keep)
  }

  function NonEmpty(pieces: seq<string>): seq<string> {
    Filter(pieces, (p: string) => p != "")
  }

  predicate Free(s: string, isSep: char -> bool) {
    forall i :: 0 <= i < |s| ==> !isSep(s[i])
  }

  predicate AllFree(pieces: seq<string>, isSep: char -> bool) {
    forall p :: p in pieces ==> Free(p, isSep)
  }

  /** What one more character in front does to the pieces. */
  function Prepend(c: char, pieces: seq<string>, isSep: char -> bool): seq<string>
    requires pieces != []
  {
    if isSep(c) then [""] + pieces else [[c] + pieces[0]] + pieces[1..]
  }

  lemma SplitCons(c: char, s: string, isSep: char -> bool)
    ensures Split([c] + s, isSep) == Prepend(c, Split(s, isSep), isSep)
  {
    assert ([c] + s)[1..] == s;
  }

  lemma Prepended(c: char, a: seq<string>, b: seq<string>, isSep: char -> bool)
    requires a != []
    ensures Prepend(c, a + b, isSep) == Prepend(c, a, isSep) + b
  {
  }

  lemma {:induction false} SplitIsFree(s: string, isSep: char -> bool)
    ensures AllFree(Split(s, isSep), isSep)
    decreases |s|
  {
    if s != "" {
      SplitIsFree(s[1..], isSep);
      var rest := Split(s[1..], isSep);
      assert rest[0] in rest;
      assert forall p :: p in rest[1..] ==> p in rest;
    }
  }

  lemma {:induction false} SplitOfOne(p: string, isSep: char -> bool)
    requires Free(p, isSep)
    ensures Split(p, isSep) == [p]
    decreases |p|
  {
    if p != "" {
      assert Free(p[1..], isSep);
      SplitOfOne(p[1..], isSep);
      assert [p[0]] + p[1..] == p;
    }
  }

  /** A separator splits what is on its two sides independently. */
  lemma {:induction false} SplitAtSeparator(a: string, sep: char, b: string, isSep: char -> bool)
    requires isSep(sep)
    ensures Split(a + [sep] + b, isSep) == Split(a, isSep) + Split(b, isSep)
    decreases |a|
  {
    if a == "" {
      assert a + [sep] + b == [sep] + b;
      SplitCons(sep, b, isSep);
    } else {
      var rest := a[1..] + [sep] + b;
      assert a + [sep] + b == [a[0]] + rest && a == [a[0]] + a[1..];
      SplitAtSeparator(a[1..], sep, b, isSep);
      SplitCons(a[0], rest, isSep);
      SplitCons(a[0], a[1..], isSep);
      Prepended(a[0], Split(a[1..], isSep), Split(b, isSep), isSep);
    }
  }

  /** Splitting what was joined gives the pieces back. */
  lemma {:induction false} SplitOfJoin(pieces: seq<string>, sep: char, isSep: char -> bool)
    requires pieces != [] && isSep(sep) && AllFree(pieces, isSep)
    ensures Split(Join(pieces, sep), isSep) == pieces
    decreases |pieces|
  {
    SplitOfOne(pieces[0], isSep);
    if |pieces| > 1 {
      SplitOfJoin(pieces[1..], sep, isSep);
      SplitAtSeparator(pieces[0], sep, Join(pieces[1..], sep), isSep);
    }
  }

  /** Joining what was split gives the string back. */
  lemma {:induction false} JoinOfSplit(s: string, sep: char, isSep: char -> bool)
    requires forall c :: isSep(c) <==> c == sep
    ensures Join(Split(s, isSep), sep) == s
    decreases |s|
  {
    if s != "" {
      JoinOfSplit(s[1..], sep, isSep);
      JoinPrepended(s[0], Split(s[1..], isSep), sep, isSep);
      SplitCons(s[0], s[1..], isSep);
      assert [s[0]] + s[1..] == s;
    }
  }

  lemma JoinPrepended(c: char, pieces: seq<string>, sep: char, isSep: char -> bool)
    requires pieces != [] && (isSep(c) <==> c == sep)
    ensures Join(Prepend(c, pieces, isSep), sep) == [c] + Join(pieces, sep)
  {
    var joined := Prepend(c, pieces, isSep);
    if isSep(c) {
      assert joined[1..] == pieces;
    } else {
      assert joined[1..] == pieces[1..];
    }
  }

  lemma {:induction false} JoinConcat(a: seq<string>, b: seq<string>, sep: char)
    requires a != [] && b != []
    ensures Join(a + b, sep) == Join(a, sep) + [sep] + Join(b, sep)
    decreases |a|
  {
    if |a| > 1 {
      JoinConcat(a[1..], b, sep);
      assert (a + b)[1..] == a[1..] + b;
    } else {
      assert (a + b)[1..] == b;
    }
  }

  lemma {:induction false} FilterKeeps(pieces: seq<string>, keep: string -> bool)
    ensures forall p :: p in Filter(pieces, keep) <==> p in pieces && keep(p)
    ensures (forall p :: p in pieces ==> keep(p)) ==> Filter(pieces, keep) == pieces
    ensures (forall p :: p in pieces ==> !keep(p)) ==> Filter(pieces, keep) == []
  {
    if pieces != [] {
      FilterKeeps(pieces[1..], keep);
      assert pieces == [pieces[0]] + pieces[1..];
      assert pieces[0] in pieces && forall p :: p in pieces[1..] ==> p in pieces;
    }
  }

  lemma {:induction false} FilterConcat(a: seq<string>, b: seq<string>, keep: string -> bool)
    ensures Filter(a + b, keep) == Filter(a, keep) + Filter(b, keep)
  {
    if a == [] {
      assert a + b == b;
    } else {
      FilterConcat(a[1..], b, keep);
      assert (a + b)[1..] == a[1..] + b;
    }
  }

  /** Two tests that agree on the pieces keep the same ones. */
  lemma {:induction false} FilterAlike(pieces: seq<string>, keep: string -> bool, also: string -> bool)
    requires forall p :: p in pieces ==> keep(p) == also(p)
    ensures Filter(pieces, keep) == Filter(pieces, also)
  {
    if pieces != [] {
      assert pieces[0] in pieces && forall p :: p in pieces[1..] ==> p in pieces;
      FilterAlike(pieces[1..], keep, also);
    }
  }

  lemma NonEmptyKeeps(pieces: seq<string>)
    ensures forall p :: p in NonEmpty(pieces) <==> p in pieces && p != ""
    ensures "" !in pieces ==> NonEmpty(pieces) == pieces
  {
    FilterKeeps(pieces, (p: string) => p != "");
  }

  lemma NonEmptyConcat(a: seq<string>, b: seq<string>)
    ensures NonEmpty(a + b) == NonEmpty(a) + NonEmpty(b)
  {
    FilterConcat(a, b, (p: string) => p != "");
  }

  /** The pieces of `s` that are not empty, as a word list or a list of names is read. */
  function Words(s: string, isSep: char -> bool): seq<string> {
    NonEmpty(Split(s, isSep))
  }

  lemma WordsAreWhole(s: string, isSep: char -> bool)
    ensures AllFree(Words(s, isSep), isSep) && "" !in Words(s, isSep)
  {
    SplitIsFree(s, isSep);
    NonEmptyKeeps(Split(s, isSep));
  }

  /** Words joined with any separator read back as they were, none at all included. */
  lemma WordsOfJoin(words: seq<string>, sep: char, isSep: char -> bool)
    requires isSep(sep) && AllFree(words, isSep) && "" !in words
    ensures Words(Join(words, sep), isSep) == words
  {
    if words == [] {
      NonEmptyKeeps([""]);
      assert NonEmpty([""]) == [];
    } else {
      SplitOfJoin(words, sep, isSep);
      NonEmptyKeeps(words);
    }
  }
}
