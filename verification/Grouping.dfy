/**
 What compaction writes, field by field.

 The output is the batch cut into groups of neighbours. Here the groups are described by the fields of
 their records alone, and so is the turn a chunk stands in.
 */
module Grouping {
  import opened Options
  import opened Records
  import opened Compaction
  import opened Texts

  function ChunkOf(r: Record): Option<Chunk> {
    if r.EntryLine? && r.entry.Update? && r.entry.payload.TextChunk? then Some(r.entry.payload.chunk) else None
  }

  /** Two chunks of one message. */
  predicate OfOneMessage(x: Chunk, y: Chunk) { x.kind == y.kind && x.meta == y.meta && x.messageId == y.messageId }

  /** All text, in order. */
  function AllText(rs: seq<Record>): string {
    if rs == [] then "" else (if ChunkOf(rs[0]).Some? then ChunkOf(rs[0]).value.text else "") + AllText(rs[1..])
  }

  /** Chunks of one message. */
  predicate OneMessage(group: seq<Record>) {
    && group != [] && ChunkOf(group[0]).Some?
    && forall i :: 0 <= i < |group| ==>
         ChunkOf(group[i]).Some? && OfOneMessage(ChunkOf(group[i]).value, ChunkOf(group[0]).value)
  }

  /** How a group is written: by itself as it is; several chunks of one message as the first, with all of
      their text, at the time of the last. */
  predicate WrittenAs(group: seq<Record>, r: Record) {
    if |group| == 1 then r == group[0]
    else
      && OneMessage(group)
      && r == EntryLine(Update(group[|group|-1].entry.t, TextChunk(ChunkOf(group[0]).value.(text := AllText(group)))))
  }

  /** A prompt turn runs behind `rs`: one began and none has ended since. */
  ghost predicate InLiveTurn(live: bool, rs: seq<Record>) {
    || (live && NoTurnEnd(rs))
    || exists i :: 0 <= i < |rs| && IsPrompt(rs[i]) && NoTurnEnd(rs[i..])
  }

  predicate IsPrompt(r: Record) { r.EntryLine? && r.entry.Prompt? }

  predicate NoTurnEnd(rs: seq<Record>) { forall i :: 0 <= i < |rs| ==> !(rs[i].EntryLine? && rs[i].entry.TurnEnd?) }

  /** Record `k` of the output is the group from `cuts[k]` on. Only a live turn's are of several. */
  ghost predicate GroupAt(raw: seq<Record>, live: bool, out: seq<Record>, cuts: seq<nat>, k: nat)
    requires k < |out| && |cuts| == |out| + 1
  {
    && cuts[k] < cuts[k+1] <= |raw| && WrittenAs(raw[cuts[k]..cuts[k+1]], out[k])
    && (cuts[k] + 1 < cuts[k+1] ==> InLiveTurn(live, raw[..cuts[k]]))
  }

  /** The output is the batch, cut into groups from its first record to its last. */
  ghost predicate GroupedBy(raw: seq<Record>, live: bool, out: seq<Record>, cuts: seq<nat>) {
    && |cuts| == |out| + 1 && cuts[0] == 0 && cuts[|out|] == |raw|
    && forall k: nat :: k < |out| ==> GroupAt(raw, live, out, cuts, k)
  }

  /** No two neighbours of a live turn are chunks of one message. */
  ghost predicate KeptApart(out: seq<Record>, live: bool) {
    forall k :: 0 <= k < |out| - 1 && InLiveTurn(live, out[..k]) && ChunkOf(out[k]).Some? && ChunkOf(out[k+1]).Some? ==>
      !OfOneMessage(ChunkOf(out[k]).value, ChunkOf(out[k+1]).value)
  }

  // ---- the flag ----

  /** The flag the loop carries says exactly whether a prompt turn is running. */
  lemma {:induction false} FlagMeansLiveTurn(live: bool, rs: seq<Record>)
    ensures AfterAll(live, rs) <==> InLiveTurn(live, rs)
    decreases |rs|
  {
    if rs != [] {
      var next, rest := After(live, rs[0]), rs[1..];
      FlagMeansLiveTurn(next, rest);
      assert rs == [rs[0]] + rest;
      assert NoTurnEnd(rs) <==> NoTurnEnd(rest) && !(rs[0].EntryLine? && rs[0].entry.TurnEnd?);
      if i :| 0 <= i < |rest| && IsPrompt(rest[i]) && NoTurnEnd(rest[i..]) {
        assert rs[i+1] == rest[i] && rs[i+1..] == rest[i..];
      }
      if i :| 0 <= i < |rs| && IsPrompt(rs[i]) && NoTurnEnd(rs[i..]) {
        if i == 0 {
          assert rs[0..] == rs;
        } else {
          assert rest[i-1] == rs[i] && rest[i-1..] == rs[i..];
        }
      }
    }
  }

  // ---- the groups ----

  lemma TextOfJoined(a: Record, b: Record, rest: seq<Record>)
    requires Joins(a, b)
    ensures AllText([a, b] + rest) == AllText([Join(a, b)] + rest)
  {
    assert ([a, b] + rest)[1..] == [b] + rest && ([b] + rest)[1..] == rest && ([Join(a, b)] + rest)[1..] == rest;
    Regroup(a.entry.payload.chunk.text, b.entry.payload.chunk.text, AllText(rest));
  }

  /** The first group once its first record is known to be two. */
  lemma JoinedGroup(a: Record, b: Record, rest: seq<Record>, r: Record)
    requires Joins(a, b) && WrittenAs([Join(a, b)] + rest, r)
    ensures WrittenAs([a, b] + rest, r)
  {
    var joined, group := [Join(a, b)] + rest, [a, b] + rest;
    TextOfJoined(a, b, rest);
    if rest == [] {
      assert joined == [Join(a, b)] && joined[1..] == [];
      assert AllText(joined) == Join(a, b).entry.payload.chunk.text + "" == Join(a, b).entry.payload.chunk.text;
    } else {
      assert group[|group|-1] == joined[|joined|-1];
      assert ChunkOf(joined[0]).value.(text := "") == ChunkOf(a).value.(text := "");
      forall i | 0 <= i < |group|
        ensures ChunkOf(group[i]).Some? && OfOneMessage(ChunkOf(group[i]).value, ChunkOf(group[0]).value)
      {
        if i >= 2 { assert group[i] == joined[i-1]; }
      }
    }
  }

  function OneFurther(cuts: seq<nat>): seq<nat> { seq(|cuts|, k requires 0 <= k < |cuts| => cuts[k] + 1) }

  /** A group behind a record that is kept. */
  lemma GroupBehindKept(raw: seq<Record>, live: bool, out: seq<Record>, cuts: seq<nat>, k: nat)
    requires raw != [] && k < |out| && |cuts| == |out| + 1
    requires GroupAt(raw[1..], After(live, raw[0]), out, cuts, k)
    ensures GroupAt(raw, live, [raw[0]] + out, [0] + OneFurther(cuts), k + 1)
  {
    BehindFirst(raw, cuts[k], cuts[k+1]);
    LiveBehindFirst(raw, live, cuts[k]);
  }

  lemma LiveBehindFirst(raw: seq<Record>, live: bool, n: nat)
    requires n < |raw|
    ensures InLiveTurn(live, raw[..n+1]) <==> InLiveTurn(After(live, raw[0]), raw[1..][..n])
  {
    var before := raw[..n+1];
    assert before[0] == raw[0] && before[1..] == raw[1..][..n];
    FlagMeansLiveTurn(After(live, raw[0]), before[1..]);
    FlagMeansLiveTurn(live, before);
  }

  /** A group behind the first, once the first record is known to be two. */
  lemma GroupBehindJoined(raw: seq<Record>, live: bool, out: seq<Record>, cuts: seq<nat>, k: nat)
    requires |raw| >= 2 && Joins(raw[0], raw[1]) && 0 < k < |out| && |cuts| == |out| + 1 && 0 < cuts[k]
    requires GroupAt([Join(raw[0], raw[1])] + raw[2..], live, out, cuts, k)
    ensures GroupAt(raw, live, out, [0] + OneFurther(cuts[1..]), k)
  {
    var joined := [Join(raw[0], raw[1])] + raw[2..];
    MiddlesAgree(raw, joined, cuts[k], cuts[k+1]);
    HeadsAgree(raw, joined, cuts[k]);
    var before := raw[..cuts[k]+1];
    assert AfterAll(live, joined[..cuts[k]]) == AfterAll(live, before[2..]) by {
      assert joined[..cuts[k]][1..] == before[2..];
    }
    assert AfterAll(live, before) == AfterAll(live, before[1..]) == AfterAll(live, before[2..]) by {
      assert before[0] == raw[0] && before[1] == raw[1] && before[1..][1..] == before[2..];
    }
    FlagMeansLiveTurn(live, joined[..cuts[k]]);
    FlagMeansLiveTurn(live, before);
  }

  /** The first group. */
  lemma FirstGroupJoined(raw: seq<Record>, out: seq<Record>, cuts: seq<nat>)
    requires |raw| >= 2 && Joins(raw[0], raw[1]) && out != [] && |cuts| == |out| + 1 && cuts[0] == 0
    requires GroupAt([Join(raw[0], raw[1])] + raw[2..], true, out, cuts, 0)
    ensures GroupAt(raw, true, out, [0] + OneFurther(cuts[1..]), 0)
  {
    var joined, n := [Join(raw[0], raw[1])] + raw[2..], cuts[1];
    assert joined[0..n] == [Join(raw[0], raw[1])] + joined[1..n];
    assert raw[0..n+1] == [raw[0], raw[1]] + joined[1..n];
    JoinedGroup(raw[0], raw[1], joined[1..n], out[0]);
    assert NoTurnEnd(raw[..0]);
  }

  lemma FirstGroupKept(raw: seq<Record>, live: bool, out: seq<Record>, cuts: seq<nat>)
    requires raw != [] && |cuts| == |out| + 1 && cuts[0] == 0
    ensures GroupAt(raw, live, [raw[0]] + out, [0] + OneFurther(cuts), 0)
  {
  }

  lemma {:induction false} CompactGroups(raw: seq<Record>, live: bool) returns (cuts: seq<nat>)
    ensures GroupedBy(raw, live, Compact(raw, live), cuts)
    decreases |raw|
  {
    var out := Compact(raw, live);
    if raw == [] {
      cuts := [0];
    } else if |raw| >= 2 && live && Joins(raw[0], raw[1]) {
      var were := CompactGroups([Join(raw[0], raw[1])] + raw[2..], live);
      cuts := [0] + OneFurther(were[1..]);
      FirstGroupJoined(raw, out, were);
      forall k: nat | 0 < k < |out| ensures GroupAt(raw, live, out, cuts, k) {
        CutsGrow([Join(raw[0], raw[1])] + raw[2..], live, out, were, k);
        GroupBehindJoined(raw, live, out, were, k);
      }
    } else {
      var next := After(live, raw[0]);
      var tail := Compact(raw[1..], next);
      assert out == [raw[0]] + tail;
      var were := CompactGroups(raw[1..], next);
      cuts := [0] + OneFurther(were);
      FirstGroupKept(raw, live, tail, were);
      forall k: nat | 0 < k < |out| ensures GroupAt(raw, live, out, cuts, k) {
        GroupBehindKept(raw, live, tail, were, k - 1);
      }
    }
  }

  lemma {:induction false} CutsGrow(raw: seq<Record>, live: bool, out: seq<Record>, cuts: seq<nat>, k: nat)
    requires GroupedBy(raw, live, out, cuts) && k <= |out|
    ensures k <= cuts[k]
  {
    if k > 0 {
      CutsGrow(raw, live, out, cuts, k - 1);
      assert GroupAt(raw, live, out, cuts, k - 1);
    }
  }

  /** The group of a record. */
  lemma {:induction false} GroupOf(raw: seq<Record>, live: bool, out: seq<Record>, cuts: seq<nat>, i: nat, upTo: nat)
      returns (k: nat)
    requires GroupedBy(raw, live, out, cuts) && upTo <= |out| && i < cuts[upTo]
    ensures k < |out| && cuts[k] <= i < cuts[k+1]
  {
    if i < cuts[upTo-1] { k := GroupOf(raw, live, out, cuts, i, upTo - 1); } else { k := upTo - 1; }
  }

  // ---- what a batch is written as ----

  /** The batch is written group by group: neighbouring chunks of one message, and of one live turn, as
      one record with all their text, and every other record as it is. No group could be larger. */
  lemma MessagesAreKeptApart(raw: seq<Record>, live: bool) returns (cuts: seq<nat>)
    ensures GroupedBy(raw, live, Compact(raw, live), cuts)
    ensures KeptApart(Compact(raw, live), live)
  {
    cuts := CompactGroups(raw, live);
    CompactionIsMaximal(raw, live);
    var out := Compact(raw, live);
    forall k | 0 <= k < |out| - 1 && InLiveTurn(live, out[..k]) && ChunkOf(out[k]).Some? && ChunkOf(out[k+1]).Some?
      ensures !OfOneMessage(ChunkOf(out[k]).value, ChunkOf(out[k+1]).value)
    {
      FlagMeansLiveTurn(live, out[..k]);
      assert !Joins(out[k], out[k+1]);
    }
  }

  /** No chunk changes its message: the record that carries it has its kind, `_meta` and `messageId`, as
      has every other chunk in it, and its text in its place. */
  lemma ChunkStaysInItsMessage(raw: seq<Record>, live: bool, i: nat) returns (k: nat, lo: nat, hi: nat)
    requires i < |raw| && ChunkOf(raw[i]).Some?
    ensures var out := Compact(raw, live);
      && k < |out| && lo <= i < hi <= |raw| && ChunkOf(out[k]).Some?
      && ChunkOf(out[k]).value.text == AllText(raw[lo..hi])
      && (forall j :: lo <= j < hi ==>
            ChunkOf(raw[j]).Some? && OfOneMessage(ChunkOf(raw[j]).value, ChunkOf(out[k]).value))
      && out[k].entry.t == raw[hi-1].entry.t
  {
    var out := Compact(raw, live);
    var cuts := CompactGroups(raw, live);
    k := GroupOf(raw, live, out, cuts, i, |out|);
    lo, hi := cuts[k], cuts[k+1];
    assert GroupAt(raw, live, out, cuts, k);
    var group := raw[lo..hi];
    assert group[i-lo] == raw[i];
    if |group| == 1 {
      assert group[1..] == [] && AllText(group) == ChunkOf(group[0]).value.text + AllText([]);
      assert ChunkOf(group[0]).value.text + "" == ChunkOf(group[0]).value.text;
    }
    forall j | lo <= j < hi
      ensures ChunkOf(raw[j]).Some? && OfOneMessage(ChunkOf(raw[j]).value, ChunkOf(out[k]).value)
    {
      assert group[j-lo] == raw[j];
    }
  }
}
