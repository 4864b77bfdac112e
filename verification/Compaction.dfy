/**
 Write-behind compaction: each run of streamed agent text is written as one record.

 The specification rewrites a batch from the left, joining its first two records while they join.
 The method is the source's loop over one open run.
 */
module Compaction {
  import opened Options
  import opened Records
  import opened Reader
  import opened Texts

  predicate Mergeable(r: Record) {
    r.EntryLine? && r.entry.Update? && r.entry.payload.TextChunk?
  }

  /** Two records the loop may fold into one: same kind, same `_meta`, same `messageId`. */
  predicate Joins(a: Record, b: Record) {
    && Mergeable(a) && Mergeable(b)
    && var x, y := a.entry.payload.chunk, b.entry.payload.chunk;
       x.kind == y.kind && x.meta == y.meta && x.messageId == y.messageId
  }

  /** The run keeps the first record's fields, all of the text and the LAST timestamp. */
  function Join(a: Record, b: Record): (r: Record)
    requires Joins(a, b)
    ensures Mergeable(r)
    ensures forall c :: (Joins(c, r) <==> Joins(c, a)) && (Joins(r, c) <==> Joins(a, c))
  {
    var x, y := a.entry.payload.chunk, b.entry.payload.chunk;
    EntryLine(Update(b.entry.t, TextChunk(x.(text := x.text + y.text))))
  }

  /** Whether a live prompt turn is running after `r`. */
  predicate After(live: bool, r: Record) {
    if r.EntryLine? && r.entry.Prompt? then true
    else if r.EntryLine? && r.entry.TurnEnd? then false
    else live
  }

  predicate AfterAll(live: bool, rs: seq<Record>)
    decreases |rs|
  {
    if rs == [] then live else AfterAll(After(live, rs[0]), rs[1..])
  }

  function Compact(rs: seq<Record>, live: bool): seq<Record>
    decreases |rs|
  {
    if |rs| < 2 then rs
    else if live && Joins(rs[0], rs[1]) then Compact([Join(rs[0], rs[1])] + rs[2..], live)
    else [rs[0]] + Compact(rs[1..], After(live, rs[0]))
  }

  // ---- the loop ----

  function OpenRun(open: Option<Record>): seq<Record> { if open.Some? then [open.value] else [] }

  lemma {:induction false} CompactAfterFixed(a: Record, rest: seq<Record>, live: bool)
    requires rest == [] || !(live && Joins(a, rest[0]))
    ensures Compact([a] + rest, live) == [a] + Compact(rest, After(live, a))
  {
    if rest == [] {
      assert [a] + rest == [a];
    } else {
      assert ([a] + rest)[1..] == rest;
    }
  }

  lemma {:induction false} CompactJoined(a: Record, b: Record, rest: seq<Record>)
    requires Joins(a, b)
    ensures Compact([a, b] + rest, true) == Compact([Join(a, b)] + rest, true)
  {
    assert ([a, b] + rest)[2..] == rest;
  }

  /** What one turn of the loop does to the batch still to come. */
  lemma LoopStep(open: Option<Record>, record: Record, rest: seq<Record>, live: bool)
    requires open.Some? ==> live && Mergeable(open.value)
    ensures var before := Compact(OpenRun(open) + ([record] + rest), live);
      if live && open.Some? && Joins(open.value, record) then
        before == Compact(OpenRun(Some(Join(open.value, record))) + rest, live)
      else if live && Mergeable(record) then
        before == OpenRun(open) + Compact(OpenRun(Some(record)) + rest, live)
      else
        before == OpenRun(open) + [record] + Compact(OpenRun(None) + rest, After(live, record))
  {
    if live && open.Some? && Joins(open.value, record) {
      assert OpenRun(open) + ([record] + rest) == [open.value, record] + rest;
      CompactJoined(open.value, record, rest);
    } else {
      CloseRun(open, [record] + rest, live);
      if !(live && Mergeable(record)) {
        FixedRecord(record, rest, live);
        Regroup(OpenRun(open), [record], Compact(OpenRun(None) + rest, After(live, record)));
      }
    }
  }

  lemma FixedRecord(record: Record, rest: seq<Record>, live: bool)
    requires !(live && Mergeable(record))
    ensures Compact([record] + rest, live) == [record] + Compact(OpenRun(None) + rest, After(live, record))
  {
    CompactAfterFixed(record, rest, live);
    assert OpenRun(None) + rest == rest;
  }

  /** One record: what is closed and written, and what stays open for `rest`. */
  method TakeRecord(open: Option<Record>, record: Record, live: bool, ghost rest: seq<Record>)
      returns (written: seq<Record>, stillOpen: Option<Record>, next: bool)
    requires open.Some? ==> live && Mergeable(open.value)
    ensures next == After(live, record)
    ensures stillOpen.Some? ==> next && Mergeable(stillOpen.value)
    ensures Compact(OpenRun(open) + ([record] + rest), live) == written + Compact(OpenRun(stillOpen) + rest, next)
  {
    LoopStep(open, record, rest, live);
    next := After(live, record);
    if live && record.EntryLine? && record.entry.Update? {
      if Mergeable(record) && open.Some? && Joins(open.value, record) {
        return [], Some(Join(open.value, record)), next;
      } else if Mergeable(record) {
        return OpenRun(open), Some(record), next;
      }
    }
    return OpenRun(open) + [record], None, next;
  }

  method CompactBatch(pending: seq<Record>, compactable: bool) returns (out: seq<Record>, next: bool)
    ensures out == Compact(pending, compactable)
    ensures next == AfterAll(compactable, pending)
  {
    next := compactable;
    out := [];
    var open: Option<Record> := None;
    ghost var toCome := Compact(pending, compactable);
    assert OpenRun(None) + pending[0..] == pending;
    for i := 0 to |pending|
      invariant open.Some? ==> next && Mergeable(open.value)
      invariant toCome == Compact(OpenRun(open) + pending[i..], next)
      invariant Compact(pending, compactable) == out + toCome
      invariant AfterAll(compactable, pending) == AfterAll(next, pending[i..])
    {
      NextToCome(pending, i, next);
      ghost var out0 := out;
      var written;
      written, open, next := TakeRecord(open, pending[i], next, pending[i+1..]);
      toCome := Compact(OpenRun(open) + pending[i+1..], next);
      Regroup(out0, written, toCome);
      out := out + written;
    }
    assert OpenRun(open) + pending[|pending|..] == OpenRun(open);
    out := out + OpenRun(open);
  }

  lemma NextToCome(pending: seq<Record>, i: nat, live: bool)
    requires i < |pending|
    ensures pending[i..] == [pending[i]] + pending[i+1..]
    ensures AfterAll(live, pending[i..]) == AfterAll(After(live, pending[i]), pending[i+1..])
  {
    assert pending[i..][1..] == pending[i+1..];
  }

  /** Nothing that follows joins the open run, so closing it here loses no merge. */
  lemma {:induction false} CloseRun(open: Option<Record>, rest: seq<Record>, live: bool)
    requires rest != []
    requires open.Some? ==> live && Mergeable(open.value) && !Joins(open.value, rest[0])
    ensures Compact(OpenRun(open) + rest, live) == OpenRun(open) + Compact(rest, live)
  {
    if open.Some? {
      CompactAfterFixed(open.value, rest, live);
    } else {
      assert OpenRun(open) + rest == rest;
    }
  }

  // ---- merging is invisible to the reader ----

  /** The reader already knows when the turn under construction started, or will start. */
  predicate Started(s: State) { s.pending.Some? || s.startHint.Some? }

  lemma PushTextTwice(p: Pending, x: string, y: string, kind: ChunkKind)
    ensures PushText(PushText(p, x, kind), y, kind) == PushText(p, x + y, kind)
  {
    if x == "" {
      assert x + y == y;
    } else if y == "" {
      assert x + y == x;
    } else {
      AddTextTwice(p.blocks, x, y, kind);
    }
  }

  lemma AddTextTwice(blocks: seq<Block>, x: string, y: string, kind: ChunkKind)
    ensures AddText(AddText(blocks, x, kind), y, kind) == AddText(blocks, x + y, kind)
  {
    var n := |blocks|;
    if 0 < n && kind.Message? && blocks[n-1].Text? {
      Regroup(blocks[n-1].text, x, y);
      AddToLast(blocks[..n-1], Text(blocks[n-1].text + x), y, kind);
    } else if 0 < n && kind.Thought? && blocks[n-1].Thinking? {
      Regroup(blocks[n-1].thought, x, y);
      AddToLast(blocks[..n-1], Thinking(blocks[n-1].thought + x), y, kind);
    } else {
      AddToLast(blocks, if kind.Message? then Text(x) else Thinking(x), y, kind);
    }
  }

  lemma AddToLast(front: seq<Block>, last: Block, y: string, kind: ChunkKind)
    requires if kind.Message? then last.Text? else last.Thinking?
    ensures AddText(front + [last], y, kind) ==
      front + [if kind.Message? then Text(last.text + y) else Thinking(last.thought + y)]
  {
    assert (front + [last])[..|front|] == front;
  }

  lemma ReadTwo(s: State, a: Record, b: Record)
    ensures Read(s, [a]) == StepRecord(s, a)
    ensures Read(s, [a, b]) == StepRecord(StepRecord(s, a), b)
  {
    assert [a][1..] == [] && [a, b][1..] == [b] && [b][1..] == [];
    assert Read(StepRecord(s, a), [b]) == StepRecord(StepRecord(s, a), b);
  }

  /** One merge step, exactly: the reader cannot tell if and only if its turn has a start already
      (or the two chunks carry one timestamp, so that there is nothing to lose). */
  lemma MergeIsInvisibleIffStarted(s: State, a: Record, b: Record)
    requires Joins(a, b)
    ensures Read(s, [a, b]) == Read(s, [Join(a, b)]) <==> Started(s) || a.entry.t == b.entry.t
  {
    ReadTwo(s, a, b);
    ReadTwo(s, Join(a, b), b);
    MergeStep(s, a.entry.t, b.entry.t, a.entry.payload.chunk, b.entry.payload.chunk);
  }

  lemma MergeStep(s: State, t: nat, u: nat, x: Chunk, y: Chunk)
    requires x.kind == y.kind
    ensures var twice := OnUpdate(OnUpdate(s, t, TextChunk(x)), u, TextChunk(y));
            var merged := OnUpdate(s, u, TextChunk(x.(text := x.text + y.text)));
            twice == merged <==> Started(s) || t == u
  {
    var p, q, r := Opened(s, t), Opened(s, t).(lastAt := u), Opened(s, u);
    var text, kind := x.text + y.text, x.kind;
    assert q == r.(startedAt := p.startedAt) && (p.startedAt == r.startedAt <==> Started(s) || t == u);
    OpenedTwice(s, PushText(p, x.text, kind), u);
    OnlyTheTimesDiffer(p, u, p.startedAt, x.text, kind);
    PushTextTwice(q, x.text, y.text, kind);
    OnlyTheTimesDiffer(r, u, p.startedAt, text, kind);
    assert WithOpen(s, PushText(q, text, kind)) == WithOpen(s, PushText(r, text, kind)) <==>
           PushText(q, text, kind) == PushText(r, text, kind);
  }

  lemma OpenedTwice(s: State, p: Pending, u: nat)
    ensures Opened(WithOpen(s, p), u) == p.(lastAt := u)
    ensures forall q :: WithOpen(WithOpen(s, p), q) == WithOpen(s, q)
  {
  }

  lemma OnlyTheTimesDiffer(p: Pending, last: nat, start: nat, text: string, kind: ChunkKind)
    ensures PushText(p.(lastAt := last, startedAt := start), text, kind)
         == PushText(p, text, kind).(lastAt := last, startedAt := start)
    ensures PushText(p, text, kind).startedAt == p.startedAt && PushText(p, text, kind).lastAt == p.lastAt
  {
  }

  /** An update that opens the turn under construction, or fixes when the next one starts. */
  predicate Opens(s: State, u: Payload) {
    match u
    case Ignored => false
    case UserChunk(input) => input.Some? && !s.promptJustRecorded
    case ToolCallUpdate(call) => ClosedTarget(s, call).None?
    case _ => true
  }

  predicate OpenAfter(open: bool, s: State, r: Record) {
    After(open, r) || (r.EntryLine? && r.entry.Update? && Opens(s, r.entry.payload))
  }

  /** Whether a turn is open behind `rs`, if `open` says so before: a prompt opens one, a turn end
      closes it, and behind a turn end an update may open another. */
  predicate TurnIsOpen(open: bool, s: State, rs: seq<Record>)
    decreases |rs|
  {
    if rs == [] then open
    else TurnIsOpen(OpenAfter(open, s, rs[0]),
                    StepRecord(s, rs[0]), rs[1..])
  }

  lemma {:induction false} StartedIffTurnIsOpen(s: State, rs: seq<Record>)
    ensures Started(Read(s, rs)) <==> TurnIsOpen(Started(s), s, rs)
    decreases |rs|
  {
    if rs != [] {
      StepStarted(s, rs[0]);
      StartedIffTurnIsOpen(StepRecord(s, rs[0]), rs[1..]);
    }
  }

  lemma StepStarted(s: State, r: Record)
    ensures Started(StepRecord(s, r)) <==>
      OpenAfter(Started(s), s, r)
  {
    if r.EntryLine? && r.entry.Update? {
      UpdateStarted(s, r.entry.t, r.entry.payload);
    }
  }

  lemma UpdateStarted(s: State, at: nat, u: Payload)
    ensures Started(OnUpdate(s, at, u)) <==> Started(s) || Opens(s, u)
  {
    if u.UserChunk? && Opens(s, u) {
      assert OnUserChunk(s, at, u.input).startHint == Some(at);
    }
  }

  /** Every update stands inside a live turn. */
  predicate UpdatesAreLive(live: bool, rs: seq<Record>)
    decreases |rs|
  {
    if rs == [] then true
    else (rs[0].EntryLine? && rs[0].entry.Update? ==> live) && UpdatesAreLive(After(live, rs[0]), rs[1..])
  }

  /** The flag the loop computes is enough to keep a turn open, and while no update stands behind a
      turn end it says exactly whether one is. */
  lemma {:induction false} FlagKeepsTurnOpen(s: State, live: bool, open: bool, rs: seq<Record>)
    requires live ==> open
    ensures AfterAll(live, rs) ==> TurnIsOpen(open, s, rs)
    ensures live == open && UpdatesAreLive(live, rs) ==> (TurnIsOpen(open, s, rs) <==> AfterAll(live, rs))
    decreases |rs|
  {
    if rs != [] {
      var r := rs[0];
      FlagKeepsTurnOpen(StepRecord(s, r), After(live, r),
                        OpenAfter(open, s, r), rs[1..]);
    }
  }

  lemma {:induction false} TurnEndClosesIt(s: State, open: bool, rs: seq<Record>)
    requires rs != [] && rs[|rs|-1].EntryLine? && rs[|rs|-1].entry.TurnEnd?
    ensures !TurnIsOpen(open, s, rs)
    decreases |rs|
  {
    if |rs| > 1 {
      TurnEndClosesIt(StepRecord(s, rs[0]),
                      OpenAfter(open, s, rs[0]), rs[1..]);
    }
  }

  /** What keeps `compactable` honest: while it is set, the reader's turn start is fixed. */
  lemma LiveImpliesStarted(s: State, live: bool, r: Record)
    requires live ==> Started(s)
    ensures After(live, r) ==> Started(StepRecord(s, r))
  {
    if r.EntryLine? && r.entry.Update? && live {
      UpdateKeepsStarted(s, r.entry.t, r.entry.payload);
    }
  }

  lemma UpdateKeepsStarted(s: State, at: nat, u: Payload)
    requires Started(s)
    ensures Started(OnUpdate(s, at, u))
  {
    if u.UserChunk? && !s.promptJustRecorded && u.input.Some? {
      assert OnUserChunk(s, at, u.input).startHint == Some(at);
    }
  }

  lemma {:induction false} LiveImpliesStartedAll(s: State, live: bool, rs: seq<Record>)
    requires live ==> Started(s)
    ensures AfterAll(live, rs) ==> Started(Read(s, rs))
    decreases |rs|
  {
    if rs != [] {
      LiveImpliesStarted(s, live, rs[0]);
      LiveImpliesStartedAll(StepRecord(s, rs[0]), After(live, rs[0]), rs[1..]);
    }
  }

  /** One batch. */
  lemma {:induction false} CompactReadsTheSame(s: State, rs: seq<Record>, live: bool)
    requires live ==> Started(s)
    ensures Read(s, Compact(rs, live)) == Read(s, rs)
    decreases |rs|
  {
    if |rs| < 2 {
    } else if live && Joins(rs[0], rs[1]) {
      var merged := [Join(rs[0], rs[1])] + rs[2..];
      CompactReadsTheSame(s, merged, live);
      MergeIsInvisibleIffStarted(s, rs[0], rs[1]);
      ReadConcat(s, [Join(rs[0], rs[1])], rs[2..]);
      ReadConcat(s, [rs[0], rs[1]], rs[2..]);
      assert [rs[0], rs[1]] + rs[2..] == rs;
    } else {
      LiveImpliesStarted(s, live, rs[0]);
      CompactReadsTheSame(StepRecord(s, rs[0]), rs[1..], After(live, rs[0]));
      var tail := Compact(rs[1..], After(live, rs[0]));
      assert ([rs[0]] + tail)[1..] == tail;
    }
  }

  function TurnsAfter(s: State, rs: seq<Record>): seq<Turn> { Flush(Read(s, rs)).turns }

  /** When a writer may merge at all: every batch it could be handed reads the same if and only
      if its `compactable` flag implies that the reader's turn has a start. */
  lemma MergingIsSafeIffStarted(s: State, live: bool)
    ensures (forall rs :: TurnsAfter(s, Compact(rs, live)) == TurnsAfter(s, rs)) <==> (live ==> Started(s))
  {
    if live ==> Started(s) {
      forall rs ensures TurnsAfter(s, Compact(rs, live)) == TurnsAfter(s, rs) {
        CompactReadsTheSame(s, rs, live);
      }
    } else {
      MergedStartMoves(s);
    }
  }

  /** Two chunks of a turn with no start yet. */
  const FIRST_CHUNK := EntryLine(Update(0, TextChunk(Chunk(Message, None, None, "a", ""))))
  const SECOND_CHUNK := EntryLine(Update(1, TextChunk(Chunk(Message, None, None, "b", ""))))

  lemma MergedStartMoves(s: State)
    requires !Started(s)
    ensures TurnsAfter(s, Compact([FIRST_CHUNK, SECOND_CHUNK], true)) != TurnsAfter(s, [FIRST_CHUNK, SECOND_CHUNK])
  {
    var a, b := FIRST_CHUNK, SECOND_CHUNK;
    ReadTwo(s, a, b);
    ReadTwo(s, Join(a, b), b);
    assert [Join(a, b)] + [a, b][2..] == [Join(a, b)];
    assert Compact([a, b], true) == [Join(a, b)];
    var n := |s.turns|;
    assert TurnsAfter(s, [a, b])[n].timestamp == 0;
    assert TurnsAfter(s, [Join(a, b)])[n].timestamp == 1;
  }

  /** A flush window: its records, and whether the writer lost its state just before it
      (an idle writer is forgotten, and a new one starts with `compactable` unset). */
  datatype Window = Window(records: seq<Record>, forgotten: bool)

  function Recorded(ws: seq<Window>): seq<Record>
    decreases |ws|
  {
    if ws == [] then [] else ws[0].records + Recorded(ws[1..])
  }

  function Written(ws: seq<Window>, live: bool): seq<Record>
    decreases |ws|
  {
    if ws == [] then []
    else
      var now := live && !ws[0].forgotten;
      Compact(ws[0].records, now) + Written(ws[1..], AfterAll(now, ws[0].records))
  }

  lemma {:induction false} WrittenReadsTheSame(s: State, ws: seq<Window>, live: bool)
    requires live ==> Started(s)
    ensures Read(s, Written(ws, live)) == Read(s, Recorded(ws))
    decreases |ws|
  {
    if ws != [] {
      var now := live && !ws[0].forgotten;
      var rs := ws[0].records;
      CompactReadsTheSame(s, rs, now);
      LiveImpliesStartedAll(s, now, rs);
      WrittenReadsTheSame(Read(s, rs), ws[1..], AfterAll(now, rs));
      ReadConcat(s, Compact(rs, now), Written(ws[1..], AfterAll(now, rs)));
      ReadConcat(s, rs, Recorded(ws[1..]));
    }
  }

  /** Whatever the stream, and however it is cut into flush windows and writer lifetimes, the
      history reads as though nothing had been merged. */
  lemma CompactionPreservesHistory(ws: seq<Window>)
    ensures Project(Written(ws, false)) == Project(Recorded(ws))
  {
    WrittenReadsTheSame(INIT, ws, false);
  }

  // ---- an independent description of the output ----

  lemma {:induction false} AfterAllConcat(live: bool, a: seq<Record>, b: seq<Record>)
    ensures AfterAll(live, a + b) == AfterAll(AfterAll(live, a), b)
    decreases |a|
  {
    if a == [] {
      assert a + b == b;
    } else {
      assert (a + b)[0] == a[0] && (a + b)[1..] == a[1..] + b;
      AfterAllConcat(After(live, a[0]), a[1..], b);
    }
  }

  lemma {:induction false} CompactKeepsLive(rs: seq<Record>, live: bool)
    ensures AfterAll(live, Compact(rs, live)) == AfterAll(live, rs)
    ensures rs != [] ==> Compact(rs, live) != []
    decreases |rs|
  {
    if |rs| < 2 {
    } else if live && Joins(rs[0], rs[1]) {
      var merged := [Join(rs[0], rs[1])] + rs[2..];
      CompactKeepsLive(merged, live);
      assert merged[1..] == rs[2..] && rs[1..][1..] == rs[2..];
      assert AfterAll(live, merged) == AfterAll(live, rs[2..]);
      assert AfterAll(live, rs) == AfterAll(live, rs[1..]) == AfterAll(live, rs[2..]);
    } else {
      CompactKeepsLive(rs[1..], After(live, rs[0]));
      var tail := Compact(rs[1..], After(live, rs[0]));
      assert ([rs[0]] + tail)[1..] == tail;
    }
  }

  /** Compacting a prefix first changes nothing. */
  lemma {:induction false} CompactPrefixFirst(a: seq<Record>, b: seq<Record>, live: bool)
    ensures Compact(Compact(a, live) + b, live) == Compact(a + b, live)
    decreases |a|
  {
    if |a| < 2 {
    } else if live && Joins(a[0], a[1]) {
      var merged := [Join(a[0], a[1])] + a[2..];
      CompactPrefixFirst(merged, b, live);
      assert merged + b == [Join(a[0], a[1])] + (a[2..] + b);
      CompactJoined(a[0], a[1], a[2..] + b);
      assert [a[0], a[1]] + (a[2..] + b) == a + b;
    } else {
      CompactPrefixFirst(a[1..], b, After(live, a[0]));
      PrefixBehindFixed(a[0], a[1..], b, live);
      assert [a[0]] + a[1..] == a;
    }
  }

  lemma PrefixBehindFixed(r: Record, a: seq<Record>, b: seq<Record>, live: bool)
    requires a != [] && !(live && Joins(r, a[0]))
    requires Compact(Compact(a, After(live, r)) + b, After(live, r)) == Compact(a + b, After(live, r))
    ensures Compact(Compact([r] + a, live) + b, live) == Compact([r] + a + b, live)
  {
    var tail := Compact(a, After(live, r));
    HeadAfterCompact(a, After(live, r));
    CompactAfterFixed(r, a, live);
    Regroup([r], tail, b);
    Regroup([r], a, b);
    assert (tail + b)[0] == tail[0] && (a + b)[0] == a[0];
    CompactAfterFixed(r, tail + b, live);
    CompactAfterFixed(r, a + b, live);
  }

  /** The first output record joins exactly what the first input record joined. */
  lemma {:induction false} HeadAfterCompact(rs: seq<Record>, live: bool)
    requires rs != []
    ensures Compact(rs, live) != []
    ensures forall c :: Joins(c, Compact(rs, live)[0]) <==> Joins(c, rs[0])
    decreases |rs|
  {
    if |rs| >= 2 && live && Joins(rs[0], rs[1]) {
      var merged := [Join(rs[0], rs[1])] + rs[2..];
      HeadAfterCompact(merged, live);
      assert merged[0] == Join(rs[0], rs[1]);
    }
  }

  lemma JoinAssociative(a: Record, b: Record, c: Record)
    requires Joins(a, b) && Joins(b, c)
    ensures Join(Join(a, b), c) == Join(a, Join(b, c))
  {
    var x, y, z := a.entry.payload.chunk.text, b.entry.payload.chunk.text, c.entry.payload.chunk.text;
    assert (x + y) + z == x + (y + z);
  }

  /** The first two of a batch that join are as good as joined. */
  lemma JoinFirst(whole: seq<Record>, merged: seq<Record>, a: Record, b: Record, rest: seq<Record>)
    requires Joins(a, b) && whole == [a, b] + rest && merged == [Join(a, b)] + rest
    ensures Compact(whole, true) == Compact(merged, true)
  {
    CompactJoined(a, b, rest);
  }

  lemma MergeUnder(a: Record, b: Record, c: Record, rest: seq<Record>)
    requires Joins(a, b) && Joins(b, c)
    ensures Compact([a] + ([Join(b, c)] + rest), true) == Compact([a] + ([b, c] + rest), true)
  {
    JoinAssociative(a, b, c);
    var all := [Join(Join(a, b), c)] + rest;
    JoinFirst([a] + ([Join(b, c)] + rest), all, a, Join(b, c), rest);
    JoinFirst([a] + ([b, c] + rest), [Join(a, b)] + ([c] + rest), a, b, [c] + rest);
    JoinFirst([Join(a, b)] + ([c] + rest), all, Join(a, b), c, rest);
  }

  /** A compacted suffix whose first record stayed by itself, under one that joins it. */
  lemma SuffixUnder(a: Record, b: Record, rest: seq<Record>, compacted: seq<Record>)
    requires Joins(a, b)
    requires Compact([Join(a, b)] + compacted, true) == Compact([Join(a, b)] + rest, true)
    ensures Compact([a] + ([b] + compacted), true) == Compact([a] + ([b] + rest), true)
  {
    JoinFirst([a] + ([b] + compacted), [Join(a, b)] + compacted, a, b, compacted);
    JoinFirst([a] + ([b] + rest), [Join(a, b)] + rest, a, b, rest);
  }

  lemma SuffixBehindFixed(a: Record, b: seq<Record>, live: bool)
    requires b != [] && !(live && Joins(a, b[0]))
    ensures Compact([a] + Compact(b, After(live, a)), live) == Compact([a] + b, live)
  {
    var next := After(live, a);
    HeadAfterCompact(b, next);
    CompactAfterFixed(a, Compact(b, next), live);
    CompactAfterFixed(a, b, live);
    CompactPrefixFirst(b, [], next);
    assert Compact(b, next) + [] == Compact(b, next) && b + [] == b;
  }

  /** Compacting a suffix first, after one record. */
  lemma {:induction false} CompactSuffixAfterOne(a: Record, b: seq<Record>, live: bool)
    ensures Compact([a] + Compact(b, After(live, a)), live) == Compact([a] + b, live)
    decreases |b|
  {
    if b == [] {
      assert [a] + Compact(b, After(live, a)) == [a] + b;
    } else {
      if !(live && Joins(a, b[0])) {
        SuffixBehindFixed(a, b, live);
      } else if |b| >= 2 && Joins(b[0], b[1]) {
        // b's first two merge: move the merge under `a`.
        CompactSuffixAfterOne(a, [Join(b[0], b[1])] + b[2..], live);
        MergeUnder(a, b[0], b[1], b[2..]);
        assert b == [b[0], b[1]] + b[2..];
      } else {
        var rest := Compact(b[1..], After(live, b[0]));
        CompactSuffixAfterOne(Join(a, b[0]), b[1..], live);
        SuffixUnder(a, b[0], b[1..], rest);
        assert b == [b[0]] + b[1..];
        CompactAfterFixed(b[0], b[1..], live);
      }
    }
  }

  lemma {:induction false} CompactSuffixFirst(a: seq<Record>, b: seq<Record>, live: bool)
    ensures Compact(a + Compact(b, AfterAll(live, a)), live) == Compact(a + b, live)
    decreases |a|
  {
    var tail := Compact(b, AfterAll(live, a));
    if a == [] {
      assert a + tail == tail && a + b == b;
      CompactPrefixFirst(b, [], live);
      assert tail + [] == tail && b + [] == b;
    } else {
      var next := After(live, a[0]);
      CompactSuffixFirst(a[1..], b, next);
      assert AfterAll(next, a[1..]) == AfterAll(live, a);
      CompactSuffixAfterOne(a[0], a[1..] + b, live);
      CompactSuffixAfterOne(a[0], a[1..] + tail, live);
      assert [a[0]] + (a[1..] + b) == a + b && [a[0]] + (a[1..] + tail) == a + tail;
    }
  }

  /** Confluence: compacting two compacted batches together gives what one pass over the raw
      records gives, and the flag distributes over the concatenation. */
  lemma CompactionIsConfluent(a: seq<Record>, b: seq<Record>, live: bool)
    ensures var mid := AfterAll(live, a);
            && Compact(Compact(a, live) + Compact(b, mid), live) == Compact(a + b, live)
            && AfterAll(live, a + b) == AfterAll(mid, b)
  {
    var mid := AfterAll(live, a);
    CompactPrefixFirst(a, Compact(b, mid), live);
    CompactSuffixFirst(a, b, live);
    AfterAllConcat(live, a, b);
  }

  /** A batch already compacted is left alone, which is what makes a retried flush harmless. */
  lemma CompactionIsIdempotent(rs: seq<Record>, live: bool)
    ensures Compact(Compact(rs, live), live) == Compact(rs, live)
  {
    CompactPrefixFirst(rs, [], live);
    assert Compact(rs, live) + [] == Compact(rs, live) && rs + [] == rs;
  }

  function Spoken(kind: ChunkKind, r: Record): string {
    if Mergeable(r) && r.entry.payload.chunk.kind == kind then r.entry.payload.chunk.text else ""
  }

  /** All the text of one kind, in order. */
  function TextOf(kind: ChunkKind, rs: seq<Record>): string
    decreases |rs|
  {
    if rs == [] then "" else Spoken(kind, rs[0]) + TextOf(kind, rs[1..])
  }

  function Unmerged(r: Record): seq<Record> { if Mergeable(r) then [] else [r] }

  /** Everything that is never merged, in order. */
  function Verbatim(rs: seq<Record>): seq<Record>
    decreases |rs|
  {
    if rs == [] then [] else Unmerged(rs[0]) + Verbatim(rs[1..])
  }

  /** The two hold the same records, but for how their text is cut. */
  ghost predicate SameContent(a: seq<Record>, b: seq<Record>) {
    Verbatim(a) == Verbatim(b) && forall kind :: TextOf(kind, a) == TextOf(kind, b)
  }

  lemma TextOfFirst(kind: ChunkKind, r: Record, rest: seq<Record>)
    ensures TextOf(kind, [r] + rest) == Spoken(kind, r) + TextOf(kind, rest)
  {
    assert ([r] + rest)[1..] == rest;
  }

  lemma VerbatimOfFirst(r: Record, rest: seq<Record>)
    ensures Verbatim([r] + rest) == Unmerged(r) + Verbatim(rest)
  {
    assert ([r] + rest)[1..] == rest;
  }

  lemma JoiningKeepsText(kind: ChunkKind, a: Record, b: Record, rest: seq<Record>)
    requires Joins(a, b)
    ensures TextOf(kind, [Join(a, b)] + rest) == TextOf(kind, [a] + ([b] + rest))
  {
    TextOfFirst(kind, Join(a, b), rest);
    TextOfFirst(kind, b, rest);
    TextOfFirst(kind, a, [b] + rest);
    Regroup(Spoken(kind, a), Spoken(kind, b), TextOf(kind, rest));
    assert Spoken(kind, Join(a, b)) == Spoken(kind, a) + Spoken(kind, b);
  }

  lemma JoiningConserves(a: Record, b: Record, rest: seq<Record>)
    requires Joins(a, b)
    ensures SameContent([Join(a, b)] + rest, [a] + ([b] + rest))
  {
    VerbatimOfFirst(Join(a, b), rest);
    VerbatimOfFirst(b, rest);
    VerbatimOfFirst(a, [b] + rest);
    assert [] + Verbatim(rest) == Verbatim(rest);
    forall kind ensures TextOf(kind, [Join(a, b)] + rest) == TextOf(kind, [a] + ([b] + rest)) {
      JoiningKeepsText(kind, a, b, rest);
    }
  }

  lemma SameAfterFirst(r: Record, a: seq<Record>, b: seq<Record>)
    requires SameContent(a, b)
    ensures SameContent([r] + a, [r] + b)
  {
    VerbatimOfFirst(r, a);
    VerbatimOfFirst(r, b);
    forall kind ensures TextOf(kind, [r] + a) == TextOf(kind, [r] + b) {
      TextOfFirst(kind, r, a);
      TextOfFirst(kind, r, b);
    }
  }

  /** `out` is `raw`, in its order, with some neighbouring chunks joined. */
  predicate Merges(raw: seq<Record>, out: seq<Record>)
    decreases |raw|
  {
    if raw == [] then out == []
    else
      || (out != [] && out[0] == raw[0] && Merges(raw[1..], out[1..]))
      || (|raw| >= 2 && Joins(raw[0], raw[1]) && Merges([Join(raw[0], raw[1])] + raw[2..], out))
  }

  lemma {:induction false} CompactMerges(rs: seq<Record>, live: bool)
    ensures Merges(rs, Compact(rs, live))
    decreases |rs|
  {
    if |rs| == 1 {
      assert rs[1..] == [];
    } else if rs != [] {
      if live && Joins(rs[0], rs[1]) {
        CompactMerges([Join(rs[0], rs[1])] + rs[2..], live);
      } else {
        var tail := Compact(rs[1..], After(live, rs[0]));
        CompactMerges(rs[1..], After(live, rs[0]));
        assert ([rs[0]] + tail)[1..] == tail;
      }
    }
  }

  lemma KeptThenMerges(raw: seq<Record>, out: seq<Record>, rawRest: seq<Record>, outRest: seq<Record>)
    requires raw != [] && out != [] && out[0] == raw[0]
    requires raw[1..] == rawRest && out[1..] == outRest && Merges(rawRest, outRest)
    ensures Merges(raw, out)
  {
  }

  lemma JoinedThenMerges(raw: seq<Record>, joined: seq<Record>, out: seq<Record>)
    requires |raw| >= 2 && Joins(raw[0], raw[1]) && joined == [Join(raw[0], raw[1])] + raw[2..] && Merges(joined, out)
    ensures Merges(raw, out)
  {
  }

  lemma {:induction false} MergesConcat(a: seq<Record>, x: seq<Record>, b: seq<Record>, y: seq<Record>)
    requires Merges(a, x) && Merges(b, y)
    ensures Merges(a + b, x + y)
    decreases |a|
  {
    if a == [] {
      assert a + b == b && x + y == y;
    } else if x != [] && x[0] == a[0] && Merges(a[1..], x[1..]) {
      MergesConcat(a[1..], x[1..], b, y);
      KeptThenMerges(a + b, x + y, a[1..] + b, x[1..] + y);
    } else {
      var joined := [Join(a[0], a[1])] + a[2..];
      MergesConcat(joined, x, b, y);
      JoinedThenMerges(a + b, joined + b, x + y);
    }
  }

  /** Such an image keeps all text and every other record. */
  lemma {:induction false} MergesConserves(raw: seq<Record>, out: seq<Record>)
    requires Merges(raw, out)
    ensures Verbatim(out) == Verbatim(raw)
    ensures forall kind :: TextOf(kind, out) == TextOf(kind, raw)
    decreases |raw|
  {
    if raw != [] {
      assert raw == [raw[0]] + raw[1..];
      if out != [] && out[0] == raw[0] && Merges(raw[1..], out[1..]) {
        MergesConserves(raw[1..], out[1..]);
        assert out == [out[0]] + out[1..];
        SameAfterFirst(raw[0], out[1..], raw[1..]);
      } else {
        MergesConserves([Join(raw[0], raw[1])] + raw[2..], out);
        JoiningConserves(raw[0], raw[1], raw[2..]);
        assert raw[1..] == [raw[1]] + raw[2..];
      }
    }
  }

  /** Record `k` of the image carries raw record `i`, with its neighbours from `lo` to `hi`; what is
      before it and behind it is the image of what is before them and behind them. */
  ghost predicate StandsAt(raw: seq<Record>, i: nat, out: seq<Record>, k: nat, lo: nat, hi: nat) {
    && lo <= i < hi <= |raw| && k < |out|
    && Merges(raw[..lo], out[..k]) && Merges(raw[lo..hi], [out[k]]) && Merges(raw[hi..], out[k+1..])
  }

  /** Every raw record has its place in the image. */
  lemma {:induction false} MergesPlace(raw: seq<Record>, out: seq<Record>, i: nat) returns (k: nat, lo: nat, hi: nat)
    requires Merges(raw, out) && i < |raw|
    ensures StandsAt(raw, i, out, k, lo, hi)
    decreases |raw|, 1
  {
    if out != [] && out[0] == raw[0] && Merges(raw[1..], out[1..]) {
      k, lo, hi := PlaceBehindKept(raw, out, i);
    } else {
      k, lo, hi := PlaceBehindJoined(raw, out, i);
    }
  }

  lemma {:induction false} PlaceBehindKept(raw: seq<Record>, out: seq<Record>, i: nat)
      returns (k: nat, lo: nat, hi: nat)
    requires i < |raw| && out != [] && out[0] == raw[0] && Merges(raw[1..], out[1..])
    ensures StandsAt(raw, i, out, k, lo, hi)
    decreases |raw|, 0
  {
    if i == 0 {
      k, lo, hi := 0, 0, 1;
      KeptFirst(raw, out);
    } else {
      k, lo, hi := MergesPlace(raw[1..], out[1..], i - 1);
      BehindKept(raw, out, i - 1, k, lo, hi);
      k, lo, hi := k + 1, lo + 1, hi + 1;
    }
  }

  lemma {:induction false} PlaceBehindJoined(raw: seq<Record>, out: seq<Record>, i: nat)
      returns (k: nat, lo: nat, hi: nat)
    requires i < |raw| && |raw| >= 2 && Joins(raw[0], raw[1]) && Merges([Join(raw[0], raw[1])] + raw[2..], out)
    ensures StandsAt(raw, i, out, k, lo, hi)
    decreases |raw|, 0
  {
    var joined := [Join(raw[0], raw[1])] + raw[2..];
    k, lo, hi := MergesPlace(joined, out, if i <= 1 then 0 else i - 1);
    BehindJoined(raw, joined, out, k, lo, hi);
    lo, hi := if lo == 0 then 0 else lo + 1, hi + 1;
  }

  lemma KeptFirst(raw: seq<Record>, out: seq<Record>)
    requires raw != [] && out != [] && out[0] == raw[0] && Merges(raw[1..], out[1..])
    ensures StandsAt(raw, 0, out, 0, 0, 1)
  {
    assert raw[0..1][1..] == [] && [out[0]][1..] == [];
  }

  lemma BehindKept(raw: seq<Record>, out: seq<Record>, i: nat, k: nat, lo: nat, hi: nat)
    requires raw != [] && out != [] && out[0] == raw[0] && StandsAt(raw[1..], i, out[1..], k, lo, hi)
    ensures StandsAt(raw, i + 1, out, k + 1, lo + 1, hi + 1)
  {
    BehindFirst(raw, lo, hi);
    BehindFirst(raw, lo, lo);
    BehindFirst(out, k, k);
    BehindFirst(out, k, k + 1);
  }

  lemma TailsAgree(raw: seq<Record>, joined: seq<Record>, k: nat)
    requires |raw| >= 2 && joined != [] && joined[1..] == raw[2..] && 1 <= k <= |joined|
    ensures joined[k..] == raw[k+1..]
  {
    assert joined[k..] == joined[1..][k-1..] && raw[k+1..] == raw[2..][k-1..];
  }

  lemma HeadsAgree(raw: seq<Record>, joined: seq<Record>, k: nat)
    requires |raw| >= 2 && Joins(raw[0], raw[1]) && joined == [Join(raw[0], raw[1])] + raw[2..]
    requires 1 <= k <= |joined|
    ensures joined[..k] == [Join(raw[0], raw[1])] + raw[..k+1][2..]
  {
  }

  lemma MiddlesAgree(raw: seq<Record>, joined: seq<Record>, lo: nat, hi: nat)
    requires |raw| >= 2 && joined != [] && joined[1..] == raw[2..] && 1 <= lo <= hi <= |joined|
    ensures joined[lo..hi] == raw[lo+1..hi+1]
  {
    TailsAgree(raw, joined, lo);
    assert joined[lo..hi] == joined[lo..][..hi-lo];
    assert raw[lo+1..hi+1] == raw[lo+1..][..hi-lo];
  }

  lemma JoinedHead(raw: seq<Record>, joined: seq<Record>, k: nat, out: seq<Record>)
    requires |raw| >= 2 && Joins(raw[0], raw[1]) && joined == [Join(raw[0], raw[1])] + raw[2..]
    requires 1 <= k <= |joined| && Merges(joined[..k], out)
    ensures Merges(raw[..k+1], out)
  {
    HeadsAgree(raw, joined, k);
    var part := raw[..k+1];
    assert part[0] == raw[0] && part[1] == raw[1];
  }

  lemma BehindJoined(raw: seq<Record>, joined: seq<Record>, out: seq<Record>, k: nat, lo: nat, hi: nat)
    requires |raw| >= 2 && Joins(raw[0], raw[1]) && joined == [Join(raw[0], raw[1])] + raw[2..]
    requires lo < hi <= |joined| && k < |out|
    requires Merges(joined[..lo], out[..k]) && Merges(joined[lo..hi], [out[k]]) && Merges(joined[hi..], out[k+1..])
    ensures var lo' := if lo == 0 then 0 else lo + 1;
      Merges(raw[..lo'], out[..k]) && Merges(raw[lo'..hi+1], [out[k]]) && Merges(raw[hi+1..], out[k+1..])
  {
    assert joined[1..] == raw[2..];
    TailsAgree(raw, joined, hi);
    if lo == 0 {
      assert joined[..0] == raw[..0] && joined[0..hi] == joined[..hi] && raw[0..hi+1] == raw[..hi+1];
      JoinedHead(raw, joined, hi, [out[k]]);
    } else {
      JoinedHead(raw, joined, lo, out[..k]);
      MiddlesAgree(raw, joined, lo, hi);
    }
  }

  lemma {:induction false} VerbatimHas(rs: seq<Record>, i: nat)
    requires i < |rs| && !Mergeable(rs[i])
    ensures rs[i] in Verbatim(rs)
    decreases |rs|
  {
    if i > 0 { VerbatimHas(rs[1..], i - 1); }
  }

  /** A record that is never merged is carried as it is. */
  lemma CarriedVerbatim(raw: seq<Record>, i: nat, out: seq<Record>, k: nat, lo: nat, hi: nat)
    requires StandsAt(raw, i, out, k, lo, hi) && !Mergeable(raw[i])
    ensures out[k] == raw[i]
  {
    var part := raw[lo..hi];
    assert part[i-lo] == raw[i];
    VerbatimHas(part, i - lo);
    MergesConserves(part, [out[k]]);
    assert Verbatim([out[k]]) == Unmerged(out[k]) + Verbatim([]);
  }

  /** No text and no other record is lost, added or moved: the output is the input in order, some
      neighbouring chunks joined. Of a joined run the first record's other fields and the last one's
      timestamp are kept. */
  lemma CompactionConserves(rs: seq<Record>, live: bool)
    ensures Merges(rs, Compact(rs, live))
    ensures Verbatim(Compact(rs, live)) == Verbatim(rs)
    ensures forall kind :: TextOf(kind, Compact(rs, live)) == TextOf(kind, rs)
  {
    CompactMerges(rs, live);
    MergesConserves(rs, Compact(rs, live));
  }

  /** No merge is left to make inside a live turn. */
  ghost predicate FullyMerged(rs: seq<Record>, live: bool) {
    forall i :: 0 <= i < |rs| - 1 && AfterAll(live, rs[..i]) ==> !Joins(rs[i], rs[i+1])
  }

  lemma {:induction false} CompactionIsMaximal(rs: seq<Record>, live: bool)
    ensures FullyMerged(Compact(rs, live), live)
    decreases |rs|
  {
    if |rs| < 2 {
    } else if live && Joins(rs[0], rs[1]) {
      CompactionIsMaximal([Join(rs[0], rs[1])] + rs[2..], live);
    } else {
      var next := After(live, rs[0]);
      var tail := Compact(rs[1..], next);
      CompactionIsMaximal(rs[1..], next);
      HeadAfterCompact(rs[1..], next);
      var out := [rs[0]] + tail;
      forall i | 0 <= i < |out| - 1 && AfterAll(live, out[..i]) ensures !Joins(out[i], out[i+1]) {
        if i > 0 {
          assert out[..i][1..] == tail[..i-1];
          assert AfterAll(next, tail[..i-1]);
          assert !Joins(tail[i-1], tail[i]);
        }
      }
    }
  }
}
