/** What holds of a transcript file after every run of its writer, whatever the disk did. */
module Durability {
  import opened Options
  import opened Records
  import opened Reader
  import opened Compaction
  import opened TranscriptFile
  import opened Writer
  import opened Texts

  /** A prefix of the compacted batch is the compacted form of a prefix of the batch. */
  lemma {:induction false} CompactPrefix(rs: seq<Record>, live: bool, k: nat)
    requires k <= |Compact(rs, live)|
    ensures Compact(rs, live)[..k] == Compact(rs[..Covered(rs, live, k)], live)
    decreases |rs|
  {
    var m := Covered(rs, live, k);
    if k == 0 || rs == [] {
      assert rs[..m] == [];
    } else if |rs| >= 2 && live && Joins(rs[0], rs[1]) {
      var joined := [Join(rs[0], rs[1])] + rs[2..];
      CompactPrefix(joined, live, k);
      assert m >= 2;
      assert joined[..m-1] == [Join(rs[0], rs[1])] + rs[..m][2..];
      assert rs[..m][0] == rs[0] && rs[..m][1] == rs[1];
    } else if |rs| == 1 {
      assert k == 1 && m == 1;
    } else {
      var next := After(live, rs[0]);
      var n := m - 1;
      CompactPrefix(rs[1..], next, k - 1);
      assert Compact(rs, live)[..k] == [rs[0]] + Compact(rs[1..], next)[..k-1];
      assert rs[..m] == [rs[0]] + rs[1..][..n];
      assert n > 0 ==> rs[1..][..n][0] == rs[1];
      CompactAfterFixed(rs[0], rs[1..][..n], live);
    }
  }

  // ---- the file after a run ----

  /** The records in the file, in the order they were accepted. */
  function InFile(fates: seq<Fated>): seq<Record>
    decreases |fates|
  {
    if fates == [] then []
    else (if fates[0].fate.Lost? then [] else [fates[0].q.record]) + InFile(fates[1..])
  }

  lemma {:induction false} InFileConcat(a: seq<Fated>, b: seq<Fated>)
    ensures InFile(a + b) == InFile(a) + InFile(b)
    decreases |a|
  {
    if a == [] {
      assert a + b == b;
    } else {
      assert (a + b)[1..] == a[1..] + b;
      InFileConcat(a[1..], b);
    }
  }

  lemma {:induction false} InFileDecided(qs: seq<Queued>, k: nat, first: Fate)
    requires !first.Lost? && k <= |qs|
    ensures InFile(Decide(qs, k, first, Lost)) == RecordsOf(qs)[..k]
    decreases |qs|
  {
    var fs := Decide(qs, k, first, Lost);
    if qs != [] {
      var j := if k > 0 then k - 1 else 0;
      InFileDecided(qs[1..], j, first);
      assert fs[1..] == Decide(qs[1..], j, first, Lost);
    }
  }

  /** Every record ever buffered, in order: settled ones first, then those still waiting. */
  function Taken<B>(s: WriterState<B>): seq<Queued> {
    seq(|s.fates|, i requires 0 <= i < |s.fates| => s.fates[i].q) + s.pending
  }

  /** Whole lines, then a piece of one. */
  ghost predicate EndsWithPiece<B(!new)>(c: Codec<B>, bytes: seq<B>, head: seq<B>, piece: seq<B>) {
    bytes == head + piece && AtBoundary(c, head) && IsPiece(c, piece)
  }

  lemma WholeLines<B(!new)>(c: Codec<B>, s: WriterState<B>)
    requires AtBoundary(c, s.bytes)
    ensures WellEnded(c, s)
  {
    assert s.bytes + [] == s.bytes && IsPiece(c, []);
    assert EndsWithPiece(c, s.bytes, s.bytes, []);
  }

  ghost predicate WellEnded<B(!new)>(c: Codec<B>, s: WriterState<B>) {
    exists head, piece :: EndsWithPiece(c, s.bytes, head, piece) && (!s.poisoned ==> piece == [])
  }

  /** The file holds what it began with, then the image of the records `fates` says are in it. */
  ghost predicate FileHolds<B(!new)>(c: Codec<B>, base: seq<Record>, s: WriterState<B>) {
    var file := Decode(c, s.bytes);
    base <= file && Merges(InFile(s.fates), file[|base|..])
  }

  ghost predicate Durable<B(!new)>(c: Codec<B>, base: seq<Record>, s: WriterState<B>) {
    && WellEnded(c, s)
    && FileHolds(c, base, s)
    && (s.poisoned ==> s.pending == [])
    && (s.oldest.Some? <==> s.pending != [])
      // A success told to anyone is a record in the file, or a header that stood already.
    && (forall a :: a in s.acks && a.landed && a.q.record.EntryLine? ==> Fated(a.q, Acked) in s.fates)
  }

  lemma FreshIsDurable<B(!new)>(c: Codec<B>, bytes: seq<B>)
    requires Sound(c) && AtBoundary(c, bytes)
    ensures Durable(c, Decode(c, bytes), Fresh(bytes))
  {
    WholeLines(c, Fresh(bytes));
  }

  lemma FileGrows<B(!new)>(c: Codec<B>, base: seq<Record>, s: WriterState<B>, s': WriterState<B>,
                           out: seq<Record>, fates: seq<Fated>)
    requires FileHolds(c, base, s)
    requires Decode(c, s'.bytes) == Decode(c, s.bytes) + out
    requires s'.fates == s.fates + fates && Merges(InFile(fates), out)
    ensures FileHolds(c, base, s')
  {
    var file := Decode(c, s.bytes);
    InFileConcat(s.fates, fates);
    MergesConcat(InFile(s.fates), file[|base|..], InFile(fates), out);
    assert (file + out)[|base|..] == file[|base|..] + out;
  }

  lemma AckedNow(s: seq<Ack>, qs: seq<Queued>, fates: seq<Fated>, n: nat)
    requires forall a :: a in s && a.landed && a.q.record.EntryLine? ==> Fated(a.q, Acked) in fates
    requires n == |qs|
    ensures forall a :: a in s + AcksFor(qs, true) && a.landed && a.q.record.EntryLine?
                        ==> Fated(a.q, Acked) in fates + Decide(qs, n, Acked, Lost)
  {
    forall a | a in s + AcksFor(qs, true) && a.landed && a.q.record.EntryLine?
      ensures Fated(a.q, Acked) in fates + Decide(qs, n, Acked, Lost)
    {
      if a !in s {
        var i :| 0 <= i < |qs| && AcksFor(qs, true)[i] == a;
        assert Decide(qs, n, Acked, Lost)[i] == Fated(a.q, Acked);
      }
    }
  }

  lemma WrittenIsDurable<B(!new)>(c: Codec<B>, base: seq<Record>, s: WriterState<B>, now: nat)
    requires Sound(c) && Durable(c, base, s) && s.pending != [] && !s.poisoned
    ensures Durable(c, base, FlushStep(c, s, NoFault, now))
    ensures Decode(c, FlushStep(c, s, NoFault, now).bytes)
         == Decode(c, s.bytes) + Compact(RecordsOf(s.pending), s.compactable)
  {
    var rs := RecordsOf(s.pending);
    var out := Compact(rs, s.compactable);
    var s' := FlushStep(c, s, NoFault, now);
    BytesEndLine(c, s);
    LinesBoundary(c, out);
    DecodeAppend(c, s.bytes, Lines(c, out));
    InFileDecided(s.pending, |s.pending|, Acked);
    assert rs[..|rs|] == rs;
    CompactMerges(rs, s.compactable);
    FileGrows(c, base, s, s', out, Decide(s.pending, |s.pending|, Acked, Lost));
    AckedNow(s.acks, s.pending, s.fates, |s.pending|);
    CompactKeepsLive(rs, s.compactable);
    WholeLines(c, s');
  }

  lemma BytesEndLine<B(!new)>(c: Codec<B>, s: WriterState<B>)
    requires WellEnded(c, s) && !s.poisoned
    ensures AtBoundary(c, s.bytes)
  {
    var head, piece :| EndsWithPiece(c, s.bytes, head, piece) && piece == [];
    assert s.bytes == head;
  }

  /** The raw records a stuck flush left in the file. */
  function Stranded<B>(c: Codec<B>, s: WriterState<B>, n: nat): seq<Record> {
    var rs := RecordsOf(s.pending);
    rs[..Covered(rs, s.compactable, Landed(c, Compact(rs, s.compactable), Put(n, |Data(c, s)|)))]
  }

  lemma CutDecodes<B(!new)>(c: Codec<B>, bytes: seq<B>, out: seq<Record>, put: nat)
    requires Sound(c) && AtBoundary(c, bytes) && put <= |Lines(c, out)|
    ensures var cut, landed := Lines(c, out)[..put], out[..Landed(c, out, put)];
      && Decode(c, bytes + cut) == Decode(c, bytes) + landed
      && Decode(c, bytes + cut + [c.newline]) == Decode(c, bytes) + landed
  {
    var cut := Lines(c, out)[..put];
    CutLines(c, out, put);
    DecodeAppend(c, bytes, cut);
    DecodeAppend(c, bytes, cut + [c.newline]);
    assert bytes + cut + [c.newline] == bytes + (cut + [c.newline]);
  }

  lemma BoundariesConcat<B>(c: Codec<B>, a: seq<B>, b: seq<B>)
    requires AtBoundary(c, a) && AtBoundary(c, b)
    ensures AtBoundary(c, a + b)
  {
    if b == [] { assert a + b == a; }
  }

  lemma PoisonedEndsWithPiece<B(!new)>(c: Codec<B>, s: WriterState<B>, bytes: seq<B>, head: seq<B>, piece: seq<B>)
    requires AtBoundary(c, bytes) && AtBoundary(c, head) && IsPiece(c, piece)
    requires s.poisoned && s.bytes == bytes + (head + piece)
    ensures WellEnded(c, s)
  {
    BoundariesConcat(c, bytes, head);
    Regroup(bytes, head, piece);
    assert EndsWithPiece(c, s.bytes, bytes + head, piece);
  }

  lemma CutEndsWell<B(!new)>(c: Codec<B>, s: WriterState<B>, bytes: seq<B>, out: seq<Record>, put: nat)
    requires Sound(c) && AtBoundary(c, bytes) && put <= |Lines(c, out)|
    requires var cut := bytes + Lines(c, out)[..put];
             s.bytes == if s.poisoned then cut else cut + [c.newline]
    ensures WellEnded(c, s)
  {
    if s.poisoned {
      var head, piece := CutEndsWithPiece(c, out, put);
      PoisonedEndsWithPiece(c, s, bytes, head, piece);
    } else {
      WholeLines(c, s);
    }
  }

  lemma StuckIsDurable<B(!new)>(c: Codec<B>, base: seq<Record>, s: WriterState<B>, n: nat, repaired: bool, now: nat)
    requires Sound(c) && Durable(c, base, s) && s.pending != [] && !s.poisoned
    ensures Durable(c, base, FlushStep(c, s, Stuck(n, repaired), now))
    ensures Decode(c, FlushStep(c, s, Stuck(n, repaired), now).bytes)
         == Decode(c, s.bytes) + Compact(Stranded(c, s, n), s.compactable)
  {
    var rs := RecordsOf(s.pending);
    var out := Compact(rs, s.compactable);
    var put := Put(n, |Data(c, s)|);
    var k := Landed(c, out, put);
    var m := Covered(rs, s.compactable, k);
    var s' := FlushStep(c, s, Stuck(n, repaired), now);
    BytesEndLine(c, s);
    CutDecodes(c, s.bytes, out, put);
    assert s.bytes + Lines(c, out)[..put] + [] == s.bytes + Lines(c, out)[..put];
    CutEndsWell(c, s', s.bytes, out, put);
    CompactPrefix(rs, s.compactable, k);
    CompactMerges(rs[..m], s.compactable);
    InFileDecided(s.pending, m, Unacked);
    FileGrows(c, base, s, s', out[..k], Decide(s.pending, m, Unacked, Lost));
    AckedStays(s.acks, s.pending, s.fates, Decide(s.pending, m, Unacked, Lost));
  }

  lemma AckedStays(s: seq<Ack>, qs: seq<Queued>, fates: seq<Fated>, more: seq<Fated>)
    requires forall a :: a in s && a.landed && a.q.record.EntryLine? ==> Fated(a.q, Acked) in fates
    ensures forall a :: a in s + AcksFor(qs, false) && a.landed && a.q.record.EntryLine?
                        ==> Fated(a.q, Acked) in fates + more
  {
  }

  lemma FlushIsDurable<B(!new)>(c: Codec<B>, base: seq<Record>, s: WriterState<B>, fault: Fault, now: nat)
    requires Sound(c) && Durable(c, base, s)
    ensures Durable(c, base, FlushStep(c, s, fault, now))
  {
    if s.pending != [] {
      match fault
      case NoFault => WrittenIsDurable(c, base, s, now);
      case Stuck(n, repaired) => StuckIsDurable(c, base, s, n, repaired, now);
      case CannotOpen => SameFile(c, base, s, FlushStep(c, s, fault, now));
      case RolledBack(_) => SameFile(c, base, s, FlushStep(c, s, fault, now));
    }
  }

  /** A flush that could not begin, or was undone, costs nothing but time: same bytes, same batch, nobody
      told anything, the batch dated anew, and the next flush writes what this one would have written. */
  lemma DeferredFlushCostsNothing<B>(c: Codec<B>, s: WriterState<B>, fault: Fault, failedAt: nat, now: nat)
    requires fault.CannotOpen? || fault.RolledBack?
    requires !s.poisoned
    ensures var deferred := FlushStep(c, s, fault, failedAt);
      && deferred == (if s.pending == [] then s else s.(oldest := Some(failedAt)))
      && FlushStep(c, deferred, NoFault, now).(oldest := None) == FlushStep(c, s, NoFault, now).(oldest := None)
  {
  }

  lemma SameFile<B(!new)>(c: Codec<B>, base: seq<Record>, s: WriterState<B>, s': WriterState<B>)
    requires Durable(c, base, s)
    requires s'.bytes == s.bytes && s'.fates == s.fates && s'.poisoned == s.poisoned
    requires (s'.poisoned ==> s'.pending == []) && (s'.oldest.Some? <==> s'.pending != [])
    requires forall a :: a in s'.acks && a.landed && a.q.record.EntryLine? ==> a in s.acks
    ensures Durable(c, base, s')
  {
    var head, piece :| EndsWithPiece(c, s.bytes, head, piece) && (!s.poisoned ==> piece == []);
    assert EndsWithPiece(c, s'.bytes, head, piece);
  }

  /** A writer that has just been handed a record. */
  function Holding<B>(s: WriterState<B>, q: Queued, at: nat): WriterState<B> {
    s.(pending := s.pending + [q], oldest := if s.pending == [] then Some(at) else s.oldest)
  }

  lemma AcceptIsDurable<B(!new)>(c: Codec<B>, base: seq<Record>, s: WriterState<B>, q: Queued, fault: Fault, now: nat)
    requires Sound(c) && Durable(c, base, s)
    ensures Durable(c, base, AcceptStep(c, s, q, fault, now))
  {
    if s.poisoned || (q.record.HeaderLine? && HeaderStands(s)) {
      SameFile(c, base, s, AcceptStep(c, s, q, fault, now));
    } else {
      var held := Holding(s, q, now);
      SameFile(c, base, s, held);
      FlushIsDurable(c, base, held, fault, now);
    }
  }

  // ---- runs ----

  /** `Forget`: an idle writer is dropped, and the next record meets a new one. */
  datatype Event = Accept(q: Queued, fault: Fault, at: nat) | Tick(fault: Fault, at: nat) | Forget

  function StepOn<B>(c: Codec<B>, s: WriterState<B>, e: Event): WriterState<B> {
    match e
    case Accept(q, fault, at) => AcceptStep(c, s, q, fault, at)
    case Tick(fault, at) => FlushStep(c, s, fault, at)
    case Forget =>
      if s.pending == [] then s.(compactable := false, headerWritten := false, poisoned := false) else s
  }

  function Run<B>(c: Codec<B>, s: WriterState<B>, es: seq<Event>): WriterState<B>
    decreases |es|
  {
    if es == [] then s else Run(c, StepOn(c, s, es[0]), es[1..])
  }

  /** No writer is forgotten while its file ends in a torn line. */
  predicate ForgetsOnlyWhole<B(==)>(c: Codec<B>, s: WriterState<B>, es: seq<Event>)
    decreases |es|
  {
    if es == [] then true
    else
      && (es[0].Forget? && s.pending == [] ==> AtBoundary(c, s.bytes))
      && ForgetsOnlyWhole(c, StepOn(c, s, es[0]), es[1..])
  }

  lemma StepIsDurable<B(!new)>(c: Codec<B>, base: seq<Record>, s: WriterState<B>, e: Event)
    requires Sound(c) && Durable(c, base, s)
    requires e.Forget? && s.pending == [] ==> AtBoundary(c, s.bytes)
    ensures Durable(c, base, StepOn(c, s, e))
  {
    match e
    case Accept(q, fault, at) => AcceptIsDurable(c, base, s, q, fault, at);
    case Tick(fault, at) => FlushIsDurable(c, base, s, fault, at);
    case Forget =>
      if s.pending == [] {
        WholeLines(c, StepOn(c, s, e));
      }
  }

  lemma {:induction false} RunIsDurable<B(!new)>(c: Codec<B>, base: seq<Record>, s: WriterState<B>, es: seq<Event>)
    requires Sound(c) && Durable(c, base, s) && ForgetsOnlyWhole(c, s, es)
    ensures Durable(c, base, Run(c, s, es))
    decreases |es|
  {
    if es != [] {
      StepIsDurable(c, base, s, es[0]);
      RunIsDurable(c, base, StepOn(c, s, es[0]), es[1..]);
    }
  }

  /** From any file of whole lines, after any run: the file decodes to what it held, then the
      in-order image of the accepted records that are in it, each once; and each entry whose caller
      was told "landed" is one of them. */
  lemma WriterIsDurable<B(!new)>(c: Codec<B>, bytes: seq<B>, es: seq<Event>)
    requires Sound(c) && AtBoundary(c, bytes) && ForgetsOnlyWhole(c, Fresh(bytes), es)
    ensures var s := Run(c, Fresh(bytes), es);
            var was, file := Decode(c, bytes), Decode(c, s.bytes);
      && was <= file && Merges(InFile(s.fates), file[|was|..])
      && Verbatim(file[|was|..]) == Verbatim(InFile(s.fates))
      && (forall kind :: TextOf(kind, file[|was|..]) == TextOf(kind, InFile(s.fates)))
      && (forall a :: a in s.acks && a.landed && a.q.record.EntryLine? ==> Fated(a.q, Acked) in s.fates)
  {
    FreshIsDurable(c, bytes);
    RunIsDurable(c, Decode(c, bytes), Fresh(bytes), es);
    var s := Run(c, Fresh(bytes), es);
    MergesConserves(InFile(s.fates), Decode(c, s.bytes)[|Decode(c, bytes)|..]);
  }

  /** A record is handed over and kept: it is no header that stands already, and the writer has not
      given up. */
  predicate Buffers<B>(s: WriterState<B>, e: Event) {
    e.Accept? && !s.poisoned && !(e.q.record.HeaderLine? && HeaderStands(s))
  }

  /** What a run buffers is what it accepted, in order, but for repeated headers and for records
      a poisoned writer refuses; nothing buffered is ever dropped from the account. */
  lemma TakenGrowsInOrder<B>(c: Codec<B>, s: WriterState<B>, e: Event)
    ensures var s' := StepOn(c, s, e);
      Taken(s') == if Buffers(s, e) then Taken(s) + [e.q] else Taken(s)
  {
    match e
    case Accept(q, fault, at) =>
      var held := Holding(s, q, at);
      assert Taken(held) == Taken(s) + [q];
      FlushKeepsTaken(c, held, fault, at);
    case Tick(fault, at) => FlushKeepsTaken(c, s, fault, at);
    case Forget =>
  }

  lemma FlushKeepsTaken<B>(c: Codec<B>, s: WriterState<B>, fault: Fault, at: nat)
    ensures Taken(FlushStep(c, s, fault, at)) == Taken(s)
  {
    var s' := FlushStep(c, s, fault, at);
    assert |Taken(s')| == |Taken(s)|;
    forall i | 0 <= i < |Taken(s)| ensures Taken(s')[i] == Taken(s)[i] {
    }
  }

  ghost predicate Apart(qs: seq<Queued>) { forall i, j :: 0 <= i < j < |qs| ==> qs[i].id != qs[j].id }

  ghost predicate NewTo(qs: seq<Queued>, es: seq<Event>) {
    forall q, e :: q in qs && e in es && e.Accept? ==> q.id != e.q.id
  }

  /** Each record is handed over once. */
  ghost predicate HandedOverOnce(es: seq<Event>) {
    forall i, j :: 0 <= i < j < |es| && es[i].Accept? && es[j].Accept? ==> es[i].q.id != es[j].q.id
  }

  lemma OneHandedOver(taken: seq<Queued>, es: seq<Event>)
    requires es != [] && Apart(taken) && NewTo(taken, es) && HandedOverOnce(es)
    ensures NewTo(taken, es[1..]) && HandedOverOnce(es[1..])
    ensures es[0].Accept? ==> Apart(taken + [es[0].q]) && NewTo(taken + [es[0].q], es[1..])
  {
    assert es[0] in es && forall e :: e in es[1..] ==> e in es;
    if es[0].Accept? {
      forall q, e | q in taken + [es[0].q] && e in es[1..] && e.Accept? ensures q.id != e.q.id {
        var j :| 0 <= j < |es[1..]| && es[1..][j] == e;
        assert es[j+1] == e;
      }
    }
  }

  lemma {:induction false} TakenStaysApart<B>(c: Codec<B>, s: WriterState<B>, es: seq<Event>)
    requires Apart(Taken(s)) && NewTo(Taken(s), es) && HandedOverOnce(es)
    ensures Apart(Taken(Run(c, s, es)))
    decreases |es|
  {
    if es != [] {
      TakenGrowsInOrder(c, s, es[0]);
      OneHandedOver(Taken(s), es);
      TakenStaysApart(c, StepOn(c, s, es[0]), es[1..]);
    }
  }

  /** What a run buffers: every record handed over, in order, but for the headers that stood already
      and the records a poisoned writer refuses. */
  function Buffered<B>(c: Codec<B>, s: WriterState<B>, es: seq<Event>): seq<Queued>
    decreases |es|
  {
    if es == [] then []
    else
      (if Buffers(s, es[0]) then [es[0].q] else []) + Buffered(c, StepOn(c, s, es[0]), es[1..])
  }

  /** Over a whole run the account is what was buffered, in the order it was handed over. */
  lemma {:induction false} TakenIsBufferedInOrder<B>(c: Codec<B>, s: WriterState<B>, es: seq<Event>)
    ensures Taken(Run(c, s, es)) == Taken(s) + Buffered(c, s, es)
    decreases |es|
  {
    if es == [] {
      assert Taken(s) + [] == Taken(s);
    } else {
      TakenGrowsInOrder(c, s, es[0]);
      TakenIsBufferedInOrder(c, StepOn(c, s, es[0]), es[1..]);
      Regroup(Taken(s), if Buffers(s, es[0]) then [es[0].q] else [], Buffered(c, StepOn(c, s, es[0]), es[1..]));
      assert Taken(s) + [] == Taken(s);
    }
  }

  /** The record settled at `i` is carried by record `k` of what the file gained. */
  ghost predicate CarriedBy(fates: seq<Fated>, i: nat, gained: seq<Record>, k: nat) {
    && i < |fates| && k < |gained|
    && var at := |InFile(fates[..i])|;
       && at < |InFile(fates)| && InFile(fates)[at] == fates[i].q.record
       && (exists lo, hi :: StandsAt(InFile(fates), at, gained, k, lo, hi))
       && (!Mergeable(fates[i].q.record) ==> gained[k] == fates[i].q.record)
  }

  lemma SettledIsCarried(fates: seq<Fated>, i: nat, gained: seq<Record>) returns (k: nat)
    requires i < |fates| && !fates[i].fate.Lost? && Merges(InFile(fates), gained)
    ensures CarriedBy(fates, i, gained, k)
  {
    var at := |InFile(fates[..i])|;
    assert fates == fates[..i] + ([fates[i]] + fates[i+1..]);
    InFileConcat(fates[..i], [fates[i]] + fates[i+1..]);
    assert ([fates[i]] + fates[i+1..])[1..] == fates[i+1..];
    var lo, hi;
    k, lo, hi := MergesPlace(InFile(fates), gained, at);
    if !Mergeable(fates[i].q.record) {
      CarriedVerbatim(InFile(fates), at, gained, k, lo, hi);
    }
  }

  /** The entry has one place among those settled, and that place is in the file. */
  ghost predicate InFileOnce(fates: seq<Fated>, q: Queued, gained: seq<Record>, i: nat, k: nat) {
    && CarriedBy(fates, i, gained, k) && fates[i] == Fated(q, Acked)
    && forall j :: 0 <= j < |fates| && fates[j].q.id == q.id ==> j == i
  }

  /** A caller told "landed" has its entry in the decoded file exactly once. */
  lemma AckedIsThereExactlyOnce<B(!new)>(c: Codec<B>, bytes: seq<B>, es: seq<Event>, a: Ack)
    requires Sound(c) && AtBoundary(c, bytes) && ForgetsOnlyWhole(c, Fresh(bytes), es) && HandedOverOnce(es)
    requires var s := Run(c, Fresh(bytes), es); a in s.acks && a.landed && a.q.record.EntryLine?
    ensures var s := Run(c, Fresh(bytes), es);
            var was, file := Decode(c, bytes), Decode(c, s.bytes);
      was <= file && exists i, k :: InFileOnce(s.fates, a.q, file[|was|..], i, k)
  {
    WriterIsDurable(c, bytes, es);
    TakenStaysApart(c, Fresh(bytes), es);
    var s := Run(c, Fresh(bytes), es);
    var gained := Decode(c, s.bytes)[|Decode(c, bytes)|..];
    var i :| 0 <= i < |s.fates| && s.fates[i] == Fated(a.q, Acked);
    forall j | 0 <= j < |s.fates| && s.fates[j].q.id == a.q.id ensures j == i {
      assert Taken(s)[i] == s.fates[i].q && Taken(s)[j] == s.fates[j].q;
    }
    var k := SettledIsCarried(s.fates, i, gained);
    assert InFileOnce(s.fates, a.q, gained, i, k);
  }

  /** While no writer is forgotten over a torn file, a prompt whose caller was told that it landed is
      found by every reader of the file, and a file that ends inside a line has a writer that knows. */
  lemma AckedPromptIsRead<B(!new)>(c: Codec<B>, bytes: seq<B>, es: seq<Event>)
    requires Sound(c) && AtBoundary(c, bytes) && ForgetsOnlyWhole(c, Fresh(bytes), es)
    ensures var s := Run(c, Fresh(bytes), es);
      && (forall a :: a in s.acks && a.landed && a.q.record.EntryLine? && a.q.record.entry.Prompt?
            ==> a.q.record in Decode(c, s.bytes))
      && (s.poisoned || AtBoundary(c, s.bytes))
  {
    var s := Run(c, Fresh(bytes), es);
    WriterIsDurable(c, bytes, es);
    FreshIsDurable(c, bytes);
    RunIsDurable(c, Decode(c, bytes), Fresh(bytes), es);
    if !s.poisoned { BytesEndLine(c, s); }
    forall a | a in s.acks && a.landed && a.q.record.EntryLine? && a.q.record.entry.Prompt?
      ensures a.q.record in Decode(c, s.bytes)
    {
      var i :| 0 <= i < |s.fates| && s.fates[i] == Fated(a.q, Acked);
      var gained := Decode(c, s.bytes)[|Decode(c, bytes)|..];
      var k := SettledIsCarried(s.fates, i, gained);
      assert gained[k] in Decode(c, s.bytes);
    }
  }

  /** Nothing is appended while the writer is poisoned. */
  lemma {:induction false} PoisonedWriterAppendsNothing<B>(c: Codec<B>, s: WriterState<B>, es: seq<Event>)
    requires s.poisoned
    requires forall i :: 0 <= i < |es| ==> !es[i].Forget?
    ensures Run(c, s, es).poisoned && Run(c, s, es).bytes == s.bytes
    decreases |es|
  {
    if es != [] {
      PoisonedWriterAppendsNothing(c, StepOn(c, s, es[0]), es[1..]);
    }
  }

  /** ...but forgetting such a writer forgets that. A new one tells its caller that a record
      landed, and whether the file can give it back depends on how the file ended. */
  lemma ForgottenPoisonLosesAckedRecords<B(!new)>(c: Codec<B>, base: seq<Record>, s: WriterState<B>, q: Queued, at: nat)
    requires Sound(c) && Durable(c, base, s) && s.poisoned && q.record.EntryLine?
    ensures var s' := StepOn(c, StepOn(c, s, Forget), Accept(q, NoFault, at));
      && Ack(q, true) in s'.acks
      && (Decode(c, s'.bytes) == Decode(c, s.bytes) + [q.record] <==> AtBoundary(c, s.bytes))
  {
    var head, piece :| EndsWithPiece(c, s.bytes, head, piece);
    var s' := StepOn(c, StepOn(c, s, Forget), Accept(q, NoFault, at));
    assert s.pending + [q] == [q];
    assert RecordsOf([q]) == [q.record];
    assert s'.acks == s.acks + AcksFor([q], true);
    assert AcksFor([q], true)[0] == Ack(q, true);
    AppendReadsBackIffAtBoundary(c, head, piece, q.record);
  }

  /** It can happen from an empty file, with any printer and any two entries: the first is torn and
      cannot be rolled back or ended, the writer is forgotten, the second is acked, and the file gives
      nothing back. */
  lemma AckedRecordCanBeLost<B(!new)>(c: Codec<B>, p: Queued, q: Queued, at: nat)
    requires Sound(c) && p.record.EntryLine? && q.record.EntryLine?
    ensures var s := Run(c, Fresh([]), [Accept(p, Stuck(1, false), at), Forget, Accept(q, NoFault, at)]);
      Ack(q, true) in s.acks && Decode(c, s.bytes) == []
  {
    var es := [Accept(p, Stuck(1, false), at), Forget, Accept(q, NoFault, at)];
    var torn := StepOn(c, Fresh([]), es[0]);
    TornAtOnce(c, p, at);
    var s := StepOn(c, StepOn(c, torn, Forget), es[2]);
    assert es[1..][0] == Forget && es[1..][1..] == [es[2]] && [es[2]][1..] == [];
    assert Run(c, StepOn(c, torn, Forget), [es[2]]) == s;
    assert Run(c, torn, es[1..]) == s;
    assert [] + [q] == [q] && RecordsOf([q]) == [q.record];
    assert s.acks == torn.acks + AcksFor([q], true) && AcksFor([q], true)[0] == Ack(q, true);
    SplicedLineIsLost(c, torn.bytes, q.record);
  }

  lemma TornAtOnce<B(!new)>(c: Codec<B>, p: Queued, at: nat)
    requires Sound(c) && p.record.EntryLine?
    ensures var torn := StepOn(c, Fresh([]), Accept(p, Stuck(1, false), at));
      && torn.poisoned && torn.pending == [] && torn.bytes == c.render(p.record)[..1]
      && IsPiece(c, torn.bytes) && torn.bytes != []
  {
    var r := p.record;
    assert c.render(r) != [] by { assert c.parse(c.render(r)) == Some(r); }
    assert [] + [p] == [p] && RecordsOf([p]) == [r];
    var data := Lines(c, [r]);
    assert data == c.render(r) + [c.newline] + Lines(c, []);
    assert data[..1] == c.render(r)[..1];
    assert [] + data[..1] + [] == data[..1];
  }

  // ---- one header a file ----

  function Headers(rs: seq<Record>): nat
    decreases |rs|
  {
    if rs == [] then 0 else (if rs[0].HeaderLine? then 1 else 0) + Headers(rs[1..])
  }

  lemma {:induction false} HeadersConcat(a: seq<Record>, b: seq<Record>)
    ensures Headers(a + b) == Headers(a) + Headers(b)
    decreases |a|
  {
    if a == [] {
      assert a + b == b;
    } else {
      assert (a + b)[1..] == a[1..] + b;
      HeadersConcat(a[1..], b);
    }
  }

  lemma {:induction false} CompactKeepsHeaders(rs: seq<Record>, live: bool)
    ensures Headers(Compact(rs, live)) == Headers(rs)
    decreases |rs|
  {
    if |rs| >= 2 {
      if live && Joins(rs[0], rs[1]) {
        var joined := [Join(rs[0], rs[1])] + rs[2..];
        CompactKeepsHeaders(joined, live);
        assert joined[1..] == rs[2..] && rs[1..][1..] == rs[2..];
        assert Headers(rs[1..]) == Headers(rs[2..]);
      } else {
        var tail := Compact(rs[1..], After(live, rs[0]));
        CompactKeepsHeaders(rs[1..], After(live, rs[0]));
        assert ([rs[0]] + tail)[1..] == tail;
      }
    }
  }

  function HeadersIn<B(==)>(c: Codec<B>, s: WriterState<B>): nat {
    Headers(Decode(c, s.bytes)) + Headers(RecordsOf(s.pending))
  }

  lemma PrefixAddsNoHeader(file: seq<Record>, rs: seq<Record>, n: nat, live: bool)
    requires n <= |rs|
    ensures Headers(file + Compact(rs[..n], live)) <= Headers(file) + Headers(rs)
  {
    HeadersConcat(file, Compact(rs[..n], live));
    CompactKeepsHeaders(rs[..n], live);
    HeadersConcat(rs[..n], rs[n..]);
    assert rs[..n] + rs[n..] == rs;
  }

  lemma WriteAddsNoHeader<B(!new)>(c: Codec<B>, s: WriterState<B>, s': WriterState<B>, n: nat)
    requires n <= |s.pending| && s'.pending == []
    requires Decode(c, s'.bytes) == Decode(c, s.bytes) + Compact(RecordsOf(s.pending)[..n], s.compactable)
    ensures HeadersIn(c, s') <= HeadersIn(c, s)
  {
    PrefixAddsNoHeader(Decode(c, s.bytes), RecordsOf(s.pending), n, s.compactable);
  }

  lemma FlushAddsNoHeader<B(!new)>(c: Codec<B>, base: seq<Record>, s: WriterState<B>, fault: Fault, at: nat)
    requires Sound(c) && Durable(c, base, s)
    ensures HeadersIn(c, FlushStep(c, s, fault, at)) <= HeadersIn(c, s)
  {
    if s.pending != [] {
      assert !s.poisoned;
      var s' := FlushStep(c, s, fault, at);
      match fault
      case NoFault =>
        WrittenIsDurable(c, base, s, at);
        var rs := RecordsOf(s.pending);
        assert rs[..|rs|] == rs;
        WriteAddsNoHeader(c, s, s', |rs|);
      case Stuck(n, repaired) =>
        StuckIsDurable(c, base, s, n, repaired, at);
        WriteAddsNoHeader(c, s, s', |Stranded(c, s, n)|);
      case CannotOpen =>
      case RolledBack(_) =>
    }
  }

  lemma NoHeaderWaits(qs: seq<Queued>)
    requires !HasHeader(qs)
    ensures Headers(RecordsOf(qs)) == 0
  {
    if qs != [] {
      assert !qs[0].record.HeaderLine?;
      assert forall i :: 0 <= i < |qs[1..]| ==> qs[1..][i] == qs[i+1];
      NoHeaderWaits(qs[1..]);
      assert RecordsOf(qs)[1..] == RecordsOf(qs[1..]);
    }
  }

  lemma EmptyFileHasNoRecords<B(!new)>(c: Codec<B>)
    requires Sound(c)
    ensures Decode(c, []) == []
  {
  }

  lemma HoldingAddsNoSecondHeader<B(!new)>(c: Codec<B>, s: WriterState<B>, held: WriterState<B>, q: Queued)
    requires Sound(c) && !(q.record.HeaderLine? && HeaderStands(s))
    requires held.bytes == s.bytes && held.pending == s.pending + [q]
    ensures HeadersIn(c, held) <= if HeadersIn(c, s) > 1 then HeadersIn(c, s) else 1
  {
    assert RecordsOf(held.pending) == RecordsOf(s.pending) + [q.record];
    HeadersConcat(RecordsOf(s.pending), [q.record]);
    HeadersOfOne(q.record);
    if q.record.HeaderLine? {
      NoHeaderWaits(s.pending);
      EmptyFileHasNoRecords(c);
    }
  }

  lemma HeadersOfOne(r: Record)
    ensures Headers([r]) == if r.HeaderLine? then 1 else 0
  {
    assert [r][1..] == [];
  }

  lemma StepAddsNoSecondHeader<B(!new)>(c: Codec<B>, base: seq<Record>, s: WriterState<B>, e: Event)
    requires Sound(c) && Durable(c, base, s)
    ensures HeadersIn(c, StepOn(c, s, e)) <= if HeadersIn(c, s) > 1 then HeadersIn(c, s) else 1
  {
    match e
    case Forget =>
    case Tick(fault, at) => FlushAddsNoHeader(c, base, s, fault, at);
    case Accept(q, fault, at) =>
      if !s.poisoned && !(q.record.HeaderLine? && HeaderStands(s)) {
        var held := Holding(s, q, at);
        SameFile(c, base, s, held);
        HoldingAddsNoSecondHeader(c, s, held, q);
        FlushAddsNoHeader(c, base, held, fault, at);
      }
  }

  /** However many reconnects race, a transcript begun empty never holds two headers. */
  lemma {:induction false} HeaderIsWrittenOnce<B(!new)>(c: Codec<B>, base: seq<Record>, s: WriterState<B>,
                                                        es: seq<Event>)
    requires Sound(c) && Durable(c, base, s) && ForgetsOnlyWhole(c, s, es) && HeadersIn(c, s) <= 1
    ensures Headers(Decode(c, Run(c, s, es).bytes)) <= 1
    decreases |es|
  {
    if es != [] {
      StepAddsNoSecondHeader(c, base, s, es[0]);
      StepIsDurable(c, base, s, es[0]);
      HeaderIsWrittenOnce(c, base, StepOn(c, s, es[0]), es[1..]);
    }
  }

  // ---- what the user reads ----

  function ReaderAfter<B(==)>(c: Codec<B>, s: WriterState<B>): State { Read(INIT, Decode(c, s.bytes)) }

  /** A writer that can still write merges only while the reader of its file has a turn start. */
  predicate Coupled<B(==)>(c: Codec<B>, s: WriterState<B>) {
    s.compactable && !s.poisoned ==> Started(ReaderAfter(c, s))
  }

  /** The file reads as the raw records that are in it. */
  predicate ReadsRaw<B(==)>(c: Codec<B>, base: seq<Record>, s: WriterState<B>) {
    ReaderAfter(c, s) == Read(Read(INIT, base), InFile(s.fates))
  }

  lemma ReadsRawGrows<B>(c: Codec<B>, base: seq<Record>, s: WriterState<B>, s': WriterState<B>,
                         rs: seq<Record>, fates: seq<Fated>)
    requires Coupled(c, s) && !s.poisoned && ReadsRaw(c, base, s)
    requires Decode(c, s'.bytes) == Decode(c, s.bytes) + Compact(rs, s.compactable)
    requires s'.fates == s.fates + fates && InFile(fates) == rs
    ensures ReadsRaw(c, base, s')
    ensures ReaderAfter(c, s') == Read(ReaderAfter(c, s), rs)
  {
    ReadConcat(INIT, Decode(c, s.bytes), Compact(rs, s.compactable));
    CompactReadsTheSame(ReaderAfter(c, s), rs, s.compactable);
    InFileConcat(s.fates, fates);
    ReadConcat(Read(INIT, base), InFile(s.fates), rs);
  }

  /** A flush that gets stuck leaves the turn it may have ended open, or the writer silent. What it
      strands is known from the batch, the file and the bytes put down, before the flag is used. */
  predicate Harmless<B(==)>(c: Codec<B>, s: WriterState<B>, fault: Fault) {
    s.pending != [] && !s.poisoned && s.compactable && fault.Stuck? && fault.repaired ==>
      TurnIsOpen(true, ReaderAfter(c, s), Stranded(c, s, fault.n))
  }

  lemma WholeBatchReads<B(!new)>(c: Codec<B>, base: seq<Record>, s: WriterState<B>, at: nat)
    requires Sound(c) && Durable(c, base, s) && Coupled(c, s) && ReadsRaw(c, base, s) && s.pending != [] && !s.poisoned
    ensures ReadsRaw(c, base, FlushStep(c, s, NoFault, at)) && Coupled(c, FlushStep(c, s, NoFault, at))
  {
    var rs := RecordsOf(s.pending);
    WrittenIsDurable(c, base, s, at);
    InFileDecided(s.pending, |s.pending|, Acked);
    assert rs[..|rs|] == rs;
    ReadsRawGrows(c, base, s, FlushStep(c, s, NoFault, at), rs, Decide(s.pending, |s.pending|, Acked, Lost));
    LiveImpliesStartedAll(ReaderAfter(c, s), s.compactable, rs);
  }

  lemma StuckReads<B(!new)>(c: Codec<B>, base: seq<Record>, s: WriterState<B>, n: nat, repaired: bool, at: nat)
    requires Sound(c) && Durable(c, base, s) && Coupled(c, s) && ReadsRaw(c, base, s) && s.pending != [] && !s.poisoned
    ensures var s' := FlushStep(c, s, Stuck(n, repaired), at);
      ReadsRaw(c, base, s') && ReaderAfter(c, s') == Read(ReaderAfter(c, s), Stranded(c, s, n))
  {
    var left := Stranded(c, s, n);
    StuckIsDurable(c, base, s, n, repaired, at);
    InFileDecided(s.pending, |left|, Unacked);
    ReadsRawGrows(c, base, s, FlushStep(c, s, Stuck(n, repaired), at), left, Decide(s.pending, |left|, Unacked, Lost));
  }

  /** Exactly when a flush leaves the flag telling the truth about the file. */
  lemma FlushStaysCoupledIff<B(!new)>(c: Codec<B>, base: seq<Record>, s: WriterState<B>, fault: Fault, at: nat)
    requires Sound(c) && Durable(c, base, s) && Coupled(c, s) && ReadsRaw(c, base, s)
    ensures ReadsRaw(c, base, FlushStep(c, s, fault, at))
    ensures Coupled(c, FlushStep(c, s, fault, at)) <==> Harmless(c, s, fault)
  {
    if s.pending != [] {
      match fault
      case NoFault => WholeBatchReads(c, base, s, at);
      case Stuck(n, repaired) =>
        StuckReads(c, base, s, n, repaired, at);
        StartedIffTurnIsOpen(ReaderAfter(c, s), Stranded(c, s, n));
      case CannotOpen =>
      case RolledBack(_) =>
    }
  }

  /** The same by the flag's own rule: a set flag stays true as long as no turn end is stranded
      without a prompt behind it, and, where no update stands behind a turn end, only then. */
  lemma StuckFlushStaysCoupledIff<B(!new)>(c: Codec<B>, base: seq<Record>, s: WriterState<B>, n: nat, at: nat)
    requires Sound(c) && Durable(c, base, s) && Coupled(c, s) && ReadsRaw(c, base, s)
    requires !s.poisoned && s.compactable && s.pending != []
    ensures var s', left := FlushStep(c, s, Stuck(n, true), at), Stranded(c, s, n);
      && (AfterAll(true, left) ==> Coupled(c, s'))
      && (UpdatesAreLive(true, left) ==> (Coupled(c, s') <==> AfterAll(true, left)))
  {
    FlushStaysCoupledIff(c, base, s, Stuck(n, true), at);
    FlagKeepsTurnOpen(ReaderAfter(c, s), true, true, Stranded(c, s, n));
  }

  /** No flush of the run is a harmful one. */
  predicate NoHarm<B(==)>(c: Codec<B>, s: WriterState<B>, es: seq<Event>)
    decreases |es|
  {
    if es == [] then true
    else
      && (match es[0]
          case Forget => true
          case Tick(fault, _) => Harmless(c, s, fault)
          case Accept(q, fault, at) =>
            Buffers(s, es[0]) && (IsBoundary(q.record) || !s.compactable) ==> Harmless(c, Holding(s, q, at), fault))
      && NoHarm(c, StepOn(c, s, es[0]), es[1..])
  }

  lemma StepReadsTheSame<B(!new)>(c: Codec<B>, base: seq<Record>, s: WriterState<B>, e: Event)
    requires Sound(c) && Durable(c, base, s) && Coupled(c, s) && ReadsRaw(c, base, s)
    requires NoHarm(c, s, [e])
    ensures ReadsRaw(c, base, StepOn(c, s, e))
    ensures Coupled(c, StepOn(c, s, e))
  {
    match e
    case Forget =>
    case Tick(fault, at) => FlushStaysCoupledIff(c, base, s, fault, at);
    case Accept(q, fault, at) =>
      if !s.poisoned && !(q.record.HeaderLine? && HeaderStands(s)) {
        SameFile(c, base, s, Holding(s, q, at));
        if IsBoundary(q.record) || !s.compactable {
          FlushStaysCoupledIff(c, base, Holding(s, q, at), fault, at);
        }
      }
  }

  lemma {:induction false} RunReadsTheSame<B(!new)>(c: Codec<B>, base: seq<Record>, s: WriterState<B>, es: seq<Event>)
    requires Sound(c) && Durable(c, base, s) && Coupled(c, s)
    requires ForgetsOnlyWhole(c, s, es) && NoHarm(c, s, es)
    requires ReadsRaw(c, base, s)
    ensures ReadsRaw(c, base, Run(c, s, es)) && Coupled(c, Run(c, s, es))
    decreases |es|
  {
    if es != [] {
      assert [es[0]][1..] == [];
      StepReadsTheSame(c, base, s, es[0]);
      StepIsDurable(c, base, s, es[0]);
      RunReadsTheSame(c, base, StepOn(c, s, es[0]), es[1..]);
    }
  }

  /** What the user sees is what the unmerged records in the file say. */
  predicate HistoryIsTrue<B(==)>(c: Codec<B>, base: seq<Record>, s: WriterState<B>) {
    Project(Decode(c, s.bytes)) == Project(base + InFile(s.fates))
  }

  lemma RawIsTrue<B>(c: Codec<B>, base: seq<Record>, s: WriterState<B>)
    requires ReadsRaw(c, base, s)
    ensures HistoryIsTrue(c, base, s)
  {
    ReadConcat(INIT, base, InFile(s.fates));
  }

  /** End to end: whatever was accepted, however it was buffered, merged, deferred, retried or
      abandoned, the history reads as the unmerged records that reached the file. */
  lemma HistoryReadsAsRecorded<B(!new)>(c: Codec<B>, bytes: seq<B>, es: seq<Event>)
    requires Sound(c) && AtBoundary(c, bytes)
    requires ForgetsOnlyWhole(c, Fresh(bytes), es) && NoHarm(c, Fresh(bytes), es)
    ensures HistoryIsTrue(c, Decode(c, bytes), Run(c, Fresh(bytes), es))
  {
    FreshIsDurable(c, bytes);
    RunReadsTheSame(c, Decode(c, bytes), Fresh(bytes), es);
    RawIsTrue(c, Decode(c, bytes), Run(c, Fresh(bytes), es));
  }

  // ---- the condition is exact ----

  /** A run on a disk that lets a failed write be taken back. */
  predicate NeverStuck(es: seq<Event>) {
    forall e :: e in es && !e.Forget? ==> !e.fault.Stuck?
  }

  lemma {:induction false} NeverStuckIsHarmless<B>(c: Codec<B>, s: WriterState<B>, es: seq<Event>)
    requires NeverStuck(es)
    ensures NoHarm(c, s, es)
    decreases |es|
  {
    if es != [] {
      assert es[0] in es && forall e :: e in es[1..] ==> e in es;
      NeverStuckIsHarmless(c, StepOn(c, s, es[0]), es[1..]);
    }
  }

  /** Two chunks of the agent's own work, and the flush that writes them. */
  function TwoChunks(at: nat): seq<Event> {
    [Accept(Queued(0, FIRST_CHUNK), NoFault, at), Accept(Queued(1, SECOND_CHUNK), NoFault, at), Tick(NoFault, at)]
  }

  lemma TwoChunksAreHeldAndWritten<B>(c: Codec<B>, s: WriterState<B>, at: nat)
    requires s.pending == [] && s.compactable && !s.poisoned
    ensures var qs, s' := [Queued(0, FIRST_CHUNK), Queued(1, SECOND_CHUNK)], Run(c, s, TwoChunks(at));
      && RecordsOf(qs) == [FIRST_CHUNK, SECOND_CHUNK] && s'.fates == s.fates + Decide(qs, 2, Acked, Lost)
      && s'.bytes == s.bytes + Lines(c, Compact([FIRST_CHUNK, SECOND_CHUNK], true))
      && ForgetsOnlyWhole(c, s, TwoChunks(at))
  {
    var es := TwoChunks(at);
    var qs := [Queued(0, FIRST_CHUNK), Queued(1, SECOND_CHUNK)];
    var one := StepOn(c, s, es[0]);
    assert one.pending == [qs[0]];
    var two := StepOn(c, one, es[1]);
    assert two.pending == qs && qs[1..] == [qs[1]] && qs[1..][1..] == [];
    assert RecordsOf(qs) == [FIRST_CHUNK, SECOND_CHUNK];
    var three := StepOn(c, two, es[2]);
    assert es[1..] == [es[1], es[2]] && es[1..][1..] == [es[2]] && [es[2]][1..] == [];
    assert Run(c, two, [es[2]]) == three && Run(c, one, es[1..]) == three;
    assert ForgetsOnlyWhole(c, two, [es[2]]) && ForgetsOnlyWhole(c, one, es[1..]);
  }

  lemma TwoChunksReadDifferently<B(!new)>(c: Codec<B>, base: seq<Record>, s: WriterState<B>, at: nat)
    requires Sound(c) && Durable(c, base, s) && ReadsRaw(c, base, s) && s.pending == []
    requires s.compactable && !s.poisoned && !Started(ReaderAfter(c, s))
    ensures NeverStuck(TwoChunks(at)) && ForgetsOnlyWhole(c, s, TwoChunks(at))
    ensures !HistoryIsTrue(c, base, Run(c, s, TwoChunks(at)))
  {
    var chunks := [FIRST_CHUNK, SECOND_CHUNK];
    var qs := [Queued(0, FIRST_CHUNK), Queued(1, SECOND_CHUNK)];
    var s' := Run(c, s, TwoChunks(at));
    TwoChunksAreHeldAndWritten(c, s, at);
    BytesEndLine(c, s);
    DecodeAppend(c, s.bytes, Lines(c, Compact(chunks, true)));
    LinesBoundary(c, Compact(chunks, true));
    ReadConcat(INIT, Decode(c, s.bytes), Compact(chunks, true));
    TwoMoreSettled(base, s.fates, ReaderAfter(c, s));
    MergedStartMoves(ReaderAfter(c, s));
  }

  lemma TwoMoreSettled(base: seq<Record>, fates: seq<Fated>, reader: State)
    requires Read(Read(INIT, base), InFile(fates)) == reader
    ensures var qs := [Queued(0, FIRST_CHUNK), Queued(1, SECOND_CHUNK)];
      Read(INIT, base + InFile(fates + Decide(qs, 2, Acked, Lost))) == Read(reader, [FIRST_CHUNK, SECOND_CHUNK])
  {
    var chunks := [FIRST_CHUNK, SECOND_CHUNK];
    var qs := [Queued(0, FIRST_CHUNK), Queued(1, SECOND_CHUNK)];
    InFileDecided(qs, 2, Acked);
    assert RecordsOf(qs)[..2] == chunks;
    InFileConcat(fates, Decide(qs, 2, Acked, Lost));
    ReadConcat(INIT, base, InFile(fates));
    ReadConcat(INIT, base + InFile(fates), chunks);
    assert base + (InFile(fates) + chunks) == (base + InFile(fates)) + chunks;
  }

  /** Exactly when a stuck flush does no harm: every later history, on a disk that behaves from then
      on, is true if and only if what the flush stranded leaves a turn open, or it left the writer
      silent. */
  lemma StuckFlushIsHarmlessIff<B(!new)>(c: Codec<B>, base: seq<Record>, s: WriterState<B>, n: nat, repaired: bool,
                                         at: nat)
    requires Sound(c) && Durable(c, base, s) && Coupled(c, s) && ReadsRaw(c, base, s)
    requires !s.poisoned && s.pending != []
    ensures var s' := FlushStep(c, s, Stuck(n, repaired), at);
      (forall es :: NeverStuck(es) && ForgetsOnlyWhole(c, s', es) ==> HistoryIsTrue(c, base, Run(c, s', es)))
      <==> Harmless(c, s, Stuck(n, repaired))
  {
    var s' := FlushStep(c, s, Stuck(n, repaired), at);
    FlushStaysCoupledIff(c, base, s, Stuck(n, repaired), at);
    StuckIsDurable(c, base, s, n, repaired, at);
    if Coupled(c, s') {
      forall es | NeverStuck(es) && ForgetsOnlyWhole(c, s', es) ensures HistoryIsTrue(c, base, Run(c, s', es)) {
        NeverStuckIsHarmless(c, s', es);
        RunReadsTheSame(c, base, s', es);
        RawIsTrue(c, base, Run(c, s', es));
      }
    } else {
      TwoChunksReadDifferently(c, base, s', at);
    }
  }

  lemma {:induction false} LandedWhole<B>(c: Codec<B>, out: seq<Record>)
    requires out != []
    ensures |Lines(c, out)| > 0 && Landed(c, out, |Lines(c, out)| - 1) == |out|
    decreases |out|
  {
    if |out| > 1 {
      LandedWhole(c, out[1..]);
    } else {
      assert Lines(c, out[1..]) == [];
    }
  }

  lemma {:induction false} CoveredWhole(rs: seq<Record>, live: bool)
    ensures Covered(rs, live, |Compact(rs, live)|) == |rs|
    decreases |rs|
  {
    if |rs| >= 2 {
      if live && Joins(rs[0], rs[1]) {
        CompactKeepsLive([Join(rs[0], rs[1])] + rs[2..], live);
        CoveredWhole([Join(rs[0], rs[1])] + rs[2..], live);
      } else {
        CoveredWhole(rs[1..], After(live, rs[0]));
      }
    }
  }

  /** The failing input: any batch that ends with a turn's end, all of it down but for the last
      newline, behind a rollback that fails. Some run of the writer after that reads wrongly. */
  lemma AbandonedTurnEndMovesTheNextTurn<B(!new)>(c: Codec<B>, base: seq<Record>, s: WriterState<B>, at: nat)
    requires Sound(c) && Durable(c, base, s) && Coupled(c, s) && ReadsRaw(c, base, s) && !s.poisoned && s.compactable
    requires s.pending != [] && var last := s.pending[|s.pending|-1].record; last.EntryLine? && last.entry.TurnEnd?
    ensures var s' := FlushStep(c, s, Stuck(|Data(c, s)|, true), at);
      && s'.compactable && !Coupled(c, s')
      && exists es :: NeverStuck(es) && ForgetsOnlyWhole(c, s', es) && !HistoryIsTrue(c, base, Run(c, s', es))
  {
    var rs, n := RecordsOf(s.pending), |Data(c, s)|;
    CompactKeepsLive(rs, true);
    LandedWhole(c, Compact(rs, true));
    CoveredWhole(rs, true);
    assert rs[..|rs|] == rs;
    assert Stranded(c, s, n) == rs;
    TurnEndClosesIt(ReaderAfter(c, s), true, rs);
    FlushStaysCoupledIff(c, base, s, Stuck(n, true), at);
    StuckFlushIsHarmlessIff(c, base, s, n, true, at);
  }

  /** Such a batch comes about from an empty file, with any prompt and any turn end: the first try to
      write the turn's end cannot open the file, the second gets stuck. */
  lemma AbandonedTurnEndHappens<B(!new)>(c: Codec<B>, p: Queued, e: Queued, at: nat)
    requires Sound(c) && p.record.EntryLine? && p.record.entry.Prompt?
    requires e.record.EntryLine? && e.record.entry.TurnEnd?
    ensures var s := Run(c, Fresh([]), [Accept(p, NoFault, at), Accept(e, CannotOpen, at)]);
            var s' := FlushStep(c, s, Stuck(|Data(c, s)|, true), at);
      && s'.compactable && !Coupled(c, s')
      && exists es :: NeverStuck(es) && ForgetsOnlyWhole(c, s', es) && !HistoryIsTrue(c, Decode(c, []), Run(c, s', es))
  {
    var es := [Accept(p, NoFault, at), Accept(e, CannotOpen, at)];
    var base, empty := Decode(c, []), Fresh([]);
    NeverStuckIsHarmless(c, empty, es);
    var one := StepOn(c, empty, es[0]);
    PromptSetsTheFlag(c, p, at);
    var two := StepOn(c, one, es[1]);
    assert two.pending == [e];
    RunOfTwo(c, empty, es[0], es[1]);
    FreshIsDurable<B>(c, []);
    RunIsDurable(c, base, empty, es);
    assert ReadsRaw(c, base, empty);
    RunReadsTheSame(c, base, empty, es);
    AbandonedTurnEndMovesTheNextTurn(c, base, two, at);
  }

  lemma RunOfTwo<B>(c: Codec<B>, s: WriterState<B>, a: Event, b: Event)
    requires !a.Forget? && !b.Forget?
    ensures Run(c, s, [a, b]) == StepOn(c, StepOn(c, s, a), b)
    ensures ForgetsOnlyWhole(c, s, [a, b])
  {
    var s1 := StepOn(c, s, a);
    assert [a, b][1..] == [b] && [b][1..] == [];
    assert Run(c, s1, [b]) == Run(c, StepOn(c, s1, b), []);
    assert ForgetsOnlyWhole(c, s1, [b]);
  }

  lemma PromptSetsTheFlag<B(!new)>(c: Codec<B>, p: Queued, at: nat)
    requires p.record.EntryLine? && p.record.entry.Prompt?
    ensures var s := StepOn(c, Fresh([]), Accept(p, NoFault, at)); s.compactable && !s.poisoned && s.pending == []
  {
    assert [] + [p] == [p] && RecordsOf([p]) == [p.record];
    var rs := [p.record];
    assert rs[1..] == [] && AfterAll(false, rs) == AfterAll(After(false, rs[0]), rs[1..]);
  }

  // ---- nothing waits that should not ----

  /** While the disk works, only updates of a live turn are ever held back: no header, no prompt and no
      turn's end. */
  ghost predicate OnlyLiveUpdatesWait<B>(s: WriterState<B>) {
    && (forall i :: 0 <= i < |s.pending| ==> s.pending[i].record.EntryLine? && s.pending[i].record.entry.Update?)
    && (s.pending != [] ==> s.compactable)
  }

  lemma {:induction false} BoundariesNeverWait<B(!new)>(c: Codec<B>, s: WriterState<B>, es: seq<Event>)
    requires OnlyLiveUpdatesWait(s)
    requires forall i :: 0 <= i < |es| && !es[i].Forget? ==> es[i].fault.NoFault?
    ensures OnlyLiveUpdatesWait(Run(c, s, es))
    decreases |es|
  {
    if es != [] {
      assert OnlyLiveUpdatesWait(StepOn(c, s, es[0]));
      BoundariesNeverWait(c, StepOn(c, s, es[0]), es[1..]);
    }
  }
}
