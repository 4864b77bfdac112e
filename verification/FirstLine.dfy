/**
 What becomes of a session's header, and since when a batch has waited.

 The rule by which the writer takes an offered header for a repeat is not used here: the theorems
 speak of the file as it decodes, of the batch and of what callers were told.
 */
module FirstLine {
  import opened Options
  import opened Records
  import opened Compaction
  import opened TranscriptFile
  import opened Writer
  import opened Durability

  // ---- a header that was acked ----

  /** There is something to find the session by: a record in the file, or a header in the batch. */
  ghost predicate HasStart<B>(c: Codec<B>, s: WriterState<B>) {
    Decode(c, s.bytes) != [] || exists i :: 0 <= i < |s.pending| && s.pending[i].record.HeaderLine?
  }

  /** Without a stuck flush. */
  ghost predicate StartIsKept<B(!new)>(c: Codec<B>, base: seq<Record>, s: WriterState<B>) {
    && Durable(c, base, s) && !s.poisoned
    && (s.bytes != [] ==> Decode(c, s.bytes) != [])
    && (s.headerWritten ==> HasStart(c, s))
    && (forall a :: a in s.acks && a.landed && a.q.record.HeaderLine? ==> HasStart(c, s))
    && (forall i :: 0 <= i < |s.fates| ==> s.fates[i].fate.Acked?)
  }

  lemma {:induction false} CompactIsSome(rs: seq<Record>, live: bool)
    requires rs != []
    ensures Compact(rs, live) != []
    decreases |rs|
  {
    if |rs| >= 2 && live && Joins(rs[0], rs[1]) { CompactIsSome([Join(rs[0], rs[1])] + rs[2..], live); }
  }

  lemma FlushKeepsStart<B(!new)>(c: Codec<B>, base: seq<Record>, s: WriterState<B>, fault: Fault, at: nat)
    requires Sound(c) && StartIsKept(c, base, s) && !fault.Stuck?
    ensures StartIsKept(c, base, FlushStep(c, s, fault, at))
  {
    FlushIsDurable(c, base, s, fault, at);
    if s.pending != [] && fault.NoFault? {
      WrittenIsDurable(c, base, s, at);
      CompactIsSome(RecordsOf(s.pending), s.compactable);
    }
  }

  lemma HoldingKeepsStart<B(!new)>(c: Codec<B>, base: seq<Record>, s: WriterState<B>, q: Queued, at: nat)
    requires StartIsKept(c, base, s)
    ensures StartIsKept(c, base, Holding(s, q, at))
  {
    var held := Holding(s, q, at);
    SameFile(c, base, s, held);
    if i :| 0 <= i < |s.pending| && s.pending[i].record.HeaderLine? {
      assert held.pending[i] == s.pending[i];
    }
  }

  lemma AcceptKeepsStart<B(!new)>(c: Codec<B>, base: seq<Record>, s: WriterState<B>, q: Queued, fault: Fault, at: nat)
    requires Sound(c) && StartIsKept(c, base, s) && !fault.Stuck?
    ensures StartIsKept(c, base, AcceptStep(c, s, q, fault, at))
  {
    AcceptIsDurable(c, base, s, q, fault, at);
    if Buffers(s, Accept(q, fault, at)) {
      HoldingKeepsStart(c, base, s, q, at);
      FlushKeepsStart(c, base, Holding(s, q, at), fault, at);
    }
  }

  lemma {:induction false} RunKeepsStart<B(!new)>(c: Codec<B>, base: seq<Record>, s: WriterState<B>, es: seq<Event>)
    requires Sound(c) && StartIsKept(c, base, s) && NeverStuck(es)
    ensures StartIsKept(c, base, Run(c, s, es))
    decreases |es|
  {
    if es != [] {
      var e := es[0];
      assert e in es && forall x :: x in es[1..] ==> x in es;
      match e {
        case Accept(q, fault, at) => AcceptKeepsStart(c, base, s, q, fault, at);
        case Tick(fault, at) => FlushKeepsStart(c, base, s, fault, at);
        case Forget =>
          BytesEndLine(c, s);
          StepIsDurable(c, base, s, e);
      }
      RunKeepsStart(c, base, StepOn(c, s, e), es[1..]);
    }
  }

  /** However often headers are offered, while no flush gets stuck: a caller is told that a header
      landed only if the file holds a record, or a header waits to be written. */
  lemma AckedHeaderStands<B(!new)>(c: Codec<B>, bytes: seq<B>, es: seq<Event>, a: Ack)
    requires Sound(c) && AtBoundary(c, bytes) && (bytes != [] ==> Decode(c, bytes) != []) && NeverStuck(es)
    requires a in Run(c, Fresh(bytes), es).acks && a.landed && a.q.record.HeaderLine?
    ensures HasStart(c, Run(c, Fresh(bytes), es))
  {
    FreshIsDurable(c, bytes);
    RunKeepsStart(c, Decode(c, bytes), Fresh(bytes), es);
  }

  lemma MergesKeepsFirst(raw: seq<Record>, out: seq<Record>)
    requires Merges(raw, out) && raw != [] && raw[0].HeaderLine?
    ensures out != [] && out[0] == raw[0]
  {
  }

  /** A header handed over first is line 0 of the file from its first byte on, whatever follows. */
  lemma HeaderIsLineZero<B(!new)>(c: Codec<B>, h: Queued, fault: Fault, at: nat, more: seq<Event>)
    requires Sound(c) && h.record.HeaderLine? && NeverStuck([Accept(h, fault, at)] + more)
    ensures var s := Run(c, Fresh([]), [Accept(h, fault, at)] + more);
            var file := Decode(c, s.bytes);
      if s.bytes == [] then s.pending != [] && s.pending[0] == h else file != [] && file[0] == h.record
  {
    var es, empty := [Accept(h, fault, at)] + more, Fresh<B>([]);
    var s := Run(c, empty, es);
    FreshIsDurable<B>(c, []);
    EmptyFileHasNoRecords(c);
    RunKeepsStart(c, [], empty, es);
    TakenIsBufferedInOrder(c, empty, es);
    assert Buffers(empty, es[0]) && Buffered(c, empty, es)[0] == h && Taken(empty) == [];
    assert Taken(s)[0] == h;
    var file := Decode(c, s.bytes);
    assert file[0..] == file;
    if s.fates == [] {
      assert s.pending[0] == h;
      assert InFile(s.fates) == [];
    } else {
      assert s.fates[0].q == h;
      MergesKeepsFirst(InFile(s.fates), file);
    }
  }

  // ---- one header at a time ----

  /** A new session's header, on a disk that works: it is written, and the file is just it. */
  lemma FirstHeaderIsWritten<B(!new)>(c: Codec<B>, h: Queued, at: nat)
    requires Sound(c) && h.record.HeaderLine?
    ensures var s := AcceptStep(c, Fresh([]), h, NoFault, at);
      Decode(c, s.bytes) == [h.record] && s.acks == [Ack(h, true)] && s.pending == []
  {
    var held := Holding(Fresh([]), h, at);
    assert held.pending == [h] && RecordsOf([h]) == [h.record];
    FreshIsDurable<B>(c, []);
    EmptyFileHasNoRecords(c);
    SameFile(c, [], Fresh([]), held);
    WrittenIsDurable(c, [], held, at);
    assert AcksFor([h], true) == [Ack(h, true)];
    assert [] + [h.record] == [h.record] && [] + [Ack(h, true)] == [Ack(h, true)];
  }

  /** A header offered to a file that holds anything, or behind one that waits: nothing is buffered, and
      the bytes stay. The caller is told that it landed, unless the writer has given up. */
  lemma RepeatedHeaderIsNotWritten<B>(c: Codec<B>, s: WriterState<B>, h: Queued, fault: Fault, at: nat)
    requires h.record.HeaderLine?
    requires s.bytes != [] || exists i :: 0 <= i < |s.pending| && s.pending[i].record.HeaderLine?
    ensures var s' := AcceptStep(c, s, h, fault, at);
      s'.bytes == s.bytes && s'.pending == s.pending && s'.acks == s.acks + [Ack(h, !s.poisoned)]
  {
  }

  /** Behind a flush that got stuck on an empty file, a header is taken for a repeat of what may not be
      there: its caller is told that it landed, and the file is what the flush stranded. */
  lemma HeaderBehindStuckFlush<B(!new)>(c: Codec<B>, s: WriterState<B>, n: nat, h: Queued, fault: Fault, at: nat)
    requires Sound(c) && Durable(c, [], s) && s.bytes == [] && s.pending != [] && !s.poisoned && h.record.HeaderLine?
    ensures var s' := AcceptStep(c, FlushStep(c, s, Stuck(n, true), at), h, fault, at);
      && Ack(h, true) in s'.acks
      && (HasStart(c, s') <==> Stranded(c, s, n) != [])
      && Headers(Decode(c, s'.bytes)) == Headers(Stranded(c, s, n))
  {
    var stuck := FlushStep(c, s, Stuck(n, true), at);
    var left := Stranded(c, s, n);
    StuckIsDurable(c, [], s, n, true, at);
    EmptyFileHasNoRecords(c);
    assert [] + Compact(left, s.compactable) == Compact(left, s.compactable);
    CompactKeepsHeaders(left, s.compactable);
    if left != [] { CompactIsSome(left, s.compactable); }
    assert stuck.bytes[|stuck.bytes|-1] == c.newline;
    RepeatedHeaderIsNotWritten(c, stuck, h, fault, at);
    assert Ack(h, true) in stuck.acks + [Ack(h, true)];
  }

  /** It can happen from the start: a session's header is torn anywhere, its retry is acked, and the
      file never holds one. */
  lemma AckedHeaderCanBeMissing<B(!new)>(c: Codec<B>, h: Queued, n: nat, retry: Queued, at: nat)
    requires Sound(c) && h.record.HeaderLine? && retry.record.HeaderLine? && n < |c.render(h.record)|
    ensures var s := Run(c, Fresh([]), [Accept(h, Stuck(n, true), at), Accept(retry, NoFault, at)]);
      Ack(retry, true) in s.acks && Decode(c, s.bytes) == [] && s.pending == []
  {
    var held := Holding(Fresh([]), h, at);
    assert held.pending == [h] && RecordsOf([h]) == [h.record];
    RunOfTwo(c, Fresh([]), Accept(h, Stuck(n, true), at), Accept(retry, NoFault, at));
    FreshIsDurable<B>(c, []);
    EmptyFileHasNoRecords(c);
    SameFile(c, [], Fresh([]), held);
    assert Data(c, held) == Lines(c, [h.record]) && Landed(c, [h.record], n) == 0;
    assert Stranded(c, held, n) == [];
    HeaderBehindStuckFlush(c, held, n, retry, NoFault, at);
  }

  // ---- since when a batch has waited ----

  predicate Defers(fault: Fault) { fault.CannotOpen? || fault.RolledBack? }

  /** The batch has waited since `e`: that handed over its first record, or tried to flush it in vain. */
  predicate WaitsSince<B>(s: WriterState<B>, e: Event) {
    !e.Forget? && s.pending != [] && s.oldest == Some(e.at) && ((e.Accept? && e.q == s.pending[0]) || Defers(e.fault))
  }

  ghost predicate Dated<B>(s: WriterState<B>, past: seq<Event>) {
    if s.pending == [] then s.oldest.None? else exists e :: e in past && WaitsSince(s, e)
  }

  lemma FlushIsDated<B>(c: Codec<B>, s: WriterState<B>, fault: Fault, at: nat, past: seq<Event>, e: Event)
    requires Dated(s, past) && e in past && !e.Forget? && e.fault == fault && e.at == at
    ensures Dated(FlushStep(c, s, fault, at), past)
  {
    var s' := FlushStep(c, s, fault, at);
    if s.pending != [] && !s.poisoned && Defers(fault) {
      assert WaitsSince(s', e);
    }
  }

  lemma HoldingIsDated<B>(s: WriterState<B>, q: Queued, fault: Fault, at: nat, past: seq<Event>)
    requires Dated(s, past)
    ensures Dated(Holding(s, q, at), past + [Accept(q, fault, at)])
  {
    var now := Accept(q, fault, at);
    var held := Holding(s, q, at);
    if s.pending == [] {
      assert held.pending == [q];
      assert now in past + [now] && WaitsSince(held, now);
    } else {
      var e :| e in past && WaitsSince(s, e);
      assert held.pending[0] == s.pending[0];
      assert e in past + [now] && WaitsSince(held, e);
    }
  }

  lemma SameIsDated<B>(s: WriterState<B>, s': WriterState<B>, past: seq<Event>, e: Event)
    requires Dated(s, past) && s'.pending == s.pending && s'.oldest == s.oldest
    ensures Dated(s', past + [e])
  {
    if s.pending != [] {
      var x :| x in past && WaitsSince(s, x);
      assert x in past + [e] && WaitsSince(s', x);
    }
  }

  lemma StepIsDated<B>(c: Codec<B>, s: WriterState<B>, past: seq<Event>, e: Event)
    requires Dated(s, past)
    ensures Dated(StepOn(c, s, e), past + [e])
  {
    SameIsDated(s, s, past, e);
    match e
    case Forget => SameIsDated(s, StepOn(c, s, e), past, e);
    case Tick(fault, at) => FlushIsDated(c, s, fault, at, past + [e], e);
    case Accept(q, fault, at) =>
      if Buffers(s, e) {
        HoldingIsDated(s, q, fault, at, past);
        FlushIsDated(c, Holding(s, q, at), fault, at, past + [e], e);
      } else {
        SameIsDated(s, StepOn(c, s, e), past, e);
      }
  }

  lemma {:induction false} RunIsDated<B>(c: Codec<B>, s: WriterState<B>, past: seq<Event>, es: seq<Event>)
    requires Dated(s, past)
    ensures Dated(Run(c, s, es), past + es)
    decreases |es|
  {
    if es == [] {
      assert past + es == past;
    } else {
      StepIsDated(c, s, past, es[0]);
      RunIsDated(c, StepOn(c, s, es[0]), past + [es[0]], es[1..]);
      assert es == [es[0]] + es[1..] && past + [es[0]] + es[1..] == past + es;
    }
  }

  /** The time a batch is due by runs from when its first record was handed over, or from the last
      failed try. So on a disk that works it runs from the former, however many records join. */
  lemma BatchIsDatedByItsFirst<B>(c: Codec<B>, bytes: seq<B>, es: seq<Event>)
    ensures Dated(Run(c, Fresh(bytes), es), es)
    ensures var s := Run(c, Fresh(bytes), es);
      (forall e :: e in es && !e.Forget? ==> e.fault.NoFault?) && s.pending != [] ==>
        exists at :: s.oldest == Some(at) && Accept(s.pending[0], NoFault, at) in es
  {
    RunIsDated(c, Fresh(bytes), [], es);
    assert [] + es == es;
    var s := Run(c, Fresh(bytes), es);
    if (forall e :: e in es && !e.Forget? ==> e.fault.NoFault?) && s.pending != [] {
      var e :| e in es && WaitsSince(s, e);
      assert e == Accept(s.pending[0], NoFault, e.at);
    }
  }
}
