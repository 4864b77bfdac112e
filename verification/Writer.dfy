/**
 The per-file writer: buffering, flushing, and what survives each way a write can fail.

 `WriterState` and its step functions are the specification; class `SessionWriter` is the object with
 its mutable fields, proved step by step against them. The theorems are about whole runs.
 */
module Writer {
  import opened Options
  import opened Records
  import opened Reader
  import opened Compaction
  import opened TranscriptFile

  /** A record and the caller waiting to learn whether it landed. */
  datatype Queued = Queued(id: nat, record: Record)

  datatype Ack = Ack(q: Queued, landed: bool)

  /** What the disk does to one flush. `n` is how many bytes a failing write put down. */
  datatype Fault =
    | NoFault
    | CannotOpen
    | RolledBack(n: nat)
    | Stuck(n: nat, repaired: bool)

  /** What became of a buffered record. An abandoned one may still be in the file. */
  datatype Fate = Acked | Unacked | Lost

  datatype Fated = Fated(q: Queued, fate: Fate)

  datatype WriterState<B> = WriterState(pending: seq<Queued>, compactable: bool, headerWritten: bool,
                            poisoned: bool, oldest: Option<nat>, bytes: seq<B>,
                            acks: seq<Ack>, fates: seq<Fated>)

  function Fresh<B>(bytes: seq<B>): WriterState<B> { WriterState([], false, false, false, None, bytes, [], []) }

  function RecordsOf(qs: seq<Queued>): (rs: seq<Record>)
    ensures |rs| == |qs|
    ensures forall i :: 0 <= i < |qs| ==> rs[i] == qs[i].record
  {
    if qs == [] then [] else [qs[0].record] + RecordsOf(qs[1..])
  }

  function AcksFor(qs: seq<Queued>, landed: bool): (acks: seq<Ack>)
    ensures |acks| == |qs|
    ensures forall i :: 0 <= i < |qs| ==> acks[i] == Ack(qs[i], landed)
  {
    if qs == [] then [] else [Ack(qs[0], landed)] + AcksFor(qs[1..], landed)
  }

  lemma OneMoreAck(qs: seq<Queued>, i: nat, landed: bool)
    requires i < |qs|
    ensures AcksFor(qs[..i+1], landed) == AcksFor(qs[..i], landed) + [Ack(qs[i], landed)]
  {
  }

  /** The first `k` records with one fate, the others with another. */
  function Decide(qs: seq<Queued>, k: nat, first: Fate, others: Fate): (fs: seq<Fated>)
    ensures |fs| == |qs|
    ensures forall i :: 0 <= i < |qs| ==> fs[i] == Fated(qs[i], if i < k then first else others)
  {
    if qs == [] then []
    else [Fated(qs[0], if k > 0 then first else others)] + Decide(qs[1..], if k > 0 then k - 1 else 0, first, others)
  }

  predicate HasHeader(qs: seq<Queued>) { exists i :: 0 <= i < |qs| && qs[i].record.HeaderLine? }

  predicate HeaderStands<B>(s: WriterState<B>) { s.headerWritten || HasHeader(s.pending) || s.bytes != [] }

  function Resolve<B>(s: WriterState<B>, landed: bool, fates: seq<Fated>): WriterState<B> {
    s.(pending := [], oldest := None, acks := s.acks + AcksFor(s.pending, landed), fates := s.fates + fates)
  }

  /** How many raw records the first `k` compacted ones stand for. */
  function Covered(rs: seq<Record>, live: bool, k: nat): (m: nat)
    ensures m <= |rs|
    decreases |rs|
  {
    if k == 0 || rs == [] then 0
    else if |rs| >= 2 && live && Joins(rs[0], rs[1]) then
      1 + Covered([Join(rs[0], rs[1])] + rs[2..], live, k)
    else 1 + Covered(rs[1..], After(live, rs[0]), k - 1)
  }

  function Data<B>(c: Codec<B>, s: WriterState<B>): seq<B> { Lines(c, Compact(RecordsOf(s.pending), s.compactable)) }

  /** How much of the data a failing write put down: never all of it. */
  function Put(n: nat, len: nat): nat { if len == 0 then 0 else if n < len then n else len - 1 }

  function FlushStep<B>(c: Codec<B>, s: WriterState<B>, fault: Fault, now: nat): WriterState<B> {
    if s.pending == [] then s
    else if s.poisoned then Resolve(s, false, Decide(s.pending, 0, Lost, Lost))
    else
      var rs := RecordsOf(s.pending);
      var data := Data(c, s);
      match fault
      case CannotOpen => s.(oldest := Some(now))
      case RolledBack(_) => s.(oldest := Some(now))
      case NoFault =>
        Resolve(s, true, Decide(s.pending, |s.pending|, Acked, Lost)).(
          bytes := s.bytes + data, compactable := AfterAll(s.compactable, rs),
          headerWritten := s.headerWritten || HasHeader(s.pending))
      case Stuck(n, repaired) =>
        var k := Landed(c, Compact(rs, s.compactable), Put(n, |data|));
        Resolve(s, false, Decide(s.pending, Covered(rs, s.compactable, k), Unacked, Lost)).(
          bytes := s.bytes + data[..Put(n, |data|)] + (if repaired then [c.newline] else []),
          poisoned := !repaired)
  }

  function AcceptStep<B>(c: Codec<B>, s: WriterState<B>, q: Queued, fault: Fault, now: nat): WriterState<B> {
    if s.poisoned then s.(acks := s.acks + [Ack(q, false)])
    else if q.record.HeaderLine? && HeaderStands(s) then
      s.(headerWritten := true, acks := s.acks + [Ack(q, true)])
    else
      var held := s.(pending := s.pending + [q], oldest := if s.pending == [] then Some(now) else s.oldest);
      if IsBoundary(q.record) || !s.compactable then FlushStep(c, held, fault, now) else held
  }

  // ---- the object ----

  class Disk<B> {
    var bytes: seq<B>
    constructor (bytes: seq<B>)
      ensures this.bytes == bytes
    { this.bytes := bytes; }
  }

  class SessionWriter<B(==)> {
    const codec: Codec<B>
    const disk: Disk<B>
    var pending: seq<Queued>
    var compactable: bool
    var headerWritten: bool
    var poisoned: bool
    var oldestPendingAt: Option<nat>
    /** What the receivers have been told so far. */
    var acks: seq<Ack>
    ghost var fates: seq<Fated>

    ghost function Abs(): WriterState<B>
      reads this, disk
    {
      WriterState(pending, compactable, headerWritten, poisoned, oldestPendingAt, disk.bytes, acks, fates)
    }

    constructor (codec: Codec<B>, disk: Disk<B>)
      ensures this.codec == codec && this.disk == disk
      ensures Abs() == Fresh(disk.bytes)
    {
      this.codec, this.disk := codec, disk;
      pending, compactable, headerWritten, poisoned := [], false, false, false;
      oldestPendingAt, acks, fates := None, [], [];
    }

    method Accept(q: Queued, fault: Fault, now: nat)
      modifies this, disk
      ensures Abs() == AcceptStep(codec, old(Abs()), q, fault, now)
    {
      if poisoned {
        acks := acks + [Ack(q, false)];
        return;
      }
      if q.record.HeaderLine? {
        var stands := HeaderAlreadyStands();
        if stands {
          acks := acks + [Ack(q, true)];
          return;
        }
      }
      var boundary := IsBoundary(q.record);
      if pending == [] {
        oldestPendingAt := Some(now);
      }
      pending := pending + [q];
      if boundary || !compactable {
        Flush(fault, now);
      }
    }

    method HeaderAlreadyStands() returns (stands: bool)
      modifies this
      ensures stands == old(HeaderStands(Abs()))
      ensures Abs() == if stands then old(Abs()).(headerWritten := true) else old(Abs())
    {
      if headerWritten { return true; }
      stands := HasHeader(pending) || disk.bytes != [];
      if stands { headerWritten := true; }
    }

    method ResolveAll(landed: bool)
      modifies this
      ensures disk.bytes == old(disk.bytes)
      ensures Abs() == old(Abs()).(pending := [], oldest := None, acks := old(acks) + AcksFor(old(pending), landed))
    {
      var i := 0;
      while i < |pending|
        invariant 0 <= i <= |pending|
        invariant acks == old(acks) + AcksFor(pending[..i], landed)
        modifies this`acks
      {
        OneMoreAck(pending, i, landed);
        acks := acks + [Ack(pending[i], landed)];
        i := i + 1;
      }
      assert pending[..i] == pending;
      pending, oldestPendingAt := [], None;
    }

    method Flush(fault: Fault, now: nat)
      modifies this, disk
      ensures Abs() == FlushStep(codec, old(Abs()), fault, now)
    {
      if pending == [] { return; }
      if poisoned {
        fates := fates + Decide(pending, 0, Lost, Lost);
        ResolveAll(false);
        return;
      }
      var rs := RecordsOf(pending);
      var lines, nextCompactable := CompactBatch(rs, compactable);
      var data := Lines(codec, lines);
      match fault
      case CannotOpen => Defer(now);
      case NoFault =>
        disk.bytes := disk.bytes + data;
        compactable := nextCompactable;
        headerWritten := headerWritten || HasHeader(pending);
        fates := fates + Decide(pending, |pending|, Acked, Lost);
        ResolveAll(true);
      case RolledBack(n) =>
        var preLen := |disk.bytes|;
        disk.bytes := disk.bytes + data[..Put(n, |data|)];
        disk.bytes := disk.bytes[..preLen];
        Defer(now);
      case Stuck(n, repaired) =>
        disk.bytes := disk.bytes + data[..Put(n, |data|)];
        ghost var covered := Covered(rs, compactable, Landed(codec, lines, Put(n, |data|)));
        Abandon(repaired, covered);
    }

    /** The tail holds part of the batch and cannot be taken back: ends the line, or gives the file up. */
    method Abandon(repaired: bool, ghost covered: nat)
      modifies this, disk
      ensures disk.bytes == old(disk.bytes) + if repaired then [codec.newline] else []
      ensures Abs() == Resolve(old(Abs()), false, Decide(old(pending), covered, Unacked, Lost)).(
                         bytes := disk.bytes, poisoned := !repaired || old(poisoned))
    {
      if repaired {
        disk.bytes := disk.bytes + [codec.newline];
      } else {
        poisoned := true;
      }
      fates := fates + Decide(pending, covered, Unacked, Lost);
      ResolveAll(false);
    }

    method Defer(now: nat)
      modifies this
      ensures Abs() == old(Abs()).(oldest := Some(now))
    {
      oldestPendingAt := Some(now);
    }
  }
}
