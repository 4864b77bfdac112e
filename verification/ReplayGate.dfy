/**
 The replay gate under concurrency: recording threads, the writer thread and any number of gates,
 interleaved step by step. A gate reads the pending-prompt count first and the file second, with
 anything in between.
 */
module ReplayGate {

  type Path = string

  // ---- the pending-prompt counts ----

  function Take(counts: map<Path, nat>, p: Path): map<Path, nat> {
    counts[p := (if p in counts then counts[p] else 0) + 1]
  }

  function Release(counts: map<Path, nat>, p: Path): map<Path, nat> {
    if p !in counts then counts
    else if counts[p] <= 1 then counts - {p}
    else counts[p := counts[p] - 1]
  }

  /** The counts of the guards held, by path. */
  ghost predicate Counts(counts: map<Path, nat>, held: multiset<Path>) {
    forall p :: (p in counts <==> p in held) && (p in counts ==> counts[p] == held[p])
  }

  class PendingPrompts {
    var counts: map<Path, nat>
    /** The guards that are out. */
    ghost var held: multiset<Path>

    ghost predicate Valid()
      reads this
    { Counts(counts, held) }

    constructor ()
      ensures Valid() && held == multiset{} && counts == map[]
    { counts, held := map[], multiset{}; }

    /** A guard taken. */
    method New(p: Path)
      requires Valid()
      modifies this
      ensures Valid() && held == old(held) + multiset{p}
      ensures counts == Take(old(counts), p)
    {
      if p !in counts { counts := counts[p := 0]; }
      counts, held := counts[p := counts[p] + 1], held + multiset{p};
    }

    /** A guard dropped: an entry that reaches zero goes. */
    method Drop(p: Path)
      requires Valid() && p in held
      modifies this
      ensures Valid() && held == old(held) - multiset{p}
      ensures counts == Release(old(counts), p)
    {
      if p in counts {
        var n := counts[p] - 1;
        counts := counts[p := n];
        if n == 0 { counts := counts - {p}; }
      }
      held := held - multiset{p};
    }

    /** Whether any guard of the path is out. */
    method HasPendingPrompt(p: Path) returns (pending: bool)
      requires Valid()
      ensures pending <==> held[p] > 0
    {
      return p in counts;
    }
  }

  // ---- a record's way to disk ----

  /** `acked`: its caller was told that it landed. `Leaving` has left the writer with its guard still
      to be dropped. */
  datatype Stage = Sending | InQueue | InBuffer | Leaving(acked: bool) | Gone(acked: bool)

  datatype Kind = Header | Prompt | OtherEntry

  datatype Job = Job(path: Path, kind: Kind, stage: Stage)

  /** `owed`: the prompts of the path recorded before the gate's first read. */
  datatype Gate =
    | Reading(path: Path, sawPending: bool, owed: set<nat>)
    | Answered(path: Path, history: bool, owed: set<nat>)

  /** `files` are the records that a reader of each transcript finds, headers included. A `torn` file
      ends inside a line, and the writer of a `poisoned` one has given it up. */
  datatype State = State(jobs: map<nat, Job>, counts: map<Path, nat>, files: map<Path, set<nat>>,
                         torn: set<Path>, poisoned: set<Path>, gates: map<nat, Gate>)

  const INIT := State(map[], map[], map[], {}, {}, map[])

  const QUEUE_CAP: nat := 8192

  /** What one flush does to a file. That an untorn one gives back all of a batch written whole is
      `AckedPromptIsRead` of module `Durability`, over the bytes. On a torn one the first line is
      spliced onto the torn line, so that only `found` read back, and `lost` do no longer. A flush that
      gets stuck leaves `left` in the file, and ends the line or gives up. */
  datatype Outcome =
    | Deferred
    | Written(found: set<nat>, lost: set<nat>)
    | Stuck(left: set<nat>, lost: set<nat>, repaired: bool, midLine: bool)

  datatype Step =
      // The guard is taken before the record is handed to the queue.
    | Enqueue(id: nat, path: Path, kind: Kind)
      // `closed`: the writer thread is gone.
    | TrySend(id: nat, closed: bool)
      // `stands`: a header that is there already is acked and not kept.
    | Receive(id: nat, stands: bool)
    | Flush(path: Path, outcome: Outcome)
      // An idle writer is forgotten, and what it knew of its file with it.
    | Evict(path: Path)
    | DropGuard(id: nat)
    | FirstRead(gate: nat, path: Path)
      // `glimpse`: the file is read during a write that is rolled back afterwards.
    | SecondRead(gate: nat, glimpse: bool)

  function InQueueNow(s: State): set<nat> { set id | id in s.jobs && s.jobs[id].stage.InQueue? }

  function Buffer(s: State, p: Path): set<nat> {
    set id | id in s.jobs && s.jobs[id].path == p && s.jobs[id].stage.InBuffer?
  }

  function Lines(s: State, p: Path): set<nat> { if p in s.files then s.files[p] else {} }

  /** What the file read looks for: a header does not count. */
  function Entries(s: State, p: Path): set<nat> {
    set id | id in Lines(s, p) && id in s.jobs && !s.jobs[id].kind.Header?
  }

  function Move(s: State, id: nat, stage: Stage): State
    requires id in s.jobs
  {
    s.(jobs := s.jobs[id := s.jobs[id].(stage := stage)])
  }

  /** The whole batch leaves the writer. */
  function Settle(s: State, batch: set<nat>, acked: bool): State {
    s.(jobs := map id | id in s.jobs ::
         if id in batch then s.jobs[id].(stage := Leaving(acked)) else s.jobs[id])
  }

  function Recorded(s: State, p: Path): set<nat> {
    set id | id in s.jobs && s.jobs[id].path == p && s.jobs[id].kind.Prompt?
  }

  function OnFlush(s: State, p: Path, outcome: Outcome): State {
    var batch := Buffer(s, p);
    if batch == {} then s
    else if p in s.poisoned then Settle(s, batch, false)
    else
      match outcome
      case Deferred => s
      case Written(found, lost) =>
        if p !in s.torn then Settle(s, batch, true).(files := s.files[p := Lines(s, p) + batch])
        else Settle(s, batch, true).(files := s.files[p := Lines(s, p) - lost + (found * batch)], torn := s.torn - {p})
      case Stuck(left, lost, repaired, midLine) =>
        Settle(s, batch, false).(
          files := s.files[p := Lines(s, p) - (if p in s.torn then lost else {}) + (left * batch)],
          torn := if !repaired && midLine then s.torn + {p} else s.torn - {p},
          poisoned := if repaired then s.poisoned else s.poisoned + {p})
  }

  function Next(s: State, step: Step): State {
    match step
    case Enqueue(id, p, kind) =>
      if id in s.jobs then s
      else s.(jobs := s.jobs[id := Job(p, kind, Sending)],
              counts := if kind.Prompt? then Take(s.counts, p) else s.counts)
    case TrySend(id, closed) =>
      if id !in s.jobs || !s.jobs[id].stage.Sending? then s
      else Move(s, id, if closed || |InQueueNow(s)| >= QUEUE_CAP then Leaving(false) else InQueue)
    case Receive(id, stands) =>
      if id !in s.jobs || !s.jobs[id].stage.InQueue? then s
      else Move(s, id, if s.jobs[id].path in s.poisoned then Leaving(false)
                       else if s.jobs[id].kind.Header? && stands then Leaving(true)
                       else InBuffer)
    case Flush(p, outcome) => OnFlush(s, p, outcome)
    case Evict(p) => if Buffer(s, p) == {} then s.(poisoned := s.poisoned - {p}) else s
    case DropGuard(id) =>
      if id !in s.jobs || !s.jobs[id].stage.Leaving? then s
      else Move(s, id, Gone(s.jobs[id].stage.acked)).(
        counts := if s.jobs[id].kind.Prompt? then Release(s.counts, s.jobs[id].path) else s.counts)
    case FirstRead(g, p) =>
      if g in s.gates then s
      else s.(gates := s.gates[g := Reading(p, p in s.counts, Recorded(s, p))])
    case SecondRead(g, glimpse) =>
      if g !in s.gates || !s.gates[g].Reading? then s
      else
        var gate := s.gates[g];
        var history := gate.sawPending || Entries(s, gate.path) != {} || glimpse;
        s.(gates := s.gates[g := Answered(gate.path, history, gate.owed)])
  }

  function Run(s: State, steps: seq<Step>): State
    decreases |steps|
  {
    if steps == [] then s else Run(Next(s, steps[0]), steps[1..])
  }

  // ---- the counts, whatever the disk does ----

  /** The path's prompts that still hold a guard. */
  function Held(s: State, p: Path): set<nat> {
    set id | id in s.jobs && s.jobs[id].path == p && s.jobs[id].kind.Prompt? && !s.jobs[id].stage.Gone?
  }

  ghost predicate CountsAreExact(s: State) {
    forall p :: (p in s.counts <==> Held(s, p) != {}) && (p in s.counts ==> s.counts[p] == |Held(s, p)|)
  }

  lemma OneMoreHeld(s: State, s': State, p: Path, id: nat)
    requires CountsAreExact(s) && s'.counts == Take(s.counts, p)
    requires Held(s', p) == Held(s, p) + {id} && id !in Held(s, p)
    requires forall q :: q != p ==> Held(s', q) == Held(s, q)
    ensures CountsAreExact(s')
  {
    assert |Held(s', p)| == |Held(s, p)| + 1;
  }

  lemma OneLessHeld(s: State, s': State, p: Path, id: nat)
    requires CountsAreExact(s) && s'.counts == Release(s.counts, p)
    requires Held(s, p) == Held(s', p) + {id} && id !in Held(s', p)
    requires forall q :: q != p ==> Held(s', q) == Held(s, q)
    ensures CountsAreExact(s')
  {
    assert id in Held(s, p);
    assert |Held(s, p)| == |Held(s', p)| + 1;
  }

  lemma SameHeld(s: State, s': State)
    requires CountsAreExact(s) && s'.counts == s.counts
    requires forall q :: Held(s', q) == Held(s, q)
    ensures CountsAreExact(s')
  {
  }

  lemma HeldAfterEnqueue(s: State, s': State, id: nat, p: Path, kind: Kind)
    requires id !in s.jobs && s'.jobs == s.jobs[id := Job(p, kind, Sending)]
    ensures forall q :: Held(s', q) == if q == p && kind.Prompt? then Held(s, q) + {id} else Held(s, q)
    ensures forall q :: id !in Held(s, q)
  {
    forall q ensures Held(s', q) == if q == p && kind.Prompt? then Held(s, q) + {id} else Held(s, q) {
      assert forall i :: i != id ==> (i in Held(s', q) <==> i in Held(s, q));
    }
  }

  lemma EnqueueKeeps(s: State, id: nat, p: Path, kind: Kind)
    requires CountsAreExact(s) && id !in s.jobs
    ensures CountsAreExact(Next(s, Enqueue(id, p, kind)))
  {
    var s' := Next(s, Enqueue(id, p, kind));
    HeldAfterEnqueue(s, s', id, p, kind);
    if kind.Prompt? { OneMoreHeld(s, s', p, id); } else { SameHeld(s, s'); }
  }

  lemma HeldAfterDrop(s: State, s': State, id: nat)
    requires id in s.jobs && s.jobs[id].stage.Leaving?
    requires s'.jobs == s.jobs[id := s.jobs[id].(stage := Gone(s.jobs[id].stage.acked))]
    ensures forall q :: Held(s', q) == Held(s, q) - if q == s.jobs[id].path && s.jobs[id].kind.Prompt? then {id} else {}
    ensures s.jobs[id].kind.Prompt? ==> id in Held(s, s.jobs[id].path)
  {
    forall q
      ensures Held(s', q) == Held(s, q) - if q == s.jobs[id].path && s.jobs[id].kind.Prompt? then {id} else {}
    {
      assert forall i :: i != id ==> (i in Held(s', q) <==> i in Held(s, q));
    }
  }

  lemma DropKeeps(s: State, id: nat)
    requires CountsAreExact(s) && id in s.jobs && s.jobs[id].stage.Leaving?
    ensures CountsAreExact(Next(s, DropGuard(id)))
  {
    var s' := Next(s, DropGuard(id));
    var p, prompt := s.jobs[id].path, s.jobs[id].kind.Prompt?;
    HeldAfterDrop(s, s', id);
    if prompt {
      assert Held(s, p) == Held(s', p) + {id};
      OneLessHeld(s, s', p, id);
    } else {
      SameHeld(s, s');
    }
  }

  /** A job that changes its stage with its guard still held. */
  lemma MoveKeeps(s: State, id: nat, stage: Stage)
    requires CountsAreExact(s) && id in s.jobs && !s.jobs[id].stage.Gone? && !stage.Gone?
    ensures CountsAreExact(Move(s, id, stage))
  {
    var s' := Move(s, id, stage);
    forall p ensures Held(s', p) == Held(s, p) {
    }
    SameHeld(s, s');
  }

  lemma SettleKeeps(s: State, p: Path, acked: bool)
    requires CountsAreExact(s)
    ensures CountsAreExact(Settle(s, Buffer(s, p), acked))
  {
    var s' := Settle(s, Buffer(s, p), acked);
    forall q ensures Held(s', q) == Held(s, q) {
    }
    SameHeld(s, s');
  }

  /** A flush moves nothing, or settles the whole batch one way. */
  lemma FlushJobs(s: State, p: Path, outcome: Outcome)
    ensures var s' := OnFlush(s, p, outcome);
      && s'.counts == s.counts && s'.gates == s.gates
      && (s'.jobs == s.jobs || s'.jobs == Settle(s, Buffer(s, p), p !in s.poisoned && outcome.Written?).jobs)
  {
  }

  lemma FlushKeeps(s: State, p: Path, outcome: Outcome)
    requires CountsAreExact(s)
    ensures CountsAreExact(OnFlush(s, p, outcome))
  {
    var acked, s' := p !in s.poisoned && outcome.Written?, OnFlush(s, p, outcome);
    SettleKeeps(s, p, acked);
    FlushJobs(s, p, outcome);
    if s'.jobs == s.jobs { SameJobs(s, s'); } else { SameJobs(Settle(s, Buffer(s, p), acked), s'); }
  }

  lemma NextKeepsCounts(s: State, step: Step)
    requires CountsAreExact(s)
    ensures CountsAreExact(Next(s, step))
  {
    match step
    case Enqueue(id, p, kind) => if id !in s.jobs { EnqueueKeeps(s, id, p, kind); }
    case DropGuard(id) => if id in s.jobs && s.jobs[id].stage.Leaving? { DropKeeps(s, id); }
    case TrySend(id, closed) =>
      if id in s.jobs && s.jobs[id].stage.Sending? {
        MoveKeeps(s, id, Next(s, step).jobs[id].stage);
      }
    case Receive(id, stands) =>
      if id in s.jobs && s.jobs[id].stage.InQueue? { MoveKeeps(s, id, Next(s, step).jobs[id].stage); }
    case Flush(p, outcome) => FlushKeeps(s, p, outcome);
    case Evict(_) => SameJobs(s, Next(s, step));
    case FirstRead(_, _) => SameJobs(s, Next(s, step));
    case SecondRead(_, _) => SameJobs(s, Next(s, step));
  }

  lemma SameJobs(s: State, s': State)
    requires CountsAreExact(s) && s'.jobs == s.jobs && s'.counts == s.counts
    ensures CountsAreExact(s')
  {
    forall p ensures Held(s', p) == Held(s, p) {
    }
    SameHeld(s, s');
  }

  /** Jobs keep who they are, and `Gone` is for good. */
  ghost predicate JobsKept(s: State, s': State) {
    && (forall id :: id in s.jobs ==>
          id in s'.jobs && s'.jobs[id].path == s.jobs[id].path && s'.jobs[id].kind == s.jobs[id].kind)
    && (forall id :: id in s.jobs && s.jobs[id].stage.Gone? ==> s'.jobs[id] == s.jobs[id])
  }

  lemma FlushKeepsJobs(s: State, p: Path, outcome: Outcome)
    ensures JobsKept(s, OnFlush(s, p, outcome))
  {
    FlushJobs(s, p, outcome);
  }

  lemma JobsKeep(s: State, step: Step)
    ensures JobsKept(s, Next(s, step))
  {
    if step.Flush? {
      FlushKeepsJobs(s, step.path, step.outcome);
    } else {
      assert forall id :: id in s.jobs && s.jobs[id].stage.Gone? ==> Next(s, step).jobs[id] == s.jobs[id];
    }
  }

  // ---- a gate never misses a prompt on its way ----

  /** What a gate that saw no pending prompt may rely on, on any disk. */
  ghost predicate GateWaited(s: State, g: Gate) {
    forall id :: id in g.owed ==>
      && id in s.jobs && s.jobs[id].path == g.path && s.jobs[id].kind.Prompt?
      && ((if g.Reading? then !g.sawPending else !g.history) ==> s.jobs[id].stage.Gone?)
  }

  ghost predicate Waited(s: State) {
    CountsAreExact(s) && forall g :: g in s.gates ==> GateWaited(s, s.gates[g])
  }

  lemma NewGateWaited(s: State, p: Path)
    requires CountsAreExact(s)
    ensures GateWaited(s, Reading(p, p in s.counts, Recorded(s, p)))
  {
    if p !in s.counts {
      forall id | id in Recorded(s, p) ensures s.jobs[id].stage.Gone? {
        assert id !in Held(s, p);
      }
    }
  }

  lemma OldGateWaited(s: State, step: Step, g: nat)
    requires g in s.gates && GateWaited(s, s.gates[g])
    ensures g in Next(s, step).gates && GateWaited(Next(s, step), Next(s, step).gates[g])
  {
    JobsKeep(s, step);
    if step.Flush? { FlushJobs(s, step.path, step.outcome); }
  }

  lemma NextKeepsWaited(s: State, step: Step)
    requires Waited(s)
    ensures Waited(Next(s, step))
  {
    var s' := Next(s, step);
    NextKeepsCounts(s, step);
    forall g | g in s'.gates ensures GateWaited(s', s'.gates[g]) {
      if g in s.gates {
        OldGateWaited(s, step, g);
      } else {
        if step.Flush? { FlushJobs(s, step.path, step.outcome); }
        NewGateWaited(s, step.path);
        assert s'.jobs == s.jobs;
      }
    }
  }

  lemma {:induction false} RunKeepsWaited(s: State, steps: seq<Step>)
    requires Waited(s)
    ensures Waited(Run(s, steps))
    decreases |steps|
  {
    if steps != [] {
      NextKeepsWaited(s, steps[0]);
      RunKeepsWaited(Next(s, steps[0]), steps[1..]);
    }
  }

  /** After any run the count of a path is the number of its prompts on their way, and a path with
      none is not in the map at all: nothing leaks, whichever way a record leaves. */
  lemma PendingCountIsExact(steps: seq<Step>, p: Path)
    ensures var s := Run(INIT, steps);
      && (p in s.counts <==> Held(s, p) != {})
      && (p in s.counts ==> s.counts[p] == |Held(s, p)|)
  {
    RunKeepsWaited(INIT, steps);
  }

  // ---- and a prompt that was acked is in the file ----

  /** Every acked entry is read back, a torn file's writer has given it up, and a "no" means that
      every prompt owed was discarded. */
  ghost predicate AckedIsRead(s: State) {
    forall id :: id in s.jobs && !s.jobs[id].kind.Header? && Acked(s.jobs[id].stage) ==> id in Lines(s, s.jobs[id].path)
  }

  predicate Acked(stage: Stage) { (stage.Leaving? || stage.Gone?) && stage.acked }

  ghost predicate NoIsTrue(s: State) {
    forall g, id :: g in s.gates && s.gates[g].Answered? && !s.gates[g].history && id in s.gates[g].owed
      ==> id in s.jobs && s.jobs[id].stage == Gone(false)
  }

  ghost predicate Inv(s: State) { Waited(s) && s.torn <= s.poisoned && AckedIsRead(s) && NoIsTrue(s) }

  /** No writer is forgotten while its file is torn. */
  predicate EvictsWhole(s: State, steps: seq<Step>)
    decreases |steps|
  {
    if steps == [] then true
    else (steps[0].Evict? ==> steps[0].path !in s.torn) && EvictsWhole(Next(s, steps[0]), steps[1..])
  }

  lemma FlushKeepsRead(s: State, p: Path, outcome: Outcome)
    requires s.torn <= s.poisoned && AckedIsRead(s)
    ensures var s' := OnFlush(s, p, outcome);
      s'.torn <= s'.poisoned && AckedIsRead(s') && forall q :: Lines(s, q) <= Lines(s', q)
  {
    var s' := OnFlush(s, p, outcome);
    FlushJobs(s, p, outcome);
    assert forall q :: Lines(s, q) <= Lines(s', q);
    assert p !in s.poisoned && outcome.Written? ==> Buffer(s, p) <= Lines(s', p);
  }

  lemma NextKeepsRead(s: State, step: Step)
    requires s.torn <= s.poisoned && AckedIsRead(s)
    requires step.Evict? ==> step.path !in s.torn
    ensures Next(s, step).torn <= Next(s, step).poisoned && AckedIsRead(Next(s, step))
  {
    if step.Flush? { FlushKeepsRead(s, step.path, step.outcome); }
  }

  /** A gate that reads the file and finds nothing. */
  lemma NewNoIsTrue(s: State, g: nat)
    requires Inv(s) && g in s.gates && s.gates[g].Reading?
    requires !s.gates[g].sawPending && Entries(s, s.gates[g].path) == {}
    ensures forall id :: id in s.gates[g].owed ==> id in s.jobs && s.jobs[id].stage == Gone(false)
  {
    var gate := s.gates[g];
    assert GateWaited(s, gate);
    forall id | id in gate.owed ensures id in s.jobs && s.jobs[id].stage == Gone(false) {
      assert id !in Entries(s, gate.path);
    }
  }

  lemma NextKeepsNo(s: State, step: Step)
    requires Inv(s)
    ensures NoIsTrue(Next(s, step))
  {
    JobsKeep(s, step);
    if step.Flush? { FlushJobs(s, step.path, step.outcome); }
    if step.SecondRead? && step.gate in s.gates && s.gates[step.gate].Reading? {
      var gate := s.gates[step.gate];
      if !gate.sawPending && Entries(s, gate.path) == {} {
        NewNoIsTrue(s, step.gate);
      }
    }
  }

  lemma {:induction false} RunKeeps(s: State, steps: seq<Step>)
    requires Inv(s) && EvictsWhole(s, steps)
    ensures Inv(Run(s, steps))
    decreases |steps|
  {
    if steps != [] {
      NextKeepsWaited(s, steps[0]);
      NextKeepsRead(s, steps[0]);
      NextKeepsNo(s, steps[0]);
      RunKeeps(Next(s, steps[0]), steps[1..]);
    }
  }

  /** No interleaving yields a false "no". On any disk and through any evictions, a gate answers "no
      history" only when every prompt recorded for its path before its first read has left the writer;
      and while no writer is forgotten over a torn file, only when each was discarded, so that its
      caller was not told that it landed. */
  lemma NoFalseNo(steps: seq<Step>)
    ensures var s := Run(INIT, steps);
      forall g, id :: g in s.gates && s.gates[g].Answered? && !s.gates[g].history && id in s.gates[g].owed ==>
        && id in s.jobs && s.jobs[id].stage.Gone?
        && (EvictsWhole(INIT, steps) ==> !s.jobs[id].stage.acked)
  {
    RunKeepsWaited(INIT, steps);
    var s := Run(INIT, steps);
    if EvictsWhole(INIT, steps) { RunKeeps(INIT, steps); }
    forall g, id | g in s.gates && s.gates[g].Answered? && !s.gates[g].history && id in s.gates[g].owed
      ensures id in s.jobs && s.jobs[id].stage.Gone? && (EvictsWhole(INIT, steps) ==> !s.jobs[id].stage.acked)
    {
      assert GateWaited(s, s.gates[g]);
    }
  }

  lemma {:induction false} GateWaits(s: State, steps: seq<Step>, g: nat)
    requires g in s.gates
    requires forall i :: 0 <= i < |steps| && steps[i].SecondRead? ==> steps[i].gate != g
    ensures g in Run(s, steps).gates && Run(s, steps).gates[g] == s.gates[g]
    decreases |steps|
  {
    if steps != [] {
      GateWaits(Next(s, steps[0]), steps[1..], g);
    }
  }

  /** The two reads with anything between them: a prompt recorded before the first and on its way at
      the second makes the gate answer "history", and so does one acked by then, while no writer is
      forgotten over a torn file. */
  lemma GateSeesEveryLivePrompt(before: seq<Step>, between: seq<Step>, g: nat, p: Path, id: nat, glimpse: bool)
    requires g !in Run(INIT, before).gates && id in Recorded(Run(INIT, before), p)
    requires forall i :: 0 <= i < |between| && between[i].SecondRead? ==> between[i].gate != g
    ensures var first := Next(Run(INIT, before), FirstRead(g, p));
            var mid := Run(first, between);
      && id in mid.jobs && g in Next(mid, SecondRead(g, glimpse)).gates
      && (!mid.jobs[id].stage.Gone? ==> Next(mid, SecondRead(g, glimpse)).gates[g].history)
      && (mid.jobs[id].stage == Gone(true) && EvictsWhole(INIT, before) && EvictsWhole(first, between) ==>
            Next(mid, SecondRead(g, glimpse)).gates[g].history)
  {
    var first := Next(Run(INIT, before), FirstRead(g, p));
    RunKeepsWaited(INIT, before);
    GateAnswers(Run(INIT, before), between, g, p, id, glimpse);
    if EvictsWhole(INIT, before) && EvictsWhole(first, between) {
      RunKeeps(INIT, before);
      GateFinds(Run(INIT, before), between, g, p, glimpse);
    }
  }

  lemma GateAnswers(s: State, between: seq<Step>, g: nat, p: Path, id: nat, glimpse: bool)
    requires Waited(s) && g !in s.gates && id in Recorded(s, p)
    requires forall i :: 0 <= i < |between| && between[i].SecondRead? ==> between[i].gate != g
    ensures var mid := Run(Next(s, FirstRead(g, p)), between);
            var done := Next(mid, SecondRead(g, glimpse));
      && id in mid.jobs && g in done.gates && done.gates[g].Answered? && id in done.gates[g].owed
      && done.jobs == mid.jobs && (!mid.jobs[id].stage.Gone? ==> done.gates[g].history)
  {
    var first := Next(s, FirstRead(g, p));
    NextKeepsWaited(s, FirstRead(g, p));
    RunKeepsWaited(first, between);
    GateWaits(first, between, g);
    assert GateWaited(Run(first, between), Run(first, between).gates[g]);
  }

  lemma GateFinds(s: State, between: seq<Step>, g: nat, p: Path, glimpse: bool)
    requires Inv(s) && EvictsWhole(Next(s, FirstRead(g, p)), between)
    ensures NoIsTrue(Next(Run(Next(s, FirstRead(g, p)), between), SecondRead(g, glimpse)))
  {
    var first := Next(s, FirstRead(g, p));
    NextKeepsWaited(s, FirstRead(g, p));
    NextKeepsRead(s, FirstRead(g, p));
    NextKeepsNo(s, FirstRead(g, p));
    RunKeeps(first, between);
    NextKeepsNo(Run(first, between), SecondRead(g, glimpse));
  }

  // ---- why the file must be whole ----

  lemma {:induction false} RunConcat(s: State, a: seq<Step>, b: seq<Step>)
    ensures Run(s, a + b) == Run(Run(s, a), b)
    decreases |a|
  {
    if a == [] {
      assert a + b == b;
    } else {
      assert (a + b)[1..] == a[1..] + b;
      RunConcat(Next(s, a[0]), a[1..], b);
    }
  }

  /** A prompt is recorded, reaches its writer and is flushed, and its guard is dropped. */
  function OnePrompt(id: nat, p: Path, outcome: Outcome): seq<Step> {
    [Enqueue(id, p, Prompt), TrySend(id, false), Receive(id, false)] + [Flush(p, outcome), DropGuard(id)]
  }

  lemma RunOne(s: State, step: Step, rest: seq<Step>)
    ensures Run(s, [step] + rest) == Run(Next(s, step), rest)
  {
    assert ([step] + rest)[1..] == rest;
  }

  lemma RunTwo(s: State, a: Step, b: Step)
    ensures Run(s, [a, b]) == Next(Next(s, a), b)
  {
    RunOne(s, a, [b]);
    RunOne(Next(s, a), b, []);
    assert [a] + [b] == [a, b] && [b] + [] == [b];
  }

  lemma RunThree(s: State, a: Step, b: Step, c: Step)
    ensures Run(s, [a, b, c]) == Next(Next(Next(s, a), b), c)
  {
    RunOne(s, a, [b, c]);
    RunTwo(Next(s, a), b, c);
    assert [a] + [b, c] == [a, b, c];
  }

  /** It reaches the buffer of a writer that holds nothing else. */
  lemma OnePromptIsBuffered(s: State, id: nat, p: Path)
    requires id !in s.jobs && InQueueNow(s) == {} && Buffer(s, p) == {} && p !in s.counts && p !in s.poisoned
    ensures var s' := s.(jobs := s.jobs[id := Job(p, Prompt, InBuffer)], counts := s.counts[p := 1]);
      Run(s, [Enqueue(id, p, Prompt), TrySend(id, false), Receive(id, false)]) == s' && Buffer(s', p) == {id}
  {
    RunThree(s, Enqueue(id, p, Prompt), TrySend(id, false), Receive(id, false));
    var s1 := Next(s, Enqueue(id, p, Prompt));
    assert s1 == s.(jobs := s.jobs[id := Job(p, Prompt, Sending)], counts := s.counts[p := 1]);
    assert InQueueNow(s1) == {};
    var s2 := Next(s1, TrySend(id, false));
    assert s2 == s1.(jobs := s.jobs[id := Job(p, Prompt, InQueue)]);
  }

  lemma OnePromptLeaves(s: State, id: nat, p: Path, outcome: Outcome)
    requires id in s.jobs && s.jobs[id] == Job(p, Prompt, InBuffer) && Buffer(s, p) == {id}
    requires p in s.counts && s.counts[p] == 1 && p !in s.poisoned && !outcome.Deferred?
    ensures Run(s, [Flush(p, outcome), DropGuard(id)]) ==
      OnFlush(s, p, outcome).(jobs := s.jobs[id := Job(p, Prompt, Gone(outcome.Written?))], counts := s.counts - {p})
  {
    RunTwo(s, Flush(p, outcome), DropGuard(id));
    var s1 := OnFlush(s, p, outcome);
    FlushJobs(s, p, outcome);
    assert s1.jobs == s.jobs[id := Job(p, Prompt, Leaving(outcome.Written?))];
  }

  lemma OnePromptGoes(s: State, id: nat, p: Path, outcome: Outcome)
    requires id !in s.jobs && InQueueNow(s) == {} && Buffer(s, p) == {} && p !in s.counts && p !in s.poisoned
    requires !outcome.Deferred?
    ensures var held := s.(jobs := s.jobs[id := Job(p, Prompt, InBuffer)], counts := s.counts[p := 1]);
      && Buffer(held, p) == {id}
      && Run(s, OnePrompt(id, p, outcome)) ==
         OnFlush(held, p, outcome).(jobs := s.jobs[id := Job(p, Prompt, Gone(outcome.Written?))], counts := s.counts)
  {
    var held := s.(jobs := s.jobs[id := Job(p, Prompt, InBuffer)], counts := s.counts[p := 1]);
    RunConcat(s, [Enqueue(id, p, Prompt), TrySend(id, false), Receive(id, false)], [Flush(p, outcome), DropGuard(id)]);
    OnePromptIsBuffered(s, id, p);
    OnePromptLeaves(held, id, p, outcome);
    SameAgain(s.counts, p, 1);
    SetTwice(s.jobs, id, Job(p, Prompt, InBuffer), Job(p, Prompt, Gone(outcome.Written?)));
  }

  lemma SameAgain(m: map<Path, nat>, p: Path, n: nat)
    requires p !in m
    ensures m[p := n] - {p} == m
  {
  }

  lemma SetTwice(m: map<nat, Job>, id: nat, a: Job, b: Job)
    ensures m[id := a][id := b] == m[id := b]
  {
  }

  /** A forgotten writer over a torn file makes the gate lie: the first prompt is torn and discarded,
      the second is acked and cannot be read back, and a gate that asks after both says that there is
      no history to keep a replay from doubling. */
  lemma EvictionOverATornFileYieldsAFalseNo(p: Path)
    ensures var steps := OnePrompt(0, p, Stuck({}, {}, false, true)) + [Evict(p)] + OnePrompt(1, p, Written({}, {}))
                         + [FirstRead(0, p), SecondRead(0, false)];
            var s := Run(INIT, steps);
      && 0 in s.gates && s.gates[0] == Answered(p, false, {0, 1})
      && 1 in s.jobs && s.jobs[1] == Job(p, Prompt, Gone(true))
  {
    var a, b := OnePrompt(0, p, Stuck({}, {}, false, true)), OnePrompt(1, p, Written({}, {}));
    var asked := [FirstRead(0, p), SecondRead(0, false)];
    RunConcat(INIT, a + [Evict(p)] + b, asked);
    RunConcat(INIT, a + [Evict(p)], b);
    RunConcat(INIT, a, [Evict(p)]);
    FirstPromptIsTorn(p);
    SecondPromptIsLost(p);
    assert [Evict(p)][1..] == [];
    LastReads(Run(Forgotten(p), b), p);
  }

  function Forgotten(p: Path): State {
    INIT.(jobs := map[0 := Job(p, Prompt, Gone(false))], files := map[p := {}], torn := {p})
  }

  lemma FirstPromptIsTorn(p: Path)
    ensures Next(Run(INIT, OnePrompt(0, p, Stuck({}, {}, false, true))), Evict(p)) == Forgotten(p)
  {
    var outcome := Stuck({}, {}, false, true);
    OnePromptGoes(INIT, 0, p, outcome);
    var held := INIT.(jobs := INIT.jobs[0 := Job(p, Prompt, InBuffer)], counts := INIT.counts[p := 1]);
    assert Lines(held, p) - {} + (outcome.left * Buffer(held, p)) == {};
    assert OnFlush(held, p, outcome).files == map[p := {}];
    assert Run(INIT, OnePrompt(0, p, outcome)) == Forgotten(p).(poisoned := {p});
    assert Buffer(Forgotten(p).(poisoned := {p}), p) == {};
  }

  lemma SecondPromptIsLost(p: Path)
    ensures Run(Forgotten(p), OnePrompt(1, p, Written({}, {}))) ==
      Forgotten(p).(jobs := map[0 := Job(p, Prompt, Gone(false)), 1 := Job(p, Prompt, Gone(true))], torn := {})
  {
    var s := Forgotten(p);
    OnePromptGoes(s, 1, p, Written({}, {}));
    var held := s.(jobs := s.jobs[1 := Job(p, Prompt, InBuffer)], counts := s.counts[p := 1]);
    var found: set<nat> := {};
    assert Lines(held, p) - {} + (found * Buffer(held, p)) == {};
    assert OnFlush(held, p, Written({}, {})).files == map[p := {}];
  }

  lemma LastReads(s: State, p: Path)
    requires 0 !in s.gates && p !in s.counts && Lines(s, p) == {}
    ensures var s' := Run(s, [FirstRead(0, p), SecondRead(0, false)]);
      s'.jobs == s.jobs && 0 in s'.gates && s'.gates[0] == Answered(p, false, Recorded(s, p))
  {
    var asked := [FirstRead(0, p), SecondRead(0, false)];
    assert asked[1..] == [SecondRead(0, false)] && asked[1..][1..] == [];
    var read := Next(s, FirstRead(0, p));
    assert Entries(read, p) == {};
    assert Run(read, asked[1..]) == Next(read, SecondRead(0, false));
  }

  // ---- and no false "yes" ----

  /** Something other than a header was recorded for the path. */
  ghost predicate SomeEntry(s: State, p: Path) {
    exists id :: id in s.jobs && s.jobs[id].path == p && !s.jobs[id].kind.Header?
  }

  ghost predicate YesIsTrue(s: State) {
    forall g :: g in s.gates && (if s.gates[g].Reading? then s.gates[g].sawPending else s.gates[g].history)
      ==> SomeEntry(s, s.gates[g].path)
  }

  /** A landed record is one of the path's own. */
  ghost predicate FilesHoldJobs(s: State) {
    forall p, id :: id in Lines(s, p) ==> id in s.jobs && s.jobs[id].path == p
  }

  lemma SomeEntryStays(s: State, step: Step, p: Path)
    requires SomeEntry(s, p)
    ensures SomeEntry(Next(s, step), p)
  {
    JobsKeep(s, step);
    var id :| id in s.jobs && s.jobs[id].path == p && !s.jobs[id].kind.Header?;
    assert id in Next(s, step).jobs;
  }

  lemma NextKeepsFiles(s: State, step: Step)
    requires FilesHoldJobs(s)
    ensures FilesHoldJobs(Next(s, step))
  {
    JobsKeep(s, step);
    var s' := Next(s, step);
    forall p, id | id in Lines(s', p) ensures id in s'.jobs && s'.jobs[id].path == p {
      if id !in Lines(s, p) {
        assert step.Flush? && id in Buffer(s, p);
      }
    }
  }

  lemma NextKeepsYes(s: State, step: Step)
    requires CountsAreExact(s) && FilesHoldJobs(s) && YesIsTrue(s)
    requires step.SecondRead? ==> !step.glimpse
    ensures YesIsTrue(Next(s, step))
  {
    var s' := Next(s, step);
    forall g | g in s'.gates && (if s'.gates[g].Reading? then s'.gates[g].sawPending else s'.gates[g].history)
      ensures SomeEntry(s', s'.gates[g].path)
    {
      var p := s'.gates[g].path;
      if g !in s.gates {
        var id :| id in Held(s, p);
        assert id in s.jobs && !s.jobs[id].kind.Header?;
      } else if s.gates[g].Reading? && s'.gates[g].Answered? && !s.gates[g].sawPending {
        var id :| id in Entries(s, p);
        assert id in Lines(s, p);
      }
      assert SomeEntry(s, p);
      SomeEntryStays(s, step, p);
    }
  }

  lemma {:induction false} RunKeepsYes(s: State, steps: seq<Step>)
    requires Waited(s) && FilesHoldJobs(s) && YesIsTrue(s)
    requires forall i :: 0 <= i < |steps| && steps[i].SecondRead? ==> !steps[i].glimpse
    ensures YesIsTrue(Run(s, steps))
    decreases |steps|
  {
    if steps != [] {
      NextKeepsWaited(s, steps[0]);
      NextKeepsFiles(s, steps[0]);
      NextKeepsYes(s, steps[0]);
      RunKeepsYes(Next(s, steps[0]), steps[1..]);
    }
  }

  /** A gate that reads the file at rest answers "history" only for a path something other than a
      header was recorded for: opening a session and closing it again keeps its replay. */
  lemma NoFalseYes(steps: seq<Step>)
    requires forall i :: 0 <= i < |steps| && steps[i].SecondRead? ==> !steps[i].glimpse
    ensures var s := Run(INIT, steps);
      forall g :: g in s.gates && s.gates[g].Answered? && s.gates[g].history ==> SomeEntry(s, s.gates[g].path)
  {
    RunKeepsYes(INIT, steps);
  }
}
