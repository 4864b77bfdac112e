/** The pet's event loop: one ambient state, announced on change, and a restartable timer that ends
    the failed state. Timers are tasks of their own; a fired one leaves a message in a queue. */
module PetLoop {
  import opened Options
  import opened PetAggregate

  const PET_FAILED_RECOVERY_MS: nat := 4000
  const CLEAR_QUEUE_CAP: nat := 8

  /** `timers` are the sleeping tasks with their deadlines; `clearTask` is the one the loop holds,
      which may have fired already; `queue` counts clear messages not yet read. */
  datatype State = State(snapshot: Snapshot, last: PetState, handle: PetState, emitted: seq<PetState>,
                         timers: map<nat, nat>, clearTask: Option<nat>, nextTimer: nat, queue: nat, now: nat)

  const INIT := State(EMPTY, Idle, Idle, [Idle], map[], None, 0, 0, 0)

  datatype Step =
    | Received(conn: Conn, payload: Payload)
    | Lagged
    | ReadClear
    | Fire(timer: nat)
    | Wait(ms: nat)

  function Cancel(s: State): State {
    if s.clearTask.None? then s else s.(timers := s.timers - {s.clearTask.value}, clearTask := None)
  }

  /** A new timer for the whole window; the one held so far is aborted. */
  function Schedule(s0: State): State {
    var s := Cancel(s0);
    s.(timers := s.timers[s.nextTimer := s.now + PET_FAILED_RECOVERY_MS],
       clearTask := Some(s.nextTimer), nextTimer := s.nextTimer + 1)
  }

  function Announce(s: State, next: PetState): State {
    if next == s.last then s else s.(last := next, handle := next, emitted := s.emitted + [next])
  }

  predicate TriggersError(p: Payload) { p.Error? || p == StatusChanged(Erring) }

  function Next(s: State, step: Step): State {
    match step
    case Received(conn, payload) =>
      if payload.Other? then s
      else
        var applied := s.(snapshot := Apply(s.snapshot, conn, payload));
        var wasErroring, nowErroring := s.snapshot.erroring != {}, applied.snapshot.erroring != {};
        var timed :=
          if TriggersError(payload) && nowErroring then Schedule(applied)
          else if wasErroring && !nowErroring then Cancel(applied)
          else applied;
        Announce(timed, Compute(timed.snapshot))
    case Lagged =>
      Announce(Cancel(s.(snapshot := Absorb(s.snapshot, Overrun))), Idle)
    case ReadClear =>
      if s.queue == 0 then s
      else
        var cleared := s.(snapshot := Absorb(s.snapshot, ClearErrors), clearTask := None, queue := s.queue - 1);
        Announce(cleared, Compute(cleared.snapshot))
    case Fire(timer) =>
      if timer !in s.timers || s.now < s.timers[timer] then s
      else s.(timers := s.timers - {timer}, queue := if s.queue < CLEAR_QUEUE_CAP then s.queue + 1 else s.queue)
    case Wait(ms) => s.(now := s.now + ms)
  }

  function Run(s: State, steps: seq<Step>): State
    decreases |steps|
  {
    if steps == [] then s else Run(Next(s, steps[0]), steps[1..])
  }

  /** The loop's own variables, with the timer tasks and the queue it shares with them. */
  class Subscriber {
    const aggregate: PetGlobalState
    var lastState: PetState
    var handle: PetState
    var emitted: seq<PetState>
    var timers: map<nat, nat>
    var clearTask: Option<nat>
    var nextTimer: nat
    var queue: nat
    var now: nat

    function Abs(): State
      reads this, aggregate
    { State(aggregate.Abs(), lastState, handle, emitted, timers, clearTask, nextTimer, queue, now) }

    constructor ()
      ensures Abs() == INIT && fresh(aggregate)
    {
      aggregate := new PetGlobalState();
      lastState, handle, emitted := Idle, Idle, [Idle];
      timers, clearTask, nextTimer, queue, now := map[], None, 0, 0, 0;
    }

    method CancelFailedRecovery()
      modifies this
      ensures Abs() == Cancel(old(Abs()))
    {
      if clearTask.Some? {
        timers, clearTask := timers - {clearTask.value}, None;
      }
    }

    method ScheduleFailedRecovery()
      modifies this
      ensures Abs() == Schedule(old(Abs()))
    {
      CancelFailedRecovery();
      timers := timers[nextTimer := now + PET_FAILED_RECOVERY_MS];
      clearTask, nextTimer := Some(nextTimer), nextTimer + 1;
    }

    method Publish(next: PetState)
      modifies this
      ensures Abs() == Announce(old(Abs()), next)
    {
      if next != lastState {
        lastState, handle, emitted := next, next, emitted + [next];
      }
    }

    method OnEvent(conn: Conn, payload: Payload)
      modifies this, aggregate
      ensures Abs() == Next(old(Abs()), Received(conn, payload))
    {
      if payload.Other? { return; }
      var wasErroring := aggregate.erroring != {};
      aggregate.ApplyEvent(conn, payload);
      var nowErroring := aggregate.erroring != {};
      if TriggersError(payload) && nowErroring {
        ScheduleFailedRecovery();
      } else if wasErroring && !nowErroring {
        CancelFailedRecovery();
      }
      Publish(Compute(aggregate.Abs()));
    }

    method OnLag()
      modifies this, aggregate
      ensures Abs() == Next(old(Abs()), Lagged)
    {
      aggregate.ResetAfterOverrun();
      CancelFailedRecovery();
      Publish(Idle);
    }

    method OnClear()
      modifies this, aggregate
      requires queue > 0
      ensures Abs() == Next(old(Abs()), ReadClear)
    {
      queue := queue - 1;
      aggregate.ClearErroring();
      clearTask := None;
      Publish(Compute(aggregate.Abs()));
    }
  }

  // ---- at every loop boundary ----

  /** What the window reads and what was last said are one state, and nothing is said twice. */
  predicate Said(s: State) {
    && s.handle == s.last
    && s.emitted != [] && s.emitted[|s.emitted|-1] == s.last
    && (forall i :: 0 <= i < |s.emitted| - 1 ==> s.emitted[i] != s.emitted[i+1])
  }

  /** The failed state always has an end on its way. */
  predicate Timed(s: State) {
    && (s.snapshot.erroring != {} ==> s.queue > 0 || (s.clearTask.Some? && s.clearTask.value in s.timers))
    && (forall t :: t in s.timers ==> t < s.nextTimer)
    && (s.clearTask.Some? ==> s.clearTask.value < s.nextTimer)
  }

  predicate Inv(s: State) { Said(s) && s.last == Compute(s.snapshot) && Timed(s) }

  lemma AnnounceKeeps(s: State, next: PetState)
    requires Said(s)
    ensures var s' := Announce(s, next);
      Said(s') && s'.last == next && s' == s.(last := next, handle := next, emitted := s'.emitted)
  {
  }

  lemma ReceivedKeeps(s: State, conn: Conn, payload: Payload)
    requires Inv(s) && !payload.Other?
    ensures Inv(Next(s, Received(conn, payload)))
  {
    var applied := s.(snapshot := Apply(s.snapshot, conn, payload));
    var next := Compute(applied.snapshot);
    if TriggersError(payload) && applied.snapshot.erroring != {} {
      AnnounceKeeps(Schedule(applied), next);
    } else {
      if !TriggersError(payload) {
        ErroringGrowsOnlyByErrors(s.snapshot, conn, payload);
      }
      var ended := s.snapshot.erroring != {} && applied.snapshot.erroring == {};
      AnnounceKeeps(if ended then Cancel(applied) else applied, next);
    }
  }

  lemma NextKeeps(s: State, step: Step)
    requires Inv(s)
    ensures Inv(Next(s, step))
  {
    match step
    case Received(conn, payload) =>
      if !payload.Other? {
        ReceivedKeeps(s, conn, payload);
      }
    case Lagged => AnnounceKeeps(Cancel(s.(snapshot := Absorb(s.snapshot, Overrun))), Idle);
    case ReadClear =>
      var cleared := s.(snapshot := Absorb(s.snapshot, ClearErrors));
      if s.queue > 0 {
        AnnounceKeeps(cleared.(clearTask := None, queue := s.queue - 1), Compute(cleared.snapshot));
      }
    case Fire(_) =>
    case Wait(_) =>
  }

  lemma ErroringGrowsOnlyByErrors(s: Snapshot, conn: Conn, payload: Payload)
    requires !TriggersError(payload)
    ensures Apply(s, conn, payload).erroring <= s.erroring
  {
  }

  lemma {:induction false} LoopInvariant(s: State, steps: seq<Step>)
    requires Inv(s)
    ensures Inv(Run(s, steps))
    decreases |steps|
  {
    if steps != [] {
      NextKeeps(s, steps[0]);
      LoopInvariant(Next(s, steps[0]), steps[1..]);
    }
  }

  lemma PetIsNeverStuck(steps: seq<Step>)
    ensures var s := Run(INIT, steps);
      && s.handle == s.last == Compute(s.snapshot)
      && s.emitted != [] && s.emitted[|s.emitted|-1] == s.last
      && (forall i :: 0 <= i < |s.emitted| - 1 ==> s.emitted[i] != s.emitted[i+1])
      && (s.last.Failed? ==> s.queue > 0 || (s.clearTask.Some? && s.clearTask.value in s.timers))
  {
    LoopInvariant(INIT, steps);
  }

  /** From any failed moment, letting the timer run out and reading the queue ends the failed state. */
  lemma FailedEnds(s: State)
    requires Inv(s) && s.last.Failed?
    ensures var t := if s.clearTask.Some? then s.clearTask.value else 0;
            var due := Next(s, Wait(if t in s.timers then s.timers[t] else 0));
            !Next(Next(due, Fire(t)), ReadClear).last.Failed?
  {
  }

  /** A fresh error starts the window anew: the timer held so far is stopped, and one for the whole
      window is held instead. */
  lemma ErrorRestartsTheWindow(s: State, conn: Conn, payload: Payload)
    requires payload == Error || payload == StatusChanged(Erring)
    requires Inv(s) && conn !in s.snapshot.children
    ensures var s' := Next(s, Received(conn, payload));
      && s'.last.Failed? && s'.clearTask.Some? && s'.queue == s.queue
      && s'.clearTask.value !in s.timers
      && s'.timers == (if s.clearTask.Some? then s.timers - {s.clearTask.value} else s.timers)
                      [s'.clearTask.value := s.now + 4000]
  {
    assert conn in Apply(s.snapshot, conn, payload).erroring;
  }

  /** Whatever else ends the failed state stops the timer held for it. */
  lemma EndedFailureStopsItsTimer(s: State, step: Step)
    requires Inv(s) && s.last.Failed? && !Next(s, step).last.Failed? && !step.ReadClear?
    ensures var s' := Next(s, step);
      && s'.clearTask.None? && s'.queue == s.queue
      && s'.timers == if s.clearTask.Some? then s.timers - {s.clearTask.value} else s.timers
  {
  }

  // ---- how long the failed state lasts ----

  /** Nothing from before can end it early. */
  predicate WholeWindowAhead(s: State) {
    s.queue == 0 && forall t :: t in s.timers ==> s.timers[t] >= s.now + PET_FAILED_RECOVERY_MS
  }

  predicate NoClearBefore(s: State, time: nat) {
    s.queue == 0 && forall t :: t in s.timers ==> s.timers[t] >= time
  }

  lemma {:induction false} NoClearUntil(s: State, steps: seq<Step>, time: nat)
    requires NoClearBefore(s, time) && time <= s.now + PET_FAILED_RECOVERY_MS
    requires Run(s, steps).now < time
    ensures Run(s, steps).queue == 0
    decreases |steps|
  {
    if steps != [] {
      ClockRuns(Next(s, steps[0]), steps[1..]);
      NoClearUntil(Next(s, steps[0]), steps[1..], time);
    }
  }

  lemma {:induction false} ClockRuns(s: State, steps: seq<Step>)
    ensures Run(s, steps).now >= s.now
    decreases |steps|
  {
    if steps != [] {
      ClockRuns(Next(s, steps[0]), steps[1..]);
    }
  }

  /** No clear message can be read within the window, whatever else happens, if and only if none is
      queued now and no timer of an earlier error still sleeps. */
  lemma WindowIsWholeIffNothingIsLeftOver(s: State)
    ensures (forall steps :: Run(s, steps).now < s.now + PET_FAILED_RECOVERY_MS ==> Run(s, steps).queue == 0)
            <==> WholeWindowAhead(s)
  {
    var time := s.now + PET_FAILED_RECOVERY_MS;
    if WholeWindowAhead(s) {
      forall steps | Run(s, steps).now < time ensures Run(s, steps).queue == 0 {
        NoClearUntil(s, steps, time);
      }
    } else if s.queue > 0 {
      assert Run(s, []).queue > 0;
    } else {
      var t :| t in s.timers && s.timers[t] < time;
      var due := Next(s, Wait(if s.timers[t] > s.now then s.timers[t] - s.now else 0));
      var steps := [Wait(due.now - s.now), Fire(t)];
      assert steps[1..] == [Fire(t)] && [Fire(t)][1..] == [];
      assert Run(due, [Fire(t)]) == Next(due, Fire(t));
      assert Run(s, steps) == Run(due, [Fire(t)]);
      assert Run(s, steps).queue == 1 && Run(s, steps).now < time;
    }
  }

  /** The condition can fail: an error comes while the last timer's message is still unread. */
  function FreshError(c: Conn): State {
    Next(Next(Next(Next(INIT, Received(c, Error)), Wait(PET_FAILED_RECOVERY_MS)), Fire(0)), Received(c, Error))
  }

  /** It has a timer of its own, but the stale message ends it at once, and the timer is forgotten
      without being stopped. */
  lemma StaleClearEndsAFreshError(c: Conn)
    ensures var failing := FreshError(c);
            var cleared := Next(failing, ReadClear);
      && failing.last.Failed? && failing.clearTask == Some(1)
      && cleared.last.Idle? && cleared.now == failing.now && cleared.queue == 0
      && cleared.clearTask == None && cleared.timers == map[1 := failing.now + PET_FAILED_RECOVERY_MS]
  {
    var first := Next(INIT, Received(c, Error));
    assert c in first.snapshot.erroring;
    var due := Next(Next(first, Wait(PET_FAILED_RECOVERY_MS)), Fire(0));
    assert due.queue == 1 && due.timers == map[];
    assert c in FreshError(c).snapshot.erroring;
  }

  /** So the next error, with no message queued and a timer it holds, is ended early by the forgotten
      one. */
  lemma OrphanedTimerEndsALaterError(c: Conn)
    ensures var later := Next(Next(Next(FreshError(c), ReadClear), Wait(1)), Received(c, Error));
            var early := Next(Next(Next(later, Wait(PET_FAILED_RECOVERY_MS - 1)), Fire(1)), ReadClear);
      && later.last.Failed? && later.queue == 0 && later.clearTask == Some(2)
      && !WholeWindowAhead(later)
      && early.now < later.now + PET_FAILED_RECOVERY_MS && early.last.Idle?
  {
    StaleClearEndsAFreshError(c);
    var cleared := Next(FreshError(c), ReadClear);
    var later := Next(Next(cleared, Wait(1)), Received(c, Error));
    assert c in later.snapshot.erroring;
    assert 1 in later.timers && later.timers[1] == cleared.now + PET_FAILED_RECOVERY_MS;
    var fired := Next(Next(later, Wait(PET_FAILED_RECOVERY_MS - 1)), Fire(1));
    assert fired.queue == 1;
  }
}
