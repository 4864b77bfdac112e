/**
 The upgrade supervisor and the worker it restarts: a staged upgrade is on trial, and a worker
 that dies inside the trial is rolled back. One step of either process at a time, in any order.
 */
module UpgradeTrial {
  import opened Options

  /** An installed copy of the program: every swap puts a new one in place. */
  type Bundle = nat

  const EXIT_RESTART: int := 86

  // ---- the supervisor's decision on a worker's exit ----

  datatype Exit = Code(code: int) | Killed(signal: int)

  datatype Decision = Relaunch | RollBack | Propagate(status: int)

  /** What the supervisor itself exits with after such an end of its worker. */
  function StatusOf(exit: Exit): int { if exit.Code? then exit.code else 128 + exit.signal }

  /** A restart request relaunches; any other exit inside a trial rolls back; the rest propagates. */
  function Decide(onTrial: bool, elapsed: nat, trial: nat, exit: Exit): Decision {
    if exit == Code(EXIT_RESTART) then Relaunch
    else if onTrial && elapsed < trial then RollBack
    else Propagate(StatusOf(exit))
  }

  // ---- both processes ----

  datatype Update = NotUpdating | Fetching | Swapped

  /** `clearAt`: when the worker will remove the marker it found at startup. `reverted`: the
      operator has rolled back through this worker, which then does nothing but exit. */
  datatype Worker =
    | Absent
    | Running(clearAt: Option<nat>, update: Update, reverted: bool)
    | Dead(exit: Exit, reverted: bool)

  const SPAWN_FAILED := 1

  /** `status` is what the supervisor exits with: at once, or if there is no rolling back. */
  datatype Phase =
    | Peeking | Stamping | Spawning | Watching | RollingBack(status: int) | Respawning | Stopped(status: int)

  /** `launched` is the bundle the last launch tried to start, and `replaced` what each swap took the
      place of. `newlyStaged` says that an upgrade was staged since the last rollback. The counters
      are for the accounting theorems. */
  datatype State = State(now: nat, live: Bundle, backup: Option<Bundle>, marker: bool,
                         worker: Worker, phase: Phase, onTrial: bool, spawnedAt: nat,
                         launched: Bundle, replaced: map<Bundle, Bundle>, nextBundle: nat, newlyStaged: bool,
                         launches: nat, restarts: nat, rollbacks: nat, stagings: nat)

  datatype Step =
    | Wait(d: nat)
      // the supervisor
    | Peek
    | Stamp
    | Spawn(ok: bool)
    | Handle
    | Restore(ok: bool)
    | Respawn(ok: bool)
      // the worker
    | Boot
    | ClearMarker
    | BeginUpdate
    | Swap
    | Mark
    | Revert
    | WorkerExit(exit: Exit)

  predicate InWindow(s: State, trial: nat) { s.now - s.spawnedAt < trial }

  const NEW_WORKER := Running(None, NotUpdating, false)

  function Next(s: State, trial: nat, step: Step): State {
    match step
    case Wait(d) => s.(now := s.now + d)
    case Peek => if s.phase.Peeking? then s.(onTrial := s.marker, phase := Stamping) else s
    case Stamp => if s.phase.Stamping? then s.(spawnedAt := s.now, phase := Spawning) else s
    case Spawn(ok) =>
      if !s.phase.Spawning? then s
      else if ok then s.(worker := NEW_WORKER, launched := s.live, phase := Watching, launches := s.launches + 1)
      else s.(launched := s.live, phase := if s.onTrial then RollingBack(SPAWN_FAILED) else Stopped(SPAWN_FAILED))
    case Handle =>
      if !s.phase.Watching? || !s.worker.Dead? || s.now < s.spawnedAt then s
      else
        (match Decide(s.onTrial, s.now - s.spawnedAt, trial, s.worker.exit)
         case Relaunch => s.(worker := Absent, phase := Peeking, restarts := s.restarts + 1)
         case RollBack => s.(worker := Absent, phase := RollingBack(StatusOf(s.worker.exit)))
         case Propagate(status) => s.(worker := Absent, phase := Stopped(status)))
    case Restore(ok) =>
      if !s.phase.RollingBack? then s
      else if !ok || s.backup.None? then s.(phase := Stopped(s.phase.status))
      else s.(live := s.backup.value, backup := None, marker := false, onTrial := false, newlyStaged := false,
              phase := Respawning, rollbacks := s.rollbacks + 1)
    case Respawn(ok) =>
      if !s.phase.Respawning? then s
      else if ok then s.(worker := NEW_WORKER, launched := s.live, spawnedAt := s.now, phase := Watching,
                         launches := s.launches + 1)
      else s.(launched := s.live, phase := Stopped(SPAWN_FAILED))
    case Boot =>
      if s.worker.Running? && s.worker.clearAt.None? && s.worker.update.NotUpdating? && s.marker
      then s.(worker := s.worker.(clearAt := Some(s.now + trial))) else s
    case ClearMarker =>
      if s.worker.Running? && s.worker.clearAt.Some? && s.now >= s.worker.clearAt.value
      then s.(worker := s.worker.(clearAt := None), marker := false) else s
    case BeginUpdate =>
      if s.worker.Running? && s.worker.update.NotUpdating? && !s.worker.reverted && !s.marker
      then s.(worker := s.worker.(update := Fetching)) else s
    case Swap =>
      if s.worker.Running? && s.worker.update.Fetching?
      then s.(worker := s.worker.(update := Swapped), backup := Some(s.live), live := s.nextBundle,
              replaced := s.replaced[s.nextBundle := s.live], nextBundle := s.nextBundle + 1) else s
    case Mark =>
      if s.worker.Running? && s.worker.update.Swapped?
      then s.(worker := s.worker.(update := NotUpdating), marker := true, newlyStaged := true,
              stagings := s.stagings + 1) else s
    case Revert =>
      if s.worker.Running? && s.worker.update.NotUpdating? && !s.worker.reverted && s.backup.Some?
      then s.(worker := Running(s.worker.clearAt, NotUpdating, true), live := s.backup.value, backup := None,
              marker := false) else s
    case WorkerExit(exit) =>
      if s.worker.Running? then s.(worker := Dead(exit, s.worker.reverted)) else s
  }

  function Run(s: State, trial: nat, steps: seq<Step>): State
    decreases |steps|
  {
    if steps == [] then s else Run(Next(s, trial, steps[0]), trial, steps[1..])
  }

  /** A supervisor starting over whatever an earlier lifetime left on disk. */
  ghost predicate Initial(s: State) {
    && s.phase.Peeking? && s.worker.Absent?
    && KnownBundles(s)
    && (s.marker ==> BackupIsReplaced(s))
    && s.newlyStaged == s.marker
    && s.launches == s.restarts == s.rollbacks == s.stagings == 0
  }

  ghost predicate KnownBundles(s: State) {
    && s.live < s.nextBundle && (s.backup.Some? ==> s.backup.value < s.nextBundle)
    && (forall b :: b in s.replaced ==> s.replaced[b] < b < s.nextBundle)
  }

  /** The backup is what the live bundle's own swap replaced. */
  predicate BackupIsReplaced(s: State) { s.live in s.replaced && s.backup == Some(s.replaced[s.live]) }

  // ---- the supervisor's steps, on the state it shares with the worker ----

  /** The disk, the clock and the worker. */
  class Machine {
    var now: nat
    var live: Bundle
    var backup: Option<Bundle>
    var marker: bool
    var worker: Worker
    ghost var replaced: map<Bundle, Bundle>
    ghost var nextBundle: nat
    ghost var stagings: nat

    constructor (now: nat, live: Bundle, backup: Option<Bundle>, marker: bool, ghost replaced: map<Bundle, Bundle>,
                 ghost nextBundle: nat)
      ensures this.now == now && this.live == live && this.backup == backup && this.marker == marker
      ensures this.replaced == replaced && this.nextBundle == nextBundle && worker == Absent && stagings == 0
    {
      this.now, this.live, this.backup, this.marker, worker := now, live, backup, marker, Absent;
      this.replaced, this.nextBundle, stagings := replaced, nextBundle, 0;
    }
  }

  /** `phase` is where the supervisor's control is. */
  class Supervisor {
    const trial: nat
    const machine: Machine
    var onTrial: bool
    var spawnedAt: nat
    ghost var phase: Phase
    ghost var launched: Bundle
    ghost var newlyStaged: bool
    ghost var launches: nat
    ghost var restarts: nat
    ghost var rollbacks: nat

    ghost function Abs(): State
      reads this, machine
    {
      State(machine.now, machine.live, machine.backup, machine.marker, machine.worker, phase, onTrial, spawnedAt,
            launched, machine.replaced, machine.nextBundle, newlyStaged, launches, restarts, rollbacks,
            machine.stagings)
    }

    constructor (trial: nat, machine: Machine)
      requires machine.worker == Absent && machine.stagings == 0 && machine.live < machine.nextBundle
      requires machine.backup.Some? ==> machine.backup.value < machine.nextBundle
      requires forall b :: b in machine.replaced ==> machine.replaced[b] < b < machine.nextBundle
      requires machine.marker ==>
        machine.live in machine.replaced && machine.backup == Some(machine.replaced[machine.live])
      ensures this.trial == trial && this.machine == machine
      ensures Initial(Abs())
    {
      this.trial, this.machine := trial, machine;
      onTrial, spawnedAt, phase, launched := false, 0, Peeking, machine.live;
      newlyStaged, launches, restarts, rollbacks := machine.marker, 0, 0, 0;
    }

    /** Peeks at the marker, then stamps, both before the spawn. */
    method PrepareLaunch()
      requires phase.Peeking?
      modifies this
      ensures Abs() == Next(Next(old(Abs()), trial, Peek), trial, Stamp)
    {
      onTrial := machine.marker;
      spawnedAt := machine.now;
      phase := Spawning;
    }

    /** `ok`: the executable could be started. */
    method SpawnTrial(ok: bool)
      requires phase.Spawning?
      modifies this, machine
      ensures Abs() == Next(old(Abs()), trial, Spawn(ok))
    {
      launched := machine.live;
      if ok {
        machine.worker := NEW_WORKER;
        phase, launches := Watching, launches + 1;
      } else if onTrial {
        phase := RollingBack(SPAWN_FAILED);
      } else {
        phase := Stopped(SPAWN_FAILED);
      }
    }

    method WorkerExited() returns (d: Decision)
      requires phase.Watching? && machine.worker.Dead? && spawnedAt <= machine.now
      modifies this, machine
      ensures d == Decide(old(onTrial), old(machine.now - spawnedAt), trial, old(machine.worker.exit))
      ensures Abs() == Next(old(Abs()), trial, Handle)
    {
      var exit, elapsed := machine.worker.exit, machine.now - spawnedAt;
      machine.worker := Absent;
      if exit.Code? && exit.code == EXIT_RESTART {
        phase, restarts := Peeking, restarts + 1;
        return Relaunch;
      }
      var status;
      match exit {
        case Code(code) => status := code;
        case Killed(signal) => status := 128 + signal;
      }
      if onTrial && elapsed < trial {
        phase := RollingBack(status);
        return RollBack;
      }
      phase := Stopped(status);
      return Propagate(status);
    }

    /** `ok`: the files could be put back. */
    method AttemptRollback(ok: bool) returns (done: bool)
      requires phase.RollingBack?
      modifies this, machine
      ensures done <==> ok && old(machine.backup).Some?
      ensures Abs() == Next(old(Abs()), trial, Restore(ok))
    {
      done := ok && machine.backup.Some?;
      if done {
        machine.live, machine.backup, machine.marker := machine.backup.value, None, false;
        onTrial, newlyStaged, phase, rollbacks := false, false, Respawning, rollbacks + 1;
      } else {
        phase := Stopped(phase.status);
      }
    }

    method SpawnRestored(ok: bool)
      requires phase.Respawning?
      modifies this, machine
      ensures Abs() == Next(old(Abs()), trial, Respawn(ok))
    {
      launched := machine.live;
      if ok {
        machine.worker, spawnedAt := NEW_WORKER, machine.now;
        phase, launches := Watching, launches + 1;
      } else {
        phase := Stopped(SPAWN_FAILED);
      }
    }
  }

  // ---- what every run keeps ----

  predicate Reverted(w: Worker) { !w.Absent? && w.reverted }

  predicate TrialIsOn(s: State, trial: nat) { s.phase.Watching? && s.onTrial && InWindow(s, trial) }

  ghost predicate Inv(s: State, trial: nat) {
    && KnownBundles(s)
    && (s.marker ==> BackupIsReplaced(s) && s.newlyStaged)
    && (s.worker.Running? ==>
          && s.phase.Watching?
          && (s.worker.clearAt.Some? && s.onTrial ==> s.worker.clearAt.value >= s.spawnedAt + trial)
          && (!s.worker.update.NotUpdating? ==>
                !s.marker && !s.worker.reverted && !(s.onTrial && InWindow(s, trial)))
          && (s.worker.update.Swapped? ==> BackupIsReplaced(s)))
    && (s.worker.Dead? ==> s.phase.Watching?)
    && (Reverted(s.worker) ==> s.backup.None? && !s.marker)
      // While a rollback may still be decided, the marker stands for the bundle that was launched,
      // or the operator was faster.
    && (TrialIsOn(s, trial) ==> (s.marker && s.live == s.launched) || Reverted(s.worker))
    && (s.phase in {Stamping, Spawning} && s.onTrial ==> s.marker)
    && (s.phase.RollingBack? ==> (s.marker && s.live == s.launched) || s.backup.None?)
    && (s.phase in {Spawning, Watching} ==> s.spawnedAt <= s.now)
    && (s.phase.Respawning? ==> !s.onTrial)
  }

  lemma InitialInv(s: State, trial: nat)
    requires Initial(s)
    ensures Inv(s, trial)
  {
  }

  predicate OfTheWorker(step: Step) {
    step.Boot? || step.ClearMarker? || step.BeginUpdate? || step.Swap? || step.Mark? || step.Revert? || step.WorkerExit?
  }

  lemma WorkerKeeps(s: State, trial: nat, step: Step)
    requires Inv(s, trial) && OfTheWorker(step)
    ensures Inv(Next(s, trial, step), trial)
  {
  }

  predicate Launches(step: Step) { step.Peek? || step.Stamp? || step.Spawn? || step.Respawn? }

  lemma LaunchKeeps(s: State, trial: nat, step: Step)
    requires Inv(s, trial) && Launches(step)
    ensures Inv(Next(s, trial, step), trial)
  {
  }

  lemma ExitKeeps(s: State, trial: nat, step: Step)
    requires Inv(s, trial) && (step.Wait? || step.Handle? || step.Restore?)
    ensures Inv(Next(s, trial, step), trial)
  {
  }

  lemma NextKeeps(s: State, trial: nat, step: Step)
    requires Inv(s, trial)
    ensures Inv(Next(s, trial, step), trial)
  {
    if OfTheWorker(step) {
      WorkerKeeps(s, trial, step);
    } else if Launches(step) {
      LaunchKeeps(s, trial, step);
    } else {
      ExitKeeps(s, trial, step);
    }
  }

  lemma {:induction false} RunKeeps(s: State, trial: nat, steps: seq<Step>)
    requires Inv(s, trial)
    ensures Inv(Run(s, trial, steps), trial)
    decreases |steps|
  {
    if steps != [] {
      NextKeeps(s, trial, steps[0]);
      RunKeeps(Next(s, trial, steps[0]), trial, steps[1..]);
    }
  }

  /** After any run, a rollback the supervisor carries out takes away the very bundle it had launched
      and puts back the one that bundle's swap replaced, with an upgrade staged since the last
      rollback. */
  lemma RollbackUndoesTheTrial(s0: State, trial: nat, steps: seq<Step>)
    requires Initial(s0)
    ensures var s := Run(s0, trial, steps);
            var s' := Next(s, trial, Restore(true));
      s'.rollbacks > s.rollbacks ==>
        && s.live == s.launched && s.launched in s.replaced
        && s'.live == s.replaced[s.launched] && s'.live != s.launched
        && s.newlyStaged && !s'.newlyStaged && !s'.marker
  {
    InitialInv(s0, trial);
    RunKeeps(s0, trial, steps);
  }

  /** The marker outlives the window: while a worker on trial may still be rolled back, nothing
      clears the marker, and no update begins or swaps. */
  lemma MarkerOutlivesTheWindow(s0: State, trial: nat, steps: seq<Step>)
    requires Initial(s0)
    ensures var s := Run(s0, trial, steps);
      TrialIsOn(s, trial) ==>
        && (Next(s, trial, ClearMarker) == s || Reverted(s.worker))
        && Next(s, trial, BeginUpdate) == s && Next(s, trial, Swap) == s
        && (!Reverted(s.worker) ==> s.marker)
  {
    InitialInv(s0, trial);
    RunKeeps(s0, trial, steps);
  }

  /** A rollback ends the trial: until the marker is looked at for another launch, whatever the
      restored worker does, nothing is rolled back again. */
  lemma {:induction false} RestoredWorkerIsNotOnTrial(s: State, trial: nat, steps: seq<Step>)
    requires !s.onTrial && !s.phase.RollingBack?
    requires Peek !in steps
    ensures var s' := Run(s, trial, steps); !s'.onTrial && s'.rollbacks == s.rollbacks
    decreases |steps|
  {
    if steps != [] {
      RestoredWorkerIsNotOnTrial(Next(s, trial, steps[0]), trial, steps[1..]);
    }
  }

  // ---- a version that dies is undone ----

  lemma {:induction false} RunConcat(s: State, trial: nat, a: seq<Step>, b: seq<Step>)
    ensures Run(s, trial, a + b) == Run(Run(s, trial, a), trial, b)
    decreases |a|
  {
    if a == [] {
      assert a + b == b;
    } else {
      assert (a + b)[1..] == a[1..] + b;
      RunConcat(Next(s, trial, a[0]), trial, a[1..], b);
    }
  }

  lemma RunOfThree(s: State, trial: nat, a: Step, b: Step, c: Step)
    ensures Run(s, trial, [a, b, c]) == Next(Next(Next(s, trial, a), trial, b), trial, c)
  {
    assert [a, b, c][1..] == [b, c] && [b, c][1..] == [c] && [c][1..] == [];
    assert Run(Next(Next(s, trial, a), trial, b), trial, [c]) == Next(Next(Next(s, trial, a), trial, b), trial, c);
  }

  /** The old version is back at work. */
  predicate BackAtWork(s: State, previous: Bundle) {
    && s.live == previous && s.launched == previous && s.worker == Running(None, NotUpdating, false)
    && s.phase.Watching? && !s.onTrial && !s.marker && s.backup.None?
  }

  /** After any run, a worker that ends inside its trial by any code but a restart request's, or by any
      signal, is rolled back: the version its swap replaced goes to work. If that fails, or the operator
      had taken it back already, the supervisor ends as the worker did. */
  lemma DeathOnTrialIsUndone(s0: State, trial: nat, steps: seq<Step>, ok: bool)
    requires Initial(s0)
    requires var s := Run(s0, trial, steps);
      && s.phase.Watching? && s.onTrial && s.now < s.spawnedAt + trial
      && s.worker.Dead? && s.worker.exit != Code(EXIT_RESTART)
    ensures var s := Run(s0, trial, steps);
            var s1 := Next(s, trial, Handle);
            var s2 := Next(s1, trial, Restore(ok));
      && s1.phase.RollingBack? && s1.worker.Absent?
      && (ok && !s.worker.reverted ==>
            && s.launched in s.replaced && s.live == s.launched
            && BackAtWork(Next(s2, trial, Respawn(true)), s.replaced[s.launched]))
      && (!ok || s.worker.reverted ==>
            s2.phase == Stopped(if s.worker.exit.Code? then s.worker.exit.code else 128 + s.worker.exit.signal))
  {
    InitialInv(s0, trial);
    RunKeeps(s0, trial, steps);
  }

  /** Off trial, or once the window is over, the supervisor ends as its worker did; a restart request is
      always met. */
  lemma OtherEndsPassOn(s: State, trial: nat)
    requires s.phase.Watching? && s.worker.Dead? && s.spawnedAt <= s.now
    ensures var s' := Next(s, trial, Handle);
      && s'.worker.Absent?
      && (s.worker.exit == Code(86) ==> s'.phase.Peeking?)
      && (s.worker.exit != Code(86) && (!s.onTrial || s.now >= s.spawnedAt + trial) ==>
            s'.phase == Stopped(if s.worker.exit.Code? then s.worker.exit.code else 128 + s.worker.exit.signal))
  {
  }

  /** A launch looks at the marker and starts its clock before the worker runs. */
  lemma LaunchIsOnTrialIfMarked(s: State, trial: nat)
    requires s.phase.Peeking?
    ensures Run(s, trial, [Peek, Stamp, Spawn(true)]) ==
      s.(onTrial := s.marker, spawnedAt := s.now, phase := Watching, worker := Running(None, NotUpdating, false),
         launched := s.live, launches := s.launches + 1)
  {
    RunOfThree(s, trial, Peek, Stamp, Spawn(true));
    assert Next(s, trial, Peek) == s.(onTrial := s.marker, phase := Stamping);
  }

  predicate Meanwhile(steps: seq<Step>) { forall i :: 0 <= i < |steps| ==> steps[i].Wait? || OfTheWorker(steps[i]) }

  function Waited(steps: seq<Step>): nat {
    if steps == [] then 0 else (if steps[0].Wait? then steps[0].d else 0) + Waited(steps[1..])
  }

  /** The launch is the same, and what swaps replaced is still known. */
  ghost predicate SameLaunch(s: State, s': State) {
    && s'.phase.Watching? && s'.onTrial == s.onTrial && s'.spawnedAt == s.spawnedAt && s'.launched == s.launched
    && forall b :: b in s.replaced ==> b in s'.replaced && s'.replaced[b] == s.replaced[b]
  }

  lemma StepOfTheSameLaunch(s: State, trial: nat, step: Step)
    requires KnownBundles(s) && s.phase.Watching? && (step.Wait? || OfTheWorker(step))
    ensures SameLaunch(s, Next(s, trial, step))
    ensures Next(s, trial, step).now == s.now + if step.Wait? then step.d else 0
  {
  }

  lemma SameLaunchOn(s: State, s1: State, s2: State)
    requires SameLaunch(s, s1) && SameLaunch(s1, s2)
    ensures SameLaunch(s, s2)
  {
  }

  /** Whatever the worker does, the supervisor watches it under the trial it launched it with. */
  lemma {:induction false} TrialLasts(s: State, trial: nat, steps: seq<Step>)
    requires Inv(s, trial) && s.phase.Watching? && Meanwhile(steps)
    ensures SameLaunch(s, Run(s, trial, steps)) && Run(s, trial, steps).now == s.now + Waited(steps)
    decreases |steps|
  {
    if steps != [] {
      var next := Next(s, trial, steps[0]);
      NextKeeps(s, trial, steps[0]);
      StepOfTheSameLaunch(s, trial, steps[0]);
      TrialLasts(next, trial, steps[1..]);
      SameLaunchOn(s, next, Run(next, trial, steps[1..]));
    }
  }

  const UNDO := [Handle, Restore(true), Respawn(true)]

  /** From the marker on: however it came about, a version launched over a staged upgrade's marker that
      is dead before the trial is over gives way to the one it replaced. Its worker may do anything but
      ask for a restart or be taken back by the operator. */
  lemma UpgradeThatDiesIsUndone(s0: State, trial: nat, before: seq<Step>, life: seq<Step>)
    requires Initial(s0) && Meanwhile(life) && Waited(life) < trial
    requires var s := Run(s0, trial, before);
             var end := Run(s, trial, [Peek, Stamp, Spawn(true)] + life);
      && s.phase.Peeking? && s.marker
      && end.worker.Dead? && !end.worker.reverted && end.worker.exit != Code(EXIT_RESTART)
    ensures var s := Run(s0, trial, before);
      && s.live in s.replaced
      && BackAtWork(Run(s, trial, [Peek, Stamp, Spawn(true)] + life + UNDO), s.replaced[s.live])
  {
    var s := Run(s0, trial, before);
    InitialInv(s0, trial);
    RunKeeps(s0, trial, before);
    RunConcat(s, trial, [Peek, Stamp, Spawn(true)], life);
    LaunchIsOnTrialIfMarked(s, trial);
    var launched := Run(s, trial, [Peek, Stamp, Spawn(true)]);
    RunKeeps(s, trial, [Peek, Stamp, Spawn(true)]);
    TrialLasts(launched, trial, life);
    RunKeeps(launched, trial, life);
    var end := Run(launched, trial, life);
    RunConcat(s, trial, [Peek, Stamp, Spawn(true)] + life, UNDO);
    RunOfThree(end, trial, Handle, Restore(true), Respawn(true));
    assert TrialIsOn(end, trial);
  }

  /** And one that cannot even be started. */
  lemma UpgradeThatCannotStartIsUndone(s0: State, trial: nat, before: seq<Step>)
    requires Initial(s0)
    requires var s := Run(s0, trial, before); s.phase.Peeking? && s.marker
    ensures var s := Run(s0, trial, before);
      && s.live in s.replaced
      && BackAtWork(Run(s, trial, [Peek, Stamp, Spawn(false)] + [Restore(true), Respawn(true)]), s.replaced[s.live])
  {
    var s := Run(s0, trial, before);
    InitialInv(s0, trial);
    RunKeeps(s0, trial, before);
    RunConcat(s, trial, [Peek, Stamp, Spawn(false)], [Restore(true), Respawn(true)]);
    RunOfThree(s, trial, Peek, Stamp, Spawn(false));
    var failed := Run(s, trial, [Peek, Stamp, Spawn(false)]);
    assert [Restore(true), Respawn(true)][1..] == [Respawn(true)] && [Respawn(true)][1..] == [];
    assert Run(Next(failed, trial, Restore(true)), trial, [Respawn(true)]) ==
           Next(Next(failed, trial, Restore(true)), trial, Respawn(true));
  }

  /** A version that lives through its trial is kept: its worker takes the marker away and may update
      again, and when it dies then, the supervisor passes that on. */
  lemma SurvivedTrialIsOver(s: State, trial: nat, d: nat)
    requires s.phase.Peeking? && s.marker && d >= trial
    ensures var s' := Run(s, trial, [Peek, Stamp, Spawn(true)] + [Boot, Wait(d), ClearMarker]);
      && s'.worker == Running(None, NotUpdating, false) && !s'.marker && s'.live == s.live
      && Next(s', trial, BeginUpdate).worker == Running(None, Fetching, false)
      && forall code :: code != EXIT_RESTART ==>
           Next(Next(s', trial, WorkerExit(Code(code))), trial, Handle).phase == Stopped(code)
  {
    LaunchIsOnTrialIfMarked(s, trial);
    var launched := Run(s, trial, [Peek, Stamp, Spawn(true)]);
    RunConcat(s, trial, [Peek, Stamp, Spawn(true)], [Boot, Wait(d), ClearMarker]);
    RunOfThree(launched, trial, Boot, Wait(d), ClearMarker);
    assert Next(launched, trial, Boot) == launched.(worker := Running(Some(s.now + trial), NotUpdating, false));
  }

  /** A worker that updates and asks for a restart: its successor is launched from the new bundle, on
      trial, with the old one kept for it. */
  lemma UpdateIsTriedOut(s: State, trial: nat)
    requires s.phase.Watching? && s.worker == Running(None, NotUpdating, false) && !s.marker && s.spawnedAt <= s.now
    ensures var s' := Run(s, trial, [BeginUpdate, Swap, Mark] + [WorkerExit(Code(EXIT_RESTART)), Handle]
                                    + [Peek, Stamp, Spawn(true)]);
      && s'.phase.Watching? && s'.onTrial && s'.spawnedAt == s.now && s'.marker
      && s'.launched == s'.live == s.nextBundle && s'.replaced == s.replaced[s'.live := s.live]
      && s'.backup == Some(s.live)
  {
    var update, restart := [BeginUpdate, Swap, Mark], [WorkerExit(Code(EXIT_RESTART)), Handle];
    RunConcat(s, trial, update + restart, [Peek, Stamp, Spawn(true)]);
    RunConcat(s, trial, update, restart);
    RunOfThree(s, trial, BeginUpdate, Swap, Mark);
    var updated := Run(s, trial, update);
    assert Next(s, trial, BeginUpdate).worker == Running(None, Fetching, false);
    assert updated.worker == Running(None, NotUpdating, false);
    assert restart[1..] == [Handle] && [Handle][1..] == [];
    var dead := Next(updated, trial, restart[0]);
    assert Run(dead, trial, [Handle]) == Next(dead, trial, Handle);
    LaunchIsOnTrialIfMarked(Run(updated, trial, restart), trial);
  }

  // ---- why the stamp comes first ----

  /** The same supervisor, but that it stamps after the spawn. */
  function LateNext(s: State, trial: nat, step: Step): State {
    match step
    case Peek => if s.phase.Peeking? then s.(onTrial := s.marker, phase := Spawning) else s
    case Spawn(ok) =>
      var spawned := Next(s, trial, step);
      if s.phase.Spawning? && ok then spawned.(phase := Stamping) else spawned
    case Stamp => if s.phase.Stamping? then s.(spawnedAt := s.now, phase := Watching) else s
    case _ => Next(s, trial, step)
  }

  function LateRun(s: State, trial: nat, steps: seq<Step>): State
    decreases |steps|
  {
    if steps == [] then s else LateRun(LateNext(s, trial, steps[0]), trial, steps[1..])
  }

  lemma {:induction false} LateConcat(s: State, trial: nat, a: seq<Step>, b: seq<Step>)
    ensures LateRun(s, trial, a + b) == LateRun(LateRun(s, trial, a), trial, b)
    decreases |a|
  {
    if a == [] {
      assert a + b == b;
    } else {
      assert (a + b)[1..] == a[1..] + b;
      LateConcat(LateNext(s, trial, a[0]), trial, a[1..], b);
    }
  }

  lemma LateThree(s: State, trial: nat, a: Step, b: Step, c: Step)
    ensures LateRun(s, trial, [a, b, c]) == LateNext(LateNext(LateNext(s, trial, a), trial, b), trial, c)
  {
    assert [a, b, c][1..] == [b, c] && [b, c][1..] == [c] && [c][1..] == [];
    assert LateRun(LateNext(LateNext(s, trial, a), trial, b), trial, [c])
        == LateNext(LateNext(LateNext(s, trial, a), trial, b), trial, c);
  }

  /** A worker starts while the supervisor is held up for one tick before it stamps; it survives its
      own trial, clears the marker, stages a second update and dies. */
  function HeldUp(trial: nat): seq<Step>
    requires trial > 0
  {
    [Peek, Spawn(true), Boot] + [Wait(1), Stamp, Wait(trial - 1)] + [ClearMarker, BeginUpdate, Swap]
    + [Mark, WorkerExit(Code(1)), Handle]
  }

  /** The states its four legs end in. */
  function Started(s: State, trial: nat): State {
    s.(worker := Running(Some(s.now + trial), NotUpdating, false), phase := Stamping, onTrial := true,
       launched := s.live, launches := s.launches + 1)
  }

  function Stamped(s: State, trial: nat): State { s.(now := s.now + trial, phase := Watching, spawnedAt := s.now + 1) }

  function Updated(s: State): State {
    s.(worker := Running(None, Swapped, false), marker := false, backup := Some(s.live), live := s.nextBundle,
       replaced := s.replaced[s.nextBundle := s.live], nextBundle := s.nextBundle + 1)
  }

  function Died(s: State): State {
    s.(worker := Absent, marker := true, newlyStaged := true, stagings := s.stagings + 1, phase := RollingBack(1))
  }

  lemma StartsUnstamped(s: State, trial: nat)
    requires s.phase.Peeking? && s.marker
    ensures LateRun(s, trial, [Peek, Spawn(true), Boot]) == Started(s, trial)
  {
    LateThree(s, trial, Peek, Spawn(true), Boot);
    assert LateNext(s, trial, Peek) == s.(onTrial := true, phase := Spawning);
  }

  lemma IsStampedLate(s: State, trial: nat)
    requires trial > 0 && s.phase.Stamping?
    ensures LateRun(s, trial, [Wait(1), Stamp, Wait(trial - 1)]) == Stamped(s, trial)
  {
    LateThree(s, trial, Wait(1), Stamp, Wait(trial - 1));
    assert LateNext(s, trial, Wait(1)) == s.(now := s.now + 1);
  }

  lemma UpdatesAgain(s: State, trial: nat)
    requires s.worker == Running(Some(s.now), NotUpdating, false)
    ensures LateRun(s, trial, [ClearMarker, BeginUpdate, Swap]) == Updated(s)
  {
    LateThree(s, trial, ClearMarker, BeginUpdate, Swap);
    assert LateNext(s, trial, ClearMarker) == s.(worker := NEW_WORKER, marker := false);
  }

  lemma DiesInsideTheWindow(s: State, trial: nat)
    requires s.worker == Running(None, Swapped, false) && s.phase.Watching?
    requires s.onTrial && s.spawnedAt <= s.now < s.spawnedAt + trial
    ensures LateRun(s, trial, [Mark, WorkerExit(Code(1)), Handle]) == Died(s)
  {
    LateThree(s, trial, Mark, WorkerExit(Code(1)), Handle);
    var marked := s.(worker := NEW_WORKER, marker := true, newlyStaged := true, stagings := s.stagings + 1);
    assert LateNext(s, trial, Mark) == marked;
    assert LateNext(marked, trial, WorkerExit(Code(1))) == marked.(worker := Dead(Code(1), false));
  }

  lemma LateFour(s: State, trial: nat, a: seq<Step>, b: seq<Step>, c: seq<Step>, d: seq<Step>)
    ensures LateRun(s, trial, a + b + c + d) ==
            LateRun(LateRun(LateRun(LateRun(s, trial, a), trial, b), trial, c), trial, d)
  {
    LateConcat(s, trial, a + b + c, d);
    LateConcat(s, trial, a + b, c);
    LateConcat(s, trial, a, b);
  }

  lemma FourLegs(s0: State, s1: State, s2: State, s3: State, s4: State, trial: nat,
                 a: seq<Step>, b: seq<Step>, c: seq<Step>, d: seq<Step>)
    requires LateRun(s0, trial, a) == s1 && LateRun(s1, trial, b) == s2
    requires LateRun(s2, trial, c) == s3 && LateRun(s3, trial, d) == s4
    ensures LateRun(s0, trial, a + b + c + d) == s4
  {
    LateFour(s0, trial, a, b, c, d);
  }

  lemma HeldUpEnds(s: State, trial: nat)
    requires s.phase.Peeking? && s.marker && trial > 0
    ensures LateRun(s, trial, HeldUp(trial)) == Died(Updated(Stamped(Started(s, trial), trial)))
  {
    var s1 := Started(s, trial);
    var s2 := Stamped(s1, trial);
    var s3 := Updated(s2);
    StartsUnstamped(s, trial);
    IsStampedLate(s1, trial);
    UpdatesAgain(s2, trial);
    DiesInsideTheWindow(s3, trial);
    FourLegs(s, s1, s2, s3, Died(s3), trial, [Peek, Spawn(true), Boot], [Wait(1), Stamp, Wait(trial - 1)],
             [ClearMarker, BeginUpdate, Swap], [Mark, WorkerExit(Code(1)), Handle]);
  }

  /** Stamping late would not do, whatever the length of the trial: from any state with a staged
      upgrade, a worker that survives its own trial can clear the marker and stage a second update
      inside the supervisor's window. The rollback then takes away the second bundle, not the one
      that was launched, and leaves the first upgrade live. */
  lemma LateStampRestoresTheTrialBundle(s0: State, trial: nat)
    requires Initial(s0) && s0.marker && trial > 0
    ensures var s := LateRun(s0, trial, HeldUp(trial));
            var s' := LateNext(s, trial, Restore(true));
      && s'.rollbacks > s.rollbacks && s.marker
      && s.live != s.launched && s'.live == s.launched && s.launched in s.replaced && s'.live != s.replaced[s.launched]
  {
    HeldUpEnds(s0, trial);
  }

  // ---- accounting ----

  predicate Accounts(s: State, staged0: nat) {
    && s.launches + (if s.phase in {Peeking, Stamping, Spawning, Respawning} then 1 else 0)
       <= 1 + s.restarts + s.rollbacks
    && s.rollbacks + (if s.newlyStaged then 1 else 0) <= s.stagings + staged0
  }

  lemma NextAccounts(s: State, trial: nat, step: Step, staged0: nat)
    requires Inv(s, trial) && Accounts(s, staged0)
    ensures Accounts(Next(s, trial, step), staged0)
  {
  }

  /** Every launch after the first is paid for by a requested restart or a rollback, and between
      two rollbacks an upgrade was staged. */
  lemma {:induction false} LaunchesAndRollbacksArePaidFor(s0: State, s: State, trial: nat, steps: seq<Step>)
    requires Inv(s, trial) && Accounts(s, if s0.marker then 1 else 0)
    ensures Accounts(Run(s, trial, steps), if s0.marker then 1 else 0)
    decreases |steps|
  {
    if steps != [] {
      NextKeeps(s, trial, steps[0]);
      NextAccounts(s, trial, steps[0], if s0.marker then 1 else 0);
      LaunchesAndRollbacksArePaidFor(s0, Next(s, trial, steps[0]), trial, steps[1..]);
    }
  }

  lemma NoRelaunchLoop(s0: State, trial: nat, steps: seq<Step>)
    requires Initial(s0)
    ensures var s := Run(s0, trial, steps);
      && s.launches <= 1 + s.restarts + s.rollbacks
      && s.rollbacks <= s.stagings + if s0.marker then 1 else 0
  {
    InitialInv(s0, trial);
    LaunchesAndRollbacksArePaidFor(s0, s0, trial, steps);
  }
}
