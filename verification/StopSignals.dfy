/**
 Stop signals racing the supervisor. The main loop and the signal handlers take one atomic step
 at a time in any order; a handler first sets the flag and later reads the pid and kills it.
 */
module StopSignals {
  import opened Options

  /** Where the main loop is. `Ready` stands for every place from which a worker may be spawned
      next without another look at the flag: the first launch, the peek after the delay, a
      rollback. */
  datatype At = Ready | Publish | Look | Waiting | Reaped | Judge | Delay | LookAgain | Exited

  datatype Child = Child(pid: nat, alive: bool, signalled: bool)

  /** `handlers` have set the flag and still have to read the pid. `spawnedSince` counts the workers
      spawned after the flag was set. */
  datatype State = State(at: At, workerPid: nat, terminating: bool, child: Option<Child>,
                         handlers: nat, nextPid: nat, spawnedSince: nat)

  const INIT := State(Ready, 0, false, None, 0, 1, 0)

  datatype Step =
      // a signal arrives, and its handler goes on
    | Set
    | ReadAndKill
      // the worker ends by itself or because it was signalled
    | Die
      // the main loop; `failed` is a spawn that fails and is rolled back, or gives up
    | Spawn
    | SpawnFails(rolledBack: bool)
    | Go(restart: bool, rollBack: bool)

  function Signal(s: State, pid: nat): State {
    if s.child.Some? && s.child.value.pid == pid then s.(child := Some(s.child.value.(signalled := true))) else s
  }

  function Next(s: State, step: Step): State {
    match step
    case Set => s.(terminating := true, handlers := s.handlers + 1)
    case ReadAndKill =>
      if s.handlers == 0 then s
      else (if s.workerPid > 0 then Signal(s, s.workerPid) else s).(handlers := s.handlers - 1)
    case Die =>
      if s.child.Some? then s.(child := Some(s.child.value.(alive := false))) else s
    case Spawn =>
      if !s.at.Ready? then s
      else s.(at := Publish, child := Some(Child(s.nextPid, true, false)), nextPid := s.nextPid + 1,
              spawnedSince := s.spawnedSince + if s.terminating then 1 else 0)
    case SpawnFails(rolledBack) =>
      if !s.at.Ready? then s else if rolledBack then s else s.(at := Exited)
    case Go(restart, rollBack) =>
      match s.at
      case Ready => s
      case Publish => if s.child.Some? then s.(at := Look, workerPid := s.child.value.pid) else s
      case Look =>
        if s.terminating && s.child.Some? then Signal(s, s.child.value.pid).(at := Waiting) else s.(at := Waiting)
      case Waiting => if s.child.Some? && !s.child.value.alive then s.(at := Reaped, child := None) else s
      case Reaped => s.(at := Judge, workerPid := 0)
      case Judge =>
        if s.terminating then s.(at := Exited)
        else if restart then s.(at := Delay)
        else if rollBack then s.(at := Ready)
        else s.(at := Exited)
      case Delay => s.(at := LookAgain)
      case LookAgain => s.(at := if s.terminating then Exited else Ready)
      case Exited => s
  }

  function Run(s: State, steps: seq<Step>): State
    decreases |steps|
  {
    if steps == [] then s else Run(Next(s, steps[0]), steps[1..])
  }

  predicate Inv(s: State) {
    && s.nextPid > 0
    && (s.child.Some? ==> 0 < s.child.value.pid < s.nextPid)
    && (s.at in {Publish, Look, Waiting} <==> s.child.Some?)
    && (s.at in {Look, Waiting} ==> s.workerPid == s.child.value.pid)
    && (s.at in {Ready, Publish, Judge, Delay, LookAgain, Exited} ==> s.workerPid == 0)
    && (s.handlers > 0 ==> s.terminating)
      // A waiting supervisor's worker has the signal, or a handler holding its published pid does.
    && (s.terminating && s.at.Waiting? ==> s.child.value.signalled || s.handlers > 0)
    && (!s.terminating ==> s.spawnedSince == 0)
    && s.spawnedSince <= 1
    && (s.spawnedSince == 1 ==> s.at !in {Ready, Delay, LookAgain})
  }

  lemma NextKeeps(s: State, step: Step)
    requires Inv(s)
    ensures Inv(Next(s, step))
  {
  }

  lemma {:induction false} RunKeeps(s: State, steps: seq<Step>)
    requires Inv(s)
    ensures Inv(Run(s, steps))
    decreases |steps|
  {
    if steps != [] {
      NextKeeps(s, steps[0]);
      RunKeeps(Next(s, steps[0]), steps[1..]);
    }
  }

  /** No stop signal is lost: once its handler is through, a supervisor that waits for a worker
      waits for one that has been signalled, wherever the signal fell. */
  lemma NoSignalIsLost(steps: seq<Step>)
    ensures var s := Run(INIT, steps);
      s.terminating && s.at.Waiting? && s.handlers == 0 ==> s.child.Some? && s.child.value.signalled
  {
    RunKeeps(INIT, steps);
  }

  /** At most one worker is spawned after the signal, and there is none to come after it. */
  lemma AtMostOneWorkerAfterTheSignal(steps: seq<Step>)
    ensures var s := Run(INIT, steps);
      && s.spawnedSince <= 1
      && (s.spawnedSince == 1 ==> Next(s, Spawn) == s)
  {
    RunKeeps(INIT, steps);
  }

  /** From the moment a stopped worker is reaped, whatever happens next ends in the exit: no
      restart request and no rollback relaunches anything. */
  lemma {:induction false} NothingIsRelaunched(s: State, steps: seq<Step>)
    requires Inv(s) && s.terminating && s.at in {Reaped, Judge, Exited}
    ensures Run(s, steps).at in {Reaped, Judge, Exited} && Run(s, steps).nextPid == s.nextPid
    decreases |steps|
  {
    if steps != [] {
      NextKeeps(s, steps[0]);
      NothingIsRelaunched(Next(s, steps[0]), steps[1..]);
    }
  }

  /** The supervisor's own steps, with the worker gone, take it to the exit. */
  lemma StoppedSupervisorExits(s: State, restart: bool, rollBack: bool)
    requires Inv(s) && s.terminating && s.at.Waiting? && !s.child.value.alive
    ensures var go := Go(restart, rollBack); Next(Next(Next(s, go), go), go).at.Exited?
  {
  }

  /** Without a signal a restart request is met: three looks later a new worker runs, and the delay is
      gone through with no pid to kill. */
  lemma RestartRelaunches(s: State, rollBack: bool)
    requires Inv(s) && !s.terminating && s.at.Waiting? && !s.child.value.alive
    ensures var go := Go(true, rollBack);
            var delaying := Next(Next(Next(s, go), go), go);
            var ready := Next(Next(delaying, go), go);
      && delaying.at.Delay? && delaying.workerPid == 0
      && ready.at.Ready? && Next(ready, Spawn).child == Some(Child(s.nextPid, true, false))
  {
  }

  /** The pid is forgotten before the delay, so but for the one step between reaping and
      forgetting a handler signals the supervisor's own child or nobody. */
  lemma OnlyTheChildIsSignalled(steps: seq<Step>)
    ensures var s := Run(INIT, steps);
      s.workerPid > 0 && !s.at.Reaped? ==> s.child.Some? && s.workerPid == s.child.value.pid
  {
    RunKeeps(INIT, steps);
  }
}
