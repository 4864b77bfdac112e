/** The page's console, forwarded under a budget: how much goes through, and that no drop is lost. */
module ConsoleBudget {
  import opened Options

  const CONSOLE_BUDGET_PER_SECOND: nat := 200

  /** What reaches the host: a line, with the drops reported on it, or drops alone. */
  datatype Post = Line(at: int, dropped: nat) | Report(dropped: nat)

  /** `outstanding` are the flush timers the engine still holds: a page hide forgets one without
      stopping it. `times` and `windows` remember each posted line and the window it was counted in. */
  datatype State = State(windowStart: int, sent: nat, dropped: nat, flushTimer: Option<nat>,
                         outstanding: set<nat>, nextTimer: nat, posts: seq<Post>, handled: nat,
                         times: seq<int>, windows: seq<int>)

  const INIT := State(0, 0, 0, None, {}, 0, [], 0, [], [])

  datatype Step = Forward(at: int) | TimerFires(timer: nat) | PageHide

  function AfterDrop(s: State): State {
    var d := s.(dropped := s.dropped + 1);
    if s.flushTimer.Some? then d
    else d.(flushTimer := Some(s.nextTimer), outstanding := s.outstanding + {s.nextTimer}, nextTimer := s.nextTimer + 1)
  }

  function AfterFlush(s: State): State {
    if s.dropped == 0 then s.(flushTimer := None)
    else s.(flushTimer := None, dropped := 0, posts := s.posts + [Report(s.dropped)])
  }

  function Next(s0: State, step: Step): State {
    match step
    case Forward(t) =>
      var counted := s0.(handled := s0.handled + 1);
      var s := if t - s0.windowStart >= 1000 then counted.(windowStart := t, sent := 0) else counted;
      if s.sent >= CONSOLE_BUDGET_PER_SECOND then AfterDrop(s)
      else s.(sent := s.sent + 1, dropped := 0, posts := s.posts + [Line(t, s.dropped)],
              times := s.times + [t], windows := s.windows + [s.windowStart])
    case TimerFires(timer) =>
      if timer in s0.outstanding then AfterFlush(s0.(outstanding := s0.outstanding - {timer})) else s0
    case PageHide => AfterFlush(s0)
  }

  function Run(s: State, steps: seq<Step>): State
    decreases |steps|
  {
    if steps == [] then s else Run(Next(s, steps[0]), steps[1..])
  }

  class ConsoleForwarder {
    var consoleWindowStart: int
    var consoleSent: nat
    var consoleDropped: nat
    var consoleFlushTimer: Option<nat>
    var outstanding: set<nat>
    var nextTimer: nat
    var posts: seq<Post>
    ghost var handled: nat
    ghost var times: seq<int>
    ghost var windows: seq<int>

    ghost function Abs(): State
      reads this
    {
      State(consoleWindowStart, consoleSent, consoleDropped, consoleFlushTimer, outstanding, nextTimer, posts,
            handled, times, windows)
    }

    constructor ()
      ensures Abs() == INIT
    {
      consoleWindowStart, consoleSent, consoleDropped, consoleFlushTimer := 0, 0, 0, None;
      outstanding, nextTimer, posts, handled, times, windows := {}, 0, [], 0, [], [];
    }

    method NoteDropped()
      modifies this
      ensures Abs() == AfterDrop(old(Abs()))
    {
      consoleDropped := consoleDropped + 1;
      if consoleFlushTimer.None? {
        consoleFlushTimer, outstanding := Some(nextTimer), outstanding + {nextTimer};
        nextTimer := nextTimer + 1;
      }
    }

    method FlushDropped()
      modifies this
      ensures Abs() == AfterFlush(old(Abs()))
    {
      consoleFlushTimer := None;
      if consoleDropped <= 0 { return; }
      var n := consoleDropped;
      consoleDropped := 0;
      posts := posts + [Report(n)];
    }

    method ForwardConsole(t: int)
      modifies this
      ensures Abs() == Next(old(Abs()), Forward(t))
    {
      handled := handled + 1;
      if t - consoleWindowStart >= 1000 {
        consoleWindowStart, consoleSent := t, 0;
      }
      if consoleSent >= CONSOLE_BUDGET_PER_SECOND {
        NoteDropped();
        return;
      }
      consoleSent := consoleSent + 1;
      var reported := 0;
      if consoleDropped > 0 {
        reported := consoleDropped;
        consoleDropped := 0;
      }
      posts := posts + [Line(t, reported)];
      times, windows := times + [t], windows + [consoleWindowStart];
    }
  }

  // ---- no drop is lost ----

  function Lines(posts: seq<Post>): nat {
    if posts == [] then 0 else Lines(posts[..|posts|-1]) + if posts[|posts|-1].Line? then 1 else 0
  }

  function Reported(posts: seq<Post>): nat {
    if posts == [] then 0 else Reported(posts[..|posts|-1]) + posts[|posts|-1].dropped
  }

  predicate Conserved(s: State) {
    && s.handled == Lines(s.posts) + Reported(s.posts) + s.dropped
    && (s.dropped > 0 ==> s.flushTimer.Some?)
    && (s.flushTimer.Some? ==> s.flushTimer.value in s.outstanding)
  }

  lemma PostCounts(posts: seq<Post>, p: Post)
    ensures Lines(posts + [p]) == Lines(posts) + if p.Line? then 1 else 0
    ensures Reported(posts + [p]) == Reported(posts) + p.dropped
  {
    assert (posts + [p])[..|posts|] == posts;
  }

  lemma FlushConserves(s: State)
    requires s.handled == Lines(s.posts) + Reported(s.posts) + s.dropped
    requires s.dropped > 0 ==> s.flushTimer.Some?
    ensures Conserved(AfterFlush(s))
  {
    PostCounts(s.posts, Report(s.dropped));
  }

  lemma NextConserves(s: State, step: Step)
    requires Conserved(s)
    ensures Conserved(Next(s, step))
  {
    match step
    case Forward(t) => PostCounts(s.posts, Line(t, s.dropped));
    case TimerFires(timer) => FlushConserves(s.(outstanding := s.outstanding - {timer}));
    case PageHide => FlushConserves(s);
  }

  lemma {:induction false} RunConserves(s: State, steps: seq<Step>)
    requires Conserved(s)
    ensures Conserved(Run(s, steps))
    decreases |steps|
  {
    if steps != [] {
      NextConserves(s, steps[0]);
      RunConserves(Next(s, steps[0]), steps[1..]);
    }
  }

  /** After any lines, flushes and page hides: every line handled was posted, or reported as
      dropped, or is counted still, and then a flush is on its way. */
  lemma EveryDropIsAccountedFor(steps: seq<Step>)
    ensures var s := Run(INIT, steps);
      && s.handled == Lines(s.posts) + Reported(s.posts) + s.dropped
      && (s.dropped > 0 ==> s.flushTimer.Some? && s.flushTimer.value in s.outstanding
                            && Next(s, TimerFires(s.flushTimer.value)).dropped == 0)
  {
    RunConserves(INIT, steps);
    ConservedAccounts(Run(INIT, steps));
  }

  lemma ConservedAccounts(s: State)
    requires Conserved(s)
    ensures s.handled == Lines(s.posts) + Reported(s.posts) + s.dropped
    ensures s.dropped > 0 ==> s.flushTimer.Some? && s.flushTimer.value in s.outstanding
    ensures s.dropped > 0 ==> Next(s, TimerFires(s.flushTimer.value)).dropped == 0
  {
  }

  // ---- the rate ----

  /** Lines arrive at times that never go back. */
  predicate ClockRunsOn(from: int, steps: seq<Step>)
    decreases |steps|
  {
    if steps == [] then true
    else if steps[0].Forward? then from <= steps[0].at && ClockRunsOn(steps[0].at, steps[1..])
    else ClockRunsOn(from, steps[1..])
  }

  /** The lines posted at `times` were counted in the windows that began at `windows`, the last
      `sent` of them in the current one. */
  ghost predicate Pace(start: int, sent: nat, times: seq<int>, windows: seq<int>, now: int) {
    && start <= now
    && |windows| == |times| && sent <= |times| && sent <= CONSOLE_BUDGET_PER_SECOND
    && (forall i :: 0 <= i < |times| ==> windows[i] <= times[i] < windows[i] + 1000 && times[i] <= now)
    && (forall i :: 0 <= i < |times| - sent ==> windows[i] + 1000 <= start)
    && (forall i :: |times| - sent <= i < |times| ==> windows[i] == start)
    && (forall i, j :: 0 <= i && i + CONSOLE_BUDGET_PER_SECOND <= j < |times| ==> windows[i] + 1000 <= windows[j])
  }

  ghost predicate Paced(s: State, now: int) { Pace(s.windowStart, s.sent, s.times, s.windows, now) }

  ghost predicate EverPaced(s: State) { exists now: int :: Paced(s, now) }

  lemma ResetKeepsPace(start: int, sent: nat, times: seq<int>, windows: seq<int>, now: int, t: int)
    requires Pace(start, sent, times, windows, now) && t - start >= 1000
    ensures Pace(t, 0, times, windows, t)
  {
  }

  lemma PostKeepsPace(start: int, sent: nat, times: seq<int>, windows: seq<int>, now: int, t: int)
    requires Pace(start, sent, times, windows, now) && now <= t < start + 1000 && sent < CONSOLE_BUDGET_PER_SECOND
    ensures Pace(start, sent + 1, times + [t], windows + [start], t)
  {
    var all := windows + [start];
    forall i, j | 0 <= i && i + CONSOLE_BUDGET_PER_SECOND <= j < |all| ensures all[i] + 1000 <= all[j] {
      if j == |times| {
        assert all[i] == windows[i];
      }
    }
  }

  lemma ForwardKeepsPace(s: State, now: int, t: int)
    requires Paced(s, now) && now <= t
    ensures Paced(Next(s, Forward(t)), t)
  {
    if t - s.windowStart >= 1000 {
      ResetKeepsPace(s.windowStart, s.sent, s.times, s.windows, now, t);
      PostKeepsPace(t, 0, s.times, s.windows, t, t);
    } else if s.sent < CONSOLE_BUDGET_PER_SECOND {
      PostKeepsPace(s.windowStart, s.sent, s.times, s.windows, now, t);
    }
  }

  lemma FlushKeepsPace(s: State, now: int, step: Step)
    requires Paced(s, now) && !step.Forward?
    ensures Paced(Next(s, step), now)
  {
  }

  lemma {:induction false} RunKeepsPace(s: State, now: int, steps: seq<Step>)
    requires Paced(s, now) && ClockRunsOn(now, steps)
    ensures EverPaced(Run(s, steps))
    decreases |steps|
  {
    if steps == [] {
    } else if steps[0].Forward? {
      ForwardKeepsPace(s, now, steps[0].at);
      RunKeepsPace(Next(s, steps[0]), steps[0].at, steps[1..]);
    } else {
      FlushKeepsPace(s, now, steps[0]);
      RunKeepsPace(Next(s, steps[0]), now, steps[1..]);
    }
  }

  /** When the lines among `posts` were posted. */
  function LineTimes(posts: seq<Post>): seq<int> {
    if posts == [] then []
    else LineTimes(posts[..|posts|-1]) + if posts[|posts|-1].Line? then [posts[|posts|-1].at] else []
  }

  lemma TimesOfPost(posts: seq<Post>, p: Post)
    ensures LineTimes(posts + [p]) == LineTimes(posts) + if p.Line? then [p.at] else []
  {
    assert (posts + [p])[..|posts|] == posts;
  }

  lemma NextRecordsTimes(s: State, step: Step)
    requires s.times == LineTimes(s.posts)
    ensures Next(s, step).times == LineTimes(Next(s, step).posts)
  {
    TimesOfPost(s.posts, Report(s.dropped));
    if step.Forward? {
      TimesOfPost(s.posts, Line(step.at, s.dropped));
    }
  }

  lemma {:induction false} RunRecordsTimes(s: State, steps: seq<Step>)
    requires s.times == LineTimes(s.posts)
    ensures Run(s, steps).times == LineTimes(Run(s, steps).posts)
    decreases |steps|
  {
    if steps != [] {
      NextRecordsTimes(s, steps[0]);
      RunRecordsTimes(Next(s, steps[0]), steps[1..]);
    }
  }

  lemma FarApart(s: State, i: nat, j: nat)
    requires EverPaced(s) && j < |s.times| && i + 2 * CONSOLE_BUDGET_PER_SECOND <= j
    ensures s.times[j] > s.times[i] + 1000
  {
    var now: int :| Paced(s, now);
    var k := i + CONSOLE_BUDGET_PER_SECOND;
    assert s.windows[i] + 1000 <= s.windows[k] && s.windows[k] + 1000 <= s.windows[j];
  }

  /** On a clock that does not go back, no 1000 ms hold more than twice the budget: of any 401
      lines posted in a row, the last comes more than 1000 ms after the first. */
  lemma AtMostTwiceTheBudgetInASecond(steps: seq<Step>, i: nat, j: nat)
    requires ClockRunsOn(0, steps)
    requires j < |LineTimes(Run(INIT, steps).posts)| && i + 2 * CONSOLE_BUDGET_PER_SECOND <= j
    ensures var times := LineTimes(Run(INIT, steps).posts); times[j] > times[i] + 1000
  {
    assert Paced(INIT, 0);
    RunKeepsPace(INIT, 0, steps);
    RunRecordsTimes(INIT, steps);
    FarApart(Run(INIT, steps), i, j);
  }

  // ---- what is dropped ----

  /** The last `n` times, all within the second before `now`. */
  predicate BusySecond(times: seq<int>, n: nat, now: int) {
    n <= |times| && forall i :: |times| - n <= i < |times| ==> now - 1000 < times[i] <= now
  }

  /** A line is posted, with the drops before it reported, unless 200 have been in the second before it;
      only then is it dropped, and counted. */
  lemma OnlyABusySecondDrops(steps: seq<Step>, t: int)
    requires ClockRunsOn(0, steps + [Forward(t)])
    ensures var s := Run(INIT, steps);
            var s' := Next(s, Forward(t));
      || (s'.posts == s.posts + [Line(t, s.dropped)] && s'.dropped == 0)
      || (s'.posts == s.posts && s'.dropped == s.dropped + 1 && BusySecond(LineTimes(s.posts), 200, t))
  {
    assert Paced(INIT, 0);
    var now := PaceBefore(INIT, 0, steps, t);
    RunRecordsTimes(INIT, steps);
  }

  lemma {:induction false} PaceBefore(s: State, now: int, steps: seq<Step>, t: int) returns (last: int)
    requires Paced(s, now) && ClockRunsOn(now, steps + [Forward(t)])
    ensures last <= t && Paced(Run(s, steps), last)
    decreases |steps|
  {
    if steps == [] {
      assert (steps + [Forward(t)])[0] == Forward(t);
      last := now;
    } else {
      assert (steps + [Forward(t)])[1..] == steps[1..] + [Forward(t)];
      if steps[0].Forward? {
        ForwardKeepsPace(s, now, steps[0].at);
        last := PaceBefore(Next(s, steps[0]), steps[0].at, steps[1..], t);
      } else {
        FlushKeepsPace(s, now, steps[0]);
        last := PaceBefore(Next(s, steps[0]), now, steps[1..], t);
      }
    }
  }

  // ---- clipping ----

  /** A string as the engine stores it: UTF-16 code units. */
  type Units = seq<int>

  const ELLIPSIS := 0x2026

  predicate High(u: int) { 0xD800 <= u <= 0xDBFF }

  predicate Low(u: int) { 0xDC00 <= u <= 0xDFFF }

  function Clip(value: Units, limit: nat): Units
    requires limit > 0
  {
    if |value| <= limit then value
    else
      var end := if High(value[limit-1]) then limit - 1 else limit;
      value[..end] + [ELLIPSIS]
  }

  /** Every surrogate is half of a pair. */
  predicate WellFormed(s: Units)
    decreases |s|
  {
    if s == [] then true
    else if High(s[0]) then |s| >= 2 && Low(s[1]) && WellFormed(s[2..])
    else !Low(s[0]) && WellFormed(s[1..])
  }

  lemma {:induction false} WellFormedPrefix(s: Units, n: nat)
    requires WellFormed(s) && n <= |s| && (n > 0 ==> !High(s[n-1]))
    ensures WellFormed(s[..n] + [ELLIPSIS])
    decreases |s|
  {
    if n == 0 {
      assert s[..n] + [ELLIPSIS] == [ELLIPSIS];
      assert [ELLIPSIS][1..] == [];
    } else if High(s[0]) {
      assert n >= 2;
      WellFormedPrefix(s[2..], n - 2);
      assert (s[..n] + [ELLIPSIS])[2..] == s[2..][..n-2] + [ELLIPSIS];
    } else {
      WellFormedPrefix(s[1..], n - 1);
      assert (s[..n] + [ELLIPSIS])[1..] == s[1..][..n-1] + [ELLIPSIS];
    }
  }

  lemma {:induction false} NoTwoHighsInARow(s: Units, i: nat)
    requires WellFormed(s) && i + 1 < |s| && High(s[i+1])
    ensures !High(s[i])
    decreases |s|
  {
    if High(s[0]) {
      if i >= 2 { NoTwoHighsInARow(s[2..], i - 2); }
    } else if i >= 1 {
      NoTwoHighsInARow(s[1..], i - 1);
    }
  }

  /** A clipped text keeps to the limit, says that it was cut, and never ends in half a character. */
  lemma ClipKeepsCharactersWhole(value: Units, limit: nat)
    requires limit > 0 && WellFormed(value)
    ensures var c := Clip(value, limit);
      && WellFormed(c)
      && (|value| <= limit ==> c == value)
      && (|value| > limit ==> limit <= |c| <= limit + 1 && c[..|c|-1] <= value && c[|c|-1] == ELLIPSIS)
  {
    if |value| > limit {
      var end := if High(value[limit-1]) then limit - 1 else limit;
      if end > 0 && end < limit { NoTwoHighsInARow(value, limit - 2); }
      WellFormedPrefix(value, end);
      var c := value[..end] + [ELLIPSIS];
      assert c[..|c|-1] == value[..end];
    }
  }
}
