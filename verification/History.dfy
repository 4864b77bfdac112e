/**
 What a history says, in terms of the records alone.

 The reader is a machine over one entry at a time. Here its output is described without it: each
 law says what one more prompt, one more stretch of the agent's work or one more turn end adds to
 the turns of whatever was recorded before.
 */
module History {
  import opened Options
  import opened Records
  import opened Reader
  import opened TurnDrawing

  // ---- a stretch of the agent's work ----

  /** Something the agent did, drawn in its turn. */
  predicate IsWork(e: Entry) { e.Update? && !e.payload.UserChunk? && !e.payload.Ignored? }

  function Said(es: seq<Entry>): seq<Payload> {
    seq(|es|, i requires 0 <= i < |es| => if es[i].Update? then es[i].payload else Ignored)
  }

  function Lines(es: seq<Entry>): seq<Record> {
    seq(|es|, i requires 0 <= i < |es| => EntryLine(es[i]))
  }

  /** A turn has drawn a card for the call. */
  ghost predicate DrawnIn(turns: seq<Turn>, id: string) {
    exists k, j :: 0 <= k < |turns| && 0 <= j < |turns[k].blocks| && IsUseOf(turns[k].blocks[j], id)
  }

  predicate IsUseOf(b: Block, id: string) { b.ToolUse? && b.useId == id }

  /** No update of the stretch is about a call that an earlier turn drew. */
  ghost predicate OwnCalls(turns: seq<Turn>, us: seq<Payload>) {
    forall i :: 0 <= i < |us| && us[i].ToolCallUpdate? ==>
      Calls(us[..i], us[i].call.id) != [] || !DrawnIn(turns, us[i].call.id)
  }

  ghost predicate IsStretch(turns: seq<Turn>, es: seq<Entry>) {
    (forall i :: 0 <= i < |es| ==> IsWork(es[i])) && PlanIdIsFree(Said(es)) && OwnCalls(turns, Said(es))
  }

  lemma {:induction false} NoUse(blocks: seq<Block>, id: string)
    requires forall j :: 0 <= j < |blocks| ==> !IsUseOf(blocks[j], id)
    ensures LastUse(blocks, id).None?
  {
    if blocks != [] {
      assert !IsUseOf(blocks[|blocks|-1], id);
      NoUse(blocks[..|blocks|-1], id);
    }
  }

  lemma {:induction false} NoClosedCard(turns: seq<Turn>, from: nat, id: string)
    requires !DrawnIn(turns, id)
    ensures ClosedCard(turns, from, id).None?
    decreases |turns|
  {
    if |turns| > from {
      var front, last := turns[..|turns|-1], turns[|turns|-1];
      forall j | 0 <= j < |last.blocks| ensures !IsUseOf(last.blocks[j], id) {
        assert turns[|turns|-1] == last;
      }
      NoUse(last.blocks, id);
      assert forall k :: 0 <= k < |front| ==> front[k] == turns[k];
      NoClosedCard(front, from, id);
    }
  }

  lemma NewPendingHolds(at: nat)
    ensures Holds(NewPending(at), [])
  {
  }

  /** What one more piece of work makes of the open turn. */
  function Worked(p: Pending, u: Payload): Pending {
    match u
    case TextChunk(c) => PushText(p, c.text, c.kind)
    case ProjectedChunk(kind, text) => PushText(p, text, kind)
    case ImageChunk(image) => p.(blocks := p.blocks + [Image(image)], hasContent := true)
    case ToolCall(call) => UpsertPending(p, call)
    case ToolCallUpdate(call) => UpsertPending(p, call)
    case Plan(todos) => UpsertPlan(p, todos)
    case _ => p
  }

  lemma PlanIdStaysFree(us: seq<Payload>, u: Payload)
    requires PlanIdIsFree(us + [u])
    ensures PlanIdIsFree(us) && !IsCallOf(u, PLAN_ID)
  {
    assert u in us + [u] && forall x :: x in us ==> x in us + [u];
  }

  lemma WorkHolds(p: Pending, us: seq<Payload>, u: Payload)
    requires Holds(p, us) && PlanIdIsFree(us + [u]) && !u.UserChunk? && !u.Ignored?
    ensures Holds(Worked(p, u), us + [u])
  {
    PlanIdStaysFree(us, u);
    if u.Plan? {
      HoldsPlan(p, us, u.todos);
    } else if CallOf(u).Some? {
      CallIsWorked(p, u);
      HoldsCall(p, us, u, CallOf(u).value);
    } else if u.ImageChunk? {
      HoldsImage(p, us, u.image);
    } else {
      ProseHolds(p, us, u);
    }
  }

  lemma CallIsWorked(p: Pending, u: Payload)
    requires CallOf(u).Some?
    ensures Worked(p, u) == UpsertPending(p, CallOf(u).value)
  {
  }

  lemma ProseHolds(p: Pending, us: seq<Payload>, u: Payload)
    requires Holds(p, us) && (u.TextChunk? || u.ProjectedChunk?)
    ensures Holds(Worked(p, u), us + [u])
  {
    match u
    case TextChunk(c) => HoldsText(p, us, u, c.kind, c.text);
    case ProjectedChunk(kind, text) => HoldsText(p, us, u, kind, text);
  }

  lemma UpdateIsWorked(s: State, t: nat, u: Payload)
    requires !u.UserChunk? && !u.Ignored? && (u.ToolCallUpdate? ==> ClosedTarget(s, u.call).None?)
    ensures OnUpdate(s, t, u) == WithOpen(s, Worked(Opened(s, t), u))
  {
  }

  lemma WorkedKeepsTimes(p: Pending, u: Payload)
    ensures Worked(p, u).startedAt == p.startedAt && Worked(p, u).lastAt == p.lastAt
  {
  }

  /** Where the update lands: in the open turn. */
  lemma OwnUpdateIsOpen(s: State, us: seq<Payload>, call: ToolFields)
    requires PlanIdIsFree(us) && call.id != PLAN_ID
    requires s.pending.Some? ==> Holds(s.pending.value, us)
    requires s.pending.None? ==> us == []
    requires Calls(us, call.id) != [] || !DrawnIn(s.turns, call.id)
    ensures ClosedTarget(s, call).None?
  {
    if Calls(us, call.id) != [] {
      WantedIsTold(us, call.id);
    } else {
      NoClosedCard(s.turns, if s.betweenTurns then 0 else OrElse(s.promptStart, 0), call.id);
    }
  }

  lemma TimeIsNoMatter(p: Pending, us: seq<Payload>, at: nat)
    requires Holds(p, us)
    ensures Holds(p.(lastAt := at), us)
  {
  }

  lemma OpenedHolds(s: State, us: seq<Payload>, t: nat)
    requires s.pending.Some? ==> Holds(s.pending.value, us)
    requires s.pending.None? ==> us == []
    ensures Holds(Opened(s, t), us)
  {
    if s.pending.Some? { TimeIsNoMatter(s.pending.value, us, t); } else { NewPendingHolds(OrElse(s.startHint, t)); }
  }

  lemma OneMoreWork(s: State, us: seq<Payload>, t: nat, u: Payload)
    requires !u.UserChunk? && !u.Ignored? && PlanIdIsFree(us + [u])
    requires s.pending.Some? ==> Holds(s.pending.value, us)
    requires s.pending.None? ==> us == []
    requires u.ToolCallUpdate? ==> Calls(us, u.call.id) != [] || !DrawnIn(s.turns, u.call.id)
    ensures var s' := OnUpdate(s, t, u);
      && s'.pending.Some? && Holds(s'.pending.value, us + [u])
      && s'.pending.value.startedAt == (if s.pending.Some? then s.pending.value.startedAt else OrElse(s.startHint, t))
      && s'.pending.value.lastAt == t
      && s' == s.(pending := s'.pending, promptJustRecorded := false,
                  startHint := if s.pending.Some? then s.startHint else None)
  {
    if u.ToolCallUpdate? {
      assert u in us + [u] && forall x :: x in us ==> x in us + [u];
      OwnUpdateIsOpen(s, us, u.call);
    }
    UpdateIsWorked(s, t, u);
    OpenedHolds(s, us, t);
    WorkHolds(Opened(s, t), us, u);
    WorkedKeepsTimes(Opened(s, t), u);
  }

  lemma StretchFront(turns: seq<Turn>, es: seq<Entry>)
    requires IsStretch(turns, es) && es != []
    ensures var front, last := es[..|es|-1], es[|es|-1];
      && IsStretch(turns, front) && Said(es) == Said(front) + [last.payload]
      && Lines(es) == Lines(front) + [EntryLine(last)]
      && (last.payload.ToolCallUpdate? ==>
            Calls(Said(front), last.payload.call.id) != [] || !DrawnIn(turns, last.payload.call.id))
  {
    var front := es[..|es|-1];
    var us, vs := Said(es), Said(front);
    assert us[..|us|-1] == vs;
    forall u | u in vs ensures !IsCallOf(u, PLAN_ID) {
      assert u in us;
    }
    forall i | 0 <= i < |vs| && vs[i].ToolCallUpdate?
      ensures Calls(vs[..i], vs[i].call.id) != [] || !DrawnIn(turns, vs[i].call.id)
    {
      assert us[..i] == vs[..i] && us[i] == vs[i];
    }
    assert us[|us|-1] == es[|es|-1].payload;
  }

  /** A stretch on a reader at rest opens one turn, which draws it and changes nothing else. */
  lemma {:induction false} StretchHolds(s: State, es: seq<Entry>)
    requires s.pending.None? && es != [] && IsStretch(s.turns, es)
    ensures var s' := Read(s, Lines(es));
      && s'.pending.Some? && Holds(s'.pending.value, Said(es))
      && s'.pending.value.startedAt == OrElse(s.startHint, es[0].t) && s'.pending.value.lastAt == es[|es|-1].t
      && s' == s.(pending := s'.pending, promptJustRecorded := false, startHint := None)
    decreases |es|
  {
    var front, last := es[..|es|-1], es[|es|-1];
    StretchFront(s.turns, es);
    ReadConcat(s, Lines(front), [EntryLine(last)]);
    var mid := Read(s, Lines(front));
    if front == [] {
      assert Lines(front) == [] && Said(front) == [];
    } else {
      StretchHolds(s, front);
    }
    OneMoreWork(mid, Said(front), last.t, last.payload);
    ReadOne(mid, last);
  }

  lemma ReadOne(s: State, e: Entry)
    ensures Read(s, [EntryLine(e)]) == Step(s, e)
  {
    assert [EntryLine(e)][1..] == [];
    assert Read(StepRecord(s, EntryLine(e)), []) == Step(s, e);
  }

  // ---- laws of the history ----

  /** Nothing is under construction: the records end with a prompt or a turn's end, or there are none. */
  predicate AtRest(head: seq<Record>) { head == [] || (head[|head|-1].EntryLine? && !head[|head|-1].entry.Update?) }

  predicate EndsWithPrompt(head: seq<Record>) {
    head != [] && head[|head|-1].EntryLine? && head[|head|-1].entry.Prompt?
  }

  predicate EndsWithSteer(head: seq<Record>) { EndsWithPrompt(head) && head[|head|-1].entry.steer }

  lemma Snoc(head: seq<Record>, e: Entry)
    ensures Read(INIT, head + [EntryLine(e)]) == Step(Read(INIT, head), e)
  {
    ReadConcat(INIT, head, [EntryLine(e)]);
    ReadOne(Read(INIT, head), e);
  }

  lemma RestState(head: seq<Record>)
    requires AtRest(head)
    ensures var s := Read(INIT, head);
      && s.pending.None? && s.turns == Project(head)
      && s.startHint == (if EndsWithPrompt(head) then Some(head[|head|-1].entry.t) else None)
      && s.promptJustRecorded == EndsWithPrompt(head) && s.steered == EndsWithSteer(head)
      && s.betweenTurns == (head != [] && !EndsWithPrompt(head))
  {
    if head != [] {
      var front, last := head[..|head|-1], head[|head|-1];
      assert head == front + [last] && last == EntryLine(last.entry);
      Snoc(front, last.entry);
      RestAfter(Read(INIT, front), last.entry);
    }
  }

  lemma RestAfter(s: State, e: Entry)
    requires !e.Update?
    ensures var s' := Step(s, e);
      && s'.pending.None? && Flush(s') == s'
      && s'.startHint == (if e.Prompt? then Some(e.t) else None)
      && s'.promptJustRecorded == e.Prompt? && s'.steered == (e.Prompt? && e.steer) && s'.betweenTurns == e.TurnEnd?
  {
  }

  function UserTurn(id: nat, blocks: seq<Block>, t: nat): Turn {
    Turn(id, User, blocks, t, None, None, None, None)
  }

  /** A prompt is one more turn, as it was sent. Whatever came before stands. */
  lemma PromptIsAppended(before: seq<Record>, t: nat, blocks: seq<Block>, steer: bool)
    ensures Project(before + [EntryLine(Prompt(t, blocks, steer))]) ==
      Project(before) + [UserTurn(|Project(before)|, blocks, t)]
  {
    Snoc(before, Prompt(t, blocks, steer));
  }

  const NO_REPORT := Report(None, None, None)

  /** The turn of a stretch of work: it draws what the agent told, from its start to its end, with
      what the turn's end reports of it. `whole`: the report's duration is this turn's. */
  ghost predicate Answers(turn: Turn, id: nat, start: nat, us: seq<Payload>, end: nat, r: Report, whole: bool) {
    && turn.id == id && turn.role.Assistant? && Draws(turn.blocks, us)
    && turn.timestamp == start && turn.completedAt == Some(end)
    && turn.model == r.model && turn.usage == r.usage
    && turn.duration ==
       (if whole && r.duration.Some? then r.duration else if end >= start then Some(end - start) else None)
  }

  /** `now` is `was` and, if there is something to show, one turn that answers. */
  ghost predicate Gains(was: seq<Turn>, now: seq<Turn>, something: bool, start: nat, us: seq<Payload>, end: nat,
                        r: Report, whole: bool)
  {
    && was <= now && |now| == |was| + (if something then 1 else 0)
    && (something ==> Answers(now[|was|], |was|, start, us, end, r, whole))
  }

  /** Where a stretch behind `head` starts: with the prompt it answers, or else with itself. */
  function Start(head: seq<Record>, es: seq<Entry>): nat
    requires es != []
  {
    if EndsWithPrompt(head) then head[|head|-1].entry.t else es[0].t
  }

  lemma StretchState(head: seq<Record>, es: seq<Entry>)
    requires AtRest(head) && es != [] && IsStretch(Project(head), es)
    ensures var s, s' := Read(INIT, head), Read(INIT, head + Lines(es));
      && s'.pending.Some? && Holds(s'.pending.value, Said(es)) && Draws(s'.pending.value.blocks, Said(es))
      && s'.pending.value.startedAt == Start(head, es) && s'.pending.value.lastAt == es[|es|-1].t
      && s'.turns == Project(head) && s'.steered == EndsWithSteer(head)
  {
    RestState(head);
    ReadConcat(INIT, head, Lines(es));
    StretchHolds(Read(INIT, head), es);
    HoldsDraws(Read(INIT, head + Lines(es)).pending.value, Said(es));
  }

  /** A stretch of work is one turn, if it told anything. */
  lemma StretchIsOneTurn(head: seq<Record>, es: seq<Entry>)
    requires AtRest(head) && es != [] && IsStretch(Project(head), es)
    ensures Gains(Project(head), Project(head + Lines(es)), Told(Said(es)) != [], Start(head, es), Said(es),
                  es[|es|-1].t, NO_REPORT, true)
  {
    StretchState(head, es);
    OpenTurnCloses(Read(INIT, head + Lines(es)), Said(es));
  }

  /** Its turn's end closes it, and reports on it. A report of usage makes a turn even of nothing told;
      behind a steer the reported duration is that of a longer turn and is left out. */
  lemma EndedStretchIsOneTurn(head: seq<Record>, es: seq<Entry>, t: nat, r: Report)
    requires AtRest(head) && es != [] && IsStretch(Project(head), es)
    ensures Gains(Project(head), Project(head + Lines(es) + [EntryLine(TurnEnd(t, r))]),
                  Told(Said(es)) != [] || r.usage.Some?, Start(head, es), Said(es), t, r, !EndsWithSteer(head))
  {
    StretchState(head, es);
    Snoc(head + Lines(es), TurnEnd(t, r));
    OpenTurnEnds(Read(INIT, head + Lines(es)), Said(es), t, r);
  }

  lemma OpenTurnEnds(s: State, us: seq<Payload>, t: nat, r: Report)
    requires s.pending.Some?
    requires var p := s.pending.value;
      && Draws(p.blocks, us) && (p.hasContent <==> Told(us) != [])
      && p.usage.None? && p.duration.None? && p.model.None?
    ensures Gains(s.turns, OnTurnEnd(s, t, r).turns, Told(us) != [] || r.usage.Some?, s.pending.value.startedAt, us, t,
                  r, !s.steered)
    ensures OnTurnEnd(s, t, r).pending.None?
  {
    var closing := ApplyReport(s.pending.value, r, !s.steered).(lastAt := t);
    assert OnTurnEnd(s, t, r).turns == Flush(s.(pending := Some(closing))).turns;
  }

  /** Part of one prompted turn: no turn's end, and no prompt but what is steered into it. */
  predicate OneTurn(mid: seq<Record>) {
    forall i :: 0 <= i < |mid| && mid[i].EntryLine? ==>
      !mid[i].entry.TurnEnd? && (mid[i].entry.Prompt? ==> mid[i].entry.steer)
  }

  /** The user spoke last: with a prompt, or through another client of the agent's. */
  predicate UserSpokeLast(head: seq<Record>) {
    && head != [] && head[|head|-1].EntryLine?
    && var e := head[|head|-1].entry;
       e.Prompt? || (e.Update? && e.payload.UserChunk? && e.payload.input.Some?)
  }

  lemma {:induction false} PromptStartStays(head: seq<Record>, mid: seq<Record>)
    requires OneTurn(mid) && AtRest(head)
    ensures var s, s' := Read(INIT, head), Read(INIT, head + mid);
      && s'.promptStart == s.promptStart && (EndsWithPrompt(head) ==> !s'.betweenTurns)
      && (s'.promptJustRecorded ==> s'.pending.None? && s'.startHint.Some?)
    decreases |mid|
  {
    if mid == [] {
      assert head + mid == head;
      RestState(head);
    } else {
      var front, last := mid[..|mid|-1], mid[|mid|-1];
      assert head + mid == (head + front) + [last];
      PromptStartStays(head, front);
      ReadConcat(INIT, head + front, [last]);
      var s := Read(INIT, head + front);
      assert [last][1..] == [] && Read(StepRecord(s, last), []) == StepRecord(s, last);
      assert Read(s, [last]) == StepRecord(s, last);
      StepKeepsPromptStart(s, last);
    }
  }

  lemma StepKeepsPromptStart(s: State, r: Record)
    requires r.EntryLine? ==> !r.entry.TurnEnd? && (r.entry.Prompt? ==> r.entry.steer)
    requires s.promptJustRecorded ==> s.pending.None? && s.startHint.Some?
    ensures var s' := StepRecord(s, r);
      && s'.promptStart == s.promptStart && (!s.betweenTurns ==> !s'.betweenTurns)
      && (s'.promptJustRecorded ==> s'.pending.None? && s'.startHint.Some?)
  {
    if r.EntryLine? && r.entry.Update? { UpdateKeepsPromptStart(s, r.entry.t, r.entry.payload); }
  }

  lemma UpdateKeepsPromptStart(s: State, t: nat, u: Payload)
    requires s.promptJustRecorded ==> s.pending.None? && s.startHint.Some?
    ensures var s' := OnUpdate(s, t, u);
      && s'.promptStart == s.promptStart && s'.betweenTurns == s.betweenTurns
      && (s'.promptJustRecorded ==> s'.pending.None? && s'.startHint.Some?)
  {
    match u
    case UserChunk(input) => ChunkKeepsPromptStart(s, t, input);
    case ToolCallUpdate(call) => CallKeepsPromptStart(s, t, call);
    case _ =>
  }

  lemma ChunkKeepsPromptStart(s: State, t: nat, input: Option<UserInput>)
    requires s.promptJustRecorded ==> s.pending.None? && s.startHint.Some?
    ensures var s' := OnUserChunk(s, t, input);
      && s'.promptStart == s.promptStart && s'.betweenTurns == s.betweenTurns
      && s'.promptJustRecorded == s.promptJustRecorded
      && (s.promptJustRecorded ==> s' == s)
      && (input.Some? ==> s'.pending.None? && s'.startHint.Some?)
  {
  }

  lemma CallKeepsPromptStart(s: State, t: nat, call: ToolFields)
    ensures var s' := OnToolCallUpdate(s, t, call);
      && s'.promptStart == s.promptStart && s'.betweenTurns == s.betweenTurns
      && (s'.promptJustRecorded ==>
            s.promptJustRecorded && s'.pending == s.pending && s'.startHint == s.startHint)
  {
  }

  /** The reader inside a prompt's turn, when the user spoke last. */
  lemma UserSpokeState(before: seq<Record>, t0: nat, blocks: seq<Block>, mid: seq<Record>)
    requires OneTurn(mid) && UserSpokeLast(before + [EntryLine(Prompt(t0, blocks, false))] + mid)
    ensures var head := before + [EntryLine(Prompt(t0, blocks, false))] + mid;
            var s := Read(INIT, head);
      && s.pending.None? && s.turns == Project(head) && s.promptStart == Some(|Project(before)|)
      && !s.betweenTurns && s.startHint.Some?
  {
    var prompted := before + [EntryLine(Prompt(t0, blocks, false))];
    var head := prompted + mid;
    Snoc(before, Prompt(t0, blocks, false));
    PromptIsAppended(before, t0, blocks, false);
    PromptStartStays(prompted, mid);
    if EndsWithPrompt(head) {
      RestState(head);
    } else {
      var front, e := mid[..|mid|-1], head[|head|-1].entry;
      assert head == (prompted + front) + [EntryLine(e)];
      PromptStartStays(prompted, front);
      Snoc(prompted + front, e);
      ChunkKeepsPromptStart(Read(INIT, prompted + front), e.t, e.payload.input);
    }
  }

  predicate LastReply(turns: seq<Turn>, from: nat, k: nat) {
    from <= k < |turns| && turns[k].role.Assistant? && forall j :: k < j < |turns| ==> turns[j].role.User?
  }

  predicate NoReply(turns: seq<Turn>, from: nat) { forall j :: from <= j < |turns| ==> turns[j].role.User? }

  lemma {:induction false} LastAssistantIs(turns: seq<Turn>, from: nat)
    ensures var k := LastAssistant(turns, from);
      if k.Some? then LastReply(turns, from, k.value) else NoReply(turns, from)
    decreases |turns|
  {
    if |turns| > from && turns[|turns|-1].role.User? {
      LastAssistantIs(turns[..|turns|-1], from);
    }
  }

  /** A turn's end with nothing behind the last message: its report goes to the last reply since the
      prompt, or, with a usage to keep, makes a turn of its own, or is dropped. */
  lemma EndWithoutWork(before: seq<Record>, t0: nat, blocks: seq<Block>, mid: seq<Record>, t: nat, r: Report)
    requires OneTurn(mid) && UserSpokeLast(before + [EntryLine(Prompt(t0, blocks, false))] + mid)
    ensures var head := before + [EntryLine(Prompt(t0, blocks, false))] + mid;
            var from, was := |Project(before)|, Project(head);
            var now := Project(head + [EntryLine(TurnEnd(t, r))]);
      && (NoReply(was, from) && EndsWithPrompt(head) ==>
            Gains(was, now, r.usage.Some?, head[|head|-1].entry.t, [], t, r, !EndsWithSteer(head)))
      && (forall k: nat :: LastReply(was, from, k) ==>
            now == was[k := was[k].(model := Or(r.model, was[k].model), usage := Or(r.usage, was[k].usage))])
  {
    var head := before + [EntryLine(Prompt(t0, blocks, false))] + mid;
    UserSpokeState(before, t0, blocks, mid);
    if EndsWithPrompt(head) { RestState(head); }
    Snoc(head, TurnEnd(t, r));
    EndAlone(Read(INIT, head), |Project(before)|, Read(INIT, head).startHint.value, t, r);
  }

  lemma EndAlone(s: State, from: nat, asked: nat, t: nat, r: Report)
    requires s.pending.None? && s.promptStart == Some(from) && s.startHint == Some(asked)
    ensures var now := OnTurnEnd(s, t, r);
      && now.pending.None?
      && (NoReply(s.turns, from) ==> Gains(s.turns, now.turns, r.usage.Some?, asked, [], t, r, !s.steered))
      && (forall k: nat :: LastReply(s.turns, from, k) ==>
            now.turns == s.turns[k := s.turns[k].(model := Or(r.model, s.turns[k].model),
                                                  usage := Or(r.usage, s.turns[k].usage))])
  {
    LastAssistantIs(s.turns, from);
    if LastAssistant(s.turns, from).None? {
      assert Draws([], []);
      if r.usage.Some? {
        OpenTurnEnds(s.(pending := Some(NewPending(asked))), [], t, r);
      }
    }
  }

  /** A turn's end that no prompt awaits changes nothing. */
  lemma EndWithoutPrompt(before: seq<Record>, mid: seq<Record>, t: nat, r: Report)
    requires before == [] || (before[|before|-1].EntryLine? && before[|before|-1].entry.TurnEnd?)
    requires OneTurn(mid) && AtRest(before + mid)
    ensures Project(before + mid + [EntryLine(TurnEnd(t, r))]) == Project(before + mid)
  {
    if before != [] {
      var e := before[|before|-1].entry;
      assert before == before[..|before|-1] + [EntryLine(e)];
      Snoc(before[..|before|-1], e);
    }
    PromptStartStays(before, mid);
    RestState(before + mid);
    Snoc(before + mid, TurnEnd(t, r));
  }

  /** Updates that describe no turn are as good as not recorded. */
  lemma IgnoredIsNothing(before: seq<Record>, t: nat)
    ensures Read(INIT, before + [EntryLine(Update(t, Ignored))]) == Read(INIT, before)
  {
    Snoc(before, Update(t, Ignored));
  }

  // ---- messages without a recorded prompt ----

  /** The agent's echo of a recorded prompt is no message. */
  lemma EchoIsDropped(before: seq<Record>, prompt: Entry, t: nat, input: Option<UserInput>)
    requires prompt.Prompt?
    ensures var recorded := before + [EntryLine(prompt)];
      Read(INIT, recorded + [EntryLine(Update(t, UserChunk(input)))]) == Read(INIT, recorded)
  {
    Snoc(before, prompt);
    Snoc(before + [EntryLine(prompt)], Update(t, UserChunk(input)));
  }

  /** A message of the user, streamed in chunks. */
  function Chunks(ts: seq<nat>, inputs: seq<UserInput>): seq<Entry>
    requires |ts| == |inputs|
  {
    seq(|ts|, i requires 0 <= i < |ts| => Update(ts[i], UserChunk(Some(inputs[i]))))
  }

  /** How many of the last chunks are prose. */
  function ProseRun(inputs: seq<UserInput>): (k: nat)
    ensures k <= |inputs| && (inputs != [] && inputs[|inputs|-1].Prose? ==> k > 0)
  {
    if inputs == [] || !inputs[|inputs|-1].Prose? then 0 else 1 + ProseRun(inputs[..|inputs|-1])
  }

  function Joined(inputs: seq<UserInput>): string {
    if inputs == [] then ""
    else Joined(inputs[..|inputs|-1]) + if inputs[|inputs|-1].Prose? then inputs[|inputs|-1].prose else ""
  }

  /** Its blocks: each run of prose joined, each attachment by itself. */
  function MessageBlocks(inputs: seq<UserInput>): seq<Block>
    decreases |inputs|
  {
    if inputs == [] then []
    else
      var n := |inputs|;
      match inputs[n-1]
      case Attachment(block) => MessageBlocks(inputs[..n-1]) + [block]
      case Prose(_) =>
        var k := ProseRun(inputs);
        MessageBlocks(inputs[..n-k]) + [Text(Joined(inputs[n-k..]))]
  }

  /** One more chunk of prose runs on behind prose. */
  lemma MessageOfOneMore(inputs: seq<UserInput>, more: string)
    ensures var front, all := MessageBlocks(inputs), MessageBlocks(inputs + [Prose(more)]);
      if inputs != [] && inputs[|inputs|-1].Prose? then
        front != [] && front[|front|-1].Text? && all == front[..|front|-1] + [Text(front[|front|-1].text + more)]
      else all == front + [Text(more)]
  {
    var all, n := inputs + [Prose(more)], |inputs|;
    assert all[..n] == inputs && all[n] == Prose(more);
    var k := ProseRun(inputs);
    assert ProseRun(all) == k + 1;
    assert all[..n-k] == inputs[..n-k] && all[n-k..] == inputs[n-k..] + [Prose(more)];
    JoinedOfOneMore(inputs[n-k..], more);
    if k == 0 {
      assert inputs[..n] == inputs && inputs[n..] == [] && "" + more == more;
    }
  }

  lemma JoinedOfOneMore(inputs: seq<UserInput>, more: string)
    ensures Joined(inputs + [Prose(more)]) == Joined(inputs) + more
  {
    assert (inputs + [Prose(more)])[..|inputs|] == inputs;
  }

  /** The agent spoke last, or nobody has. */
  predicate UsersTurn(head: seq<Record>) {
    && (head == [] || (head[|head|-1].EntryLine? &&
          match head[|head|-1].entry
          case Prompt(_, _, _) => false
          case TurnEnd(_, _) => true
          case Update(_, u) => !u.UserChunk? && !u.Ignored? && !u.ToolCallUpdate?))
    && (Project(head) == [] || Project(head)[|Project(head)|-1].role.Assistant?)
  }

  lemma NotJustRecorded(head: seq<Record>)
    requires UsersTurn(head)
    ensures !Read(INIT, head).promptJustRecorded
  {
    if head != [] {
      var e := head[|head|-1].entry;
      assert head == head[..|head|-1] + [EntryLine(e)];
      Snoc(head[..|head|-1], e);
    }
  }

  /** A replayed message is one user turn: its first chunk dates it, its prose is joined, and the last
      dates the answer. */
  lemma {:induction false} ReplayedMessage(head: seq<Record>, ts: seq<nat>, inputs: seq<UserInput>)
    requires UsersTurn(head) && |ts| == |inputs| && ts != []
    ensures var s := Read(INIT, head + Lines(Chunks(ts, inputs)));
      && s.pending.None? && s.startHint == Some(ts[|ts|-1]) && !s.promptJustRecorded
      && s.proseOpen == inputs[|inputs|-1].Prose?
      && s.turns == Project(head) + [UserTurn(|Project(head)|, MessageBlocks(inputs), ts[0])]
    decreases |ts|
  {
    var n := |ts| - 1;
    var front := Chunks(ts[..n], inputs[..n]);
    var last := Update(ts[n], UserChunk(Some(inputs[n])));
    assert Lines(Chunks(ts, inputs)) == Lines(front) + [EntryLine(last)];
    assert head + (Lines(front) + [EntryLine(last)]) == (head + Lines(front)) + [EntryLine(last)];
    assert inputs[..n] + [inputs[n]] == inputs;
    Snoc(head + Lines(front), last);
    NotJustRecorded(head);
    if n == 0 {
      assert head + Lines(front) == head && [inputs[0]] == inputs;
      ChunkBegins(Read(INIT, head), ts[0], inputs[0]);
    } else {
      ReplayedMessage(head, ts[..n], inputs[..n]);
      ChunkRunsOn(Read(INIT, head + Lines(front)), Project(head), inputs[..n], ts[0], ts[n], inputs[n]);
    }
  }

  lemma OnlyChunk(input: UserInput)
    ensures MessageBlocks([input]) == [if input.Prose? then Text(input.prose) else input.block]
  {
    assert [input][..0] == [] && MessageBlocks([]) == [];
    if input.Prose? {
      MessageOfOneMore([], input.prose);
      assert [] + [Prose(input.prose)] == [input];
    }
  }

  lemma ChunkBegins(s: State, t: nat, input: UserInput)
    requires !s.promptJustRecorded
    requires var was := Flush(s).turns; was == [] || was[|was|-1].role.Assistant?
    ensures var s' := OnUserChunk(s, t, Some(input));
      && s'.pending.None? && s'.startHint == Some(t) && !s'.promptJustRecorded && s'.proseOpen == input.Prose?
      && s'.turns == Flush(s).turns + [UserTurn(|Flush(s).turns|, MessageBlocks([input]), t)]
  {
    OnlyChunk(input);
  }

  lemma BlockRunsOn(s: State, was: seq<Turn>, blocks: seq<Block>, t0: nat, t: nat, more: UserInput)
    requires s.pending.None? && !s.promptJustRecorded && s.turns == was + [UserTurn(|was|, blocks, t0)]
    requires s.proseOpen ==> blocks != [] && blocks[|blocks|-1].Text?
    ensures var n := |blocks|;
            var now := if more.Attachment? then blocks + [more.block]
                       else if s.proseOpen then blocks[..n-1] + [Text(blocks[n-1].text + more.prose)]
                       else blocks + [Text(more.prose)];
      OnUserChunk(s, t, Some(more)) ==
        s.(startHint := Some(t), proseOpen := more.Prose?, turns := was + [UserTurn(|was|, now, t0)])
  {
    assert s.turns[..|was|] == was;
  }

  lemma ChunkRunsOn(s: State, was: seq<Turn>, inputs: seq<UserInput>, t0: nat, t: nat, more: UserInput)
    requires inputs != [] && s.pending.None? && s.proseOpen == inputs[|inputs|-1].Prose? && !s.promptJustRecorded
    requires s.turns == was + [UserTurn(|was|, MessageBlocks(inputs), t0)]
    ensures OnUserChunk(s, t, Some(more)) ==
      s.(startHint := Some(t), proseOpen := more.Prose?,
         turns := was + [UserTurn(|was|, MessageBlocks(inputs + [more]), t0)])
  {
    MessageOfOneMore(inputs, if more.Prose? then more.prose else "");
    BlockRunsOn(s, was, MessageBlocks(inputs), t0, t, more);
    if more.Attachment? { MessageAndAttachment(inputs, more); }
  }

  lemma MessageAndAttachment(inputs: seq<UserInput>, more: UserInput)
    requires more.Attachment?
    ensures MessageBlocks(inputs + [more]) == MessageBlocks(inputs) + [more.block]
  {
    assert (inputs + [more])[..|inputs|] == inputs;
  }

  /** And the history shows it, with the answer from the last chunk on. */
  lemma ReplayedExchange(head: seq<Record>, ts: seq<nat>, inputs: seq<UserInput>, es: seq<Entry>)
    requires UsersTurn(head) && |ts| == |inputs| && ts != [] && es != []
    requires IsStretch(Project(head + Lines(Chunks(ts, inputs))), es)
    ensures var was := Project(head) + [UserTurn(|Project(head)|, MessageBlocks(inputs), ts[0])];
            var asked := head + Lines(Chunks(ts, inputs));
      && Project(asked) == was
      && Gains(was, Project(asked + Lines(es)), Told(Said(es)) != [], ts[|ts|-1], Said(es), es[|es|-1].t, NO_REPORT,
               true)
  {
    ReplayedMessage(head, ts, inputs);
    AnsweredFrom(head + Lines(Chunks(ts, inputs)), es, ts[|ts|-1]);
  }

  lemma AnsweredFrom(asked: seq<Record>, es: seq<Entry>, start: nat)
    requires es != [] && IsStretch(Project(asked), es)
    requires var s := Read(INIT, asked); s.pending.None? && s.startHint == Some(start)
    ensures Gains(Project(asked), Project(asked + Lines(es)), Told(Said(es)) != [], start, Said(es), es[|es|-1].t,
                  NO_REPORT, true)
  {
    ReadConcat(INIT, asked, Lines(es));
    StretchHolds(Read(INIT, asked), es);
    HoldsDraws(Read(INIT, asked + Lines(es)).pending.value, Said(es));
    OpenTurnCloses(Read(INIT, asked + Lines(es)), Said(es));
  }

  lemma OpenTurnCloses(s: State, us: seq<Payload>)
    requires s.pending.Some? && Draws(s.pending.value.blocks, us)
    requires var p := s.pending.value;
      (p.hasContent <==> Told(us) != []) && p.usage.None? && p.duration.None? && p.model.None?
    ensures Gains(s.turns, Flush(s).turns, Told(us) != [], s.pending.value.startedAt, us, s.pending.value.lastAt,
                  NO_REPORT, true)
  {
  }

  // ---- an update that comes late ----

  /** The last card of the call in a closed turn. */
  predicate LastCard(turns: seq<Turn>, id: string, k: nat, j: nat) {
    && k < |turns| && j < |turns[k].blocks| && IsUseOf(turns[k].blocks[j], id)
    && (forall m :: j < m < |turns[k].blocks| ==> !IsUseOf(turns[k].blocks[m], id))
    && (forall l, m :: k < l < |turns| && 0 <= m < |turns[l].blocks| ==> !IsUseOf(turns[l].blocks[m], id))
  }

  lemma {:induction false} LastUseIs(blocks: seq<Block>, id: string)
    ensures var j := LastUse(blocks, id);
      && (j.Some? ==> j.value < |blocks| && IsUseOf(blocks[j.value], id))
      && forall m :: (if j.Some? then j.value + 1 else 0) <= m < |blocks| ==> !IsUseOf(blocks[m], id)
  {
    if blocks != [] { LastUseIs(blocks[..|blocks|-1], id); }
  }

  /** A turn from `from` on has drawn a card for the call. */
  ghost predicate DrawnSince(turns: seq<Turn>, from: nat, id: string) {
    exists k, j :: from <= k < |turns| && 0 <= j < |turns[k].blocks| && IsUseOf(turns[k].blocks[j], id)
  }

  lemma {:induction false} ClosedCardIs(turns: seq<Turn>, from: nat, id: string)
    requires DrawnSince(turns, from, id)
    ensures var k := ClosedCard(turns, from, id);
      && k.Some? && k.value < |turns| && LastUse(turns[k.value].blocks, id).Some?
      && LastCard(turns, id, k.value, LastUse(turns[k.value].blocks, id).value)
    decreases |turns|
  {
    var front, last := turns[..|turns|-1], turns[|turns|-1];
    LastUseIs(last.blocks, id);
    if LastUse(last.blocks, id).None? {
      var k, j :| from <= k < |turns| && 0 <= j < |turns[k].blocks| && IsUseOf(turns[k].blocks[j], id);
      assert front[k] == turns[k];
      ClosedCardIs(front, from, id);
      var c := ClosedCard(front, from, id).value;
      assert turns[c] == front[c];
    }
  }

  predicate IsResultOf(b: Block, id: string) { b.ToolResult? && b.resultId == id }

  /** The last outcome of the call among the blocks. */
  predicate LastOutcome(blocks: seq<Block>, id: string, m: nat) {
    m < |blocks| && IsResultOf(blocks[m], id) && forall n :: m < n < |blocks| ==> !IsResultOf(blocks[n], id)
  }

  lemma {:induction false} LastResultIs(blocks: seq<Block>, id: string)
    ensures var j := LastResult(blocks, id);
      && (j.Some? ==> LastOutcome(blocks, id, j.value))
      && (j.None? ==> forall m :: 0 <= m < |blocks| ==> !IsResultOf(blocks[m], id))
  {
    if blocks != [] { LastResultIs(blocks[..|blocks|-1], id); }
  }

  /** What an update makes of the card it is about. */
  function Renewed(card: Block, call: ToolFields): Block
    requires card.ToolUse?
  {
    card.(name := if call.title.Some? && call.title.value != "" then call.title.value else card.name,
          input := if call.input.Some? then call.input else card.input,
          meta := if call.meta.Some? then call.meta else card.meta)
  }

  /** And of its outcome. */
  function RenewedOutcome(card: Block, call: ToolFields): Block
    requires card.ToolResult?
  {
    if !ShowsOutcome(call) then card
    else card.(output := if call.output.Some? then call.output else card.output, isError := call.failed,
               images := if call.images != [] then call.images else card.images)
  }

  /** The turn `was` with one call's card and last outcome renewed in it, and nothing else; an outcome it
      had not yet comes last. */
  ghost predicate RenewedIn(was: seq<Block>, now: seq<Block>, j: nat, call: ToolFields) {
    && j < |was| <= |now| && was[j].ToolUse? && now[j] == Renewed(was[j], call)
    && (forall m: nat :: m < |was| && m != j ==>
          now[m] == if LastOutcome(was, call.id, m) then RenewedOutcome(was[m], call) else was[m])
    && now[|was|..] ==
       (if ShowsOutcome(call) && (forall m :: 0 <= m < |was| ==> !IsResultOf(was[m], call.id))
        then [ToolResult(call.id, call.output, call.failed, call.images)] else [])
  }

  /** The turns with an update of a call on its last card: no other turn changes, none is added, and in
      that one nothing but the call's own blocks. */
  ghost predicate LandsOnItsCard(was: seq<Turn>, now: seq<Turn>, call: ToolFields, k: nat, j: nat) {
    && LastCard(was, call.id, k, j) && |now| == |was| && now == was[k := was[k].(blocks := now[k].blocks)]
    && RenewedIn(was[k].blocks, now[k].blocks, j, call)
  }

  /** Between turns an update of a call that some turn drew goes to its last card, and to its outcome. */
  lemma LateUpdateLandsOnItsCard(head: seq<Record>, t: nat, call: ToolFields) returns (k: nat, j: nat)
    requires head != [] && head[|head|-1].EntryLine? && head[|head|-1].entry.TurnEnd?
    requires DrawnIn(Project(head), call.id)
    ensures LandsOnItsCard(Project(head), Project(head + [EntryLine(Update(t, ToolCallUpdate(call)))]), call, k, j)
  {
    RestState(head);
    Snoc(head, Update(t, ToolCallUpdate(call)));
    k, j := LateUpdateOn(Read(INIT, head), 0, t, call);
  }

  /** Behind a message that splits a prompt's turn, so does an update of a call drawn since the prompt. */
  lemma SteeredUpdateLandsOnItsCard(before: seq<Record>, t0: nat, blocks: seq<Block>, mid: seq<Record>, t: nat,
                                    call: ToolFields) returns (k: nat, j: nat)
    requires OneTurn(mid)
    requires var head := before + [EntryLine(Prompt(t0, blocks, false))] + mid;
      UserSpokeLast(head) && DrawnSince(Project(head), |Project(before)|, call.id)
    ensures var head := before + [EntryLine(Prompt(t0, blocks, false))] + mid;
      && |Project(before)| <= k
      && LandsOnItsCard(Project(head), Project(head + [EntryLine(Update(t, ToolCallUpdate(call)))]), call, k, j)
  {
    var head := before + [EntryLine(Prompt(t0, blocks, false))] + mid;
    UserSpokeState(before, t0, blocks, mid);
    Snoc(head, Update(t, ToolCallUpdate(call)));
    k, j := LateUpdateOn(Read(INIT, head), |Project(before)|, t, call);
  }

  lemma LateUpdateOn(s: State, from: nat, t: nat, call: ToolFields) returns (k: nat, j: nat)
    requires s.pending.None? && (if s.betweenTurns then from == 0 else s.promptStart == Some(from))
    requires DrawnSince(s.turns, from, call.id)
    ensures var now := OnToolCallUpdate(s, t, call);
      && from <= k && LandsOnItsCard(s.turns, now.turns, call, k, j) && now == s.(turns := now.turns)
  {
    ClosedCardIs(s.turns, from, call.id);
    k := ClosedCard(s.turns, from, call.id).value;
    ClosedCardFrom(s.turns, from, call.id);
    var blocks := s.turns[k].blocks;
    j := LastUse(blocks, call.id).value;
    LastResultIs(blocks, call.id);
    UpsertedInPlace(blocks, j, LastResult(blocks, call.id), call);
  }

  lemma {:induction false} ClosedCardFrom(turns: seq<Turn>, from: nat, id: string)
    ensures var k := ClosedCard(turns, from, id); k.Some? ==> from <= k.value
    decreases |turns|
  {
    if |turns| > from { ClosedCardFrom(turns[..|turns|-1], from, id); }
  }

  lemma UpsertedInPlace(blocks: seq<Block>, j: nat, result: Option<nat>, call: ToolFields)
    requires j < |blocks| && IsUseOf(blocks[j], call.id)
    requires result.Some? ==> LastOutcome(blocks, call.id, result.value)
    requires result.None? ==> forall m :: 0 <= m < |blocks| ==> !IsResultOf(blocks[m], call.id)
    ensures RenewedIn(blocks, Upsert(Cards(blocks, Some(j), result), call).blocks, j, call)
  {
    var first := blocks[j := Renewed(blocks[j], call)];
    assert UpsertUse(Cards(blocks, Some(j), result), call) == Cards(first, Some(j), result);
    var now := UpsertResult(Cards(first, Some(j), result), call).blocks;
    if result.Some? {
      assert now == first[result.value := RenewedOutcome(blocks[result.value], call)];
      forall m: nat | m < |blocks| ensures LastOutcome(blocks, call.id, m) <==> m == result.value {
        if m < result.value { assert IsResultOf(blocks[result.value], call.id); }
      }
    } else {
      assert now == first + now[|blocks|..];
    }
  }

  // ---- a conversation ----

  /** One exchange: what was asked, what the agent did, and the turn's end if it was recorded. */
  datatype Exchange = Exchange(asked: nat, blocks: seq<Block>, work: seq<Entry>, end: Option<End>)

  datatype End = End(at: nat, report: Report)

  /** The agent's work is its own: each update is of a call the exchange began. */
  ghost predicate WellFormed(x: Exchange) {
    && (forall i :: 0 <= i < |x.work| ==> IsWork(x.work[i])) && PlanIdIsFree(Said(x.work))
    && (forall i :: 0 <= i < |x.work| && x.work[i].payload.ToolCallUpdate? ==>
          Calls(Said(x.work)[..i], x.work[i].payload.call.id) != [])
  }

  function Recorded(x: Exchange): seq<Record> {
    [EntryLine(Prompt(x.asked, x.blocks, false))] + Lines(x.work)
    + if x.end.Some? then [EntryLine(TurnEnd(x.end.value.at, x.end.value.report))] else []
  }

  function Stream(xs: seq<Exchange>): seq<Record> {
    if xs == [] then [] else Stream(xs[..|xs|-1]) + Recorded(xs[|xs|-1])
  }

  predicate Answered(x: Exchange) {
    Told(Said(x.work)) != [] || (x.end.Some? && x.end.value.report.usage.Some?)
  }

  /** The turns of one exchange behind `was`: the message, and the answer if there was any. */
  ghost predicate Adds(was: seq<Turn>, now: seq<Turn>, x: Exchange) {
    var report := if x.end.Some? then x.end.value.report else NO_REPORT;
    var until := if x.end.Some? then x.end.value.at else if x.work == [] then x.asked else x.work[|x.work|-1].t;
    Gains(was + [UserTurn(|was|, x.blocks, x.asked)], now, Answered(x), x.asked, Said(x.work), until, report, true)
  }

  /** The turns are the exchanges, in order. */
  ghost predicate Tells(turns: seq<Turn>, xs: seq<Exchange>)
    decreases |xs|
  {
    if xs == [] then turns == []
    else exists cut :: 0 <= cut <= |turns| && Tells(turns[..cut], xs[..|xs|-1]) && Adds(turns[..cut], turns, xs[|xs|-1])
  }

  lemma ExchangeAdds(before: seq<Record>, x: Exchange)
    requires WellFormed(x)
    ensures Adds(Project(before), Project(before + Recorded(x)), x)
  {
    var asked := before + [EntryLine(Prompt(x.asked, x.blocks, false))];
    PromptIsAppended(before, x.asked, x.blocks, false);
    if x.work == [] {
      assert Lines(x.work) == [] && Said(x.work) == [] && Told([]) == [];
      if x.end.Some? {
        assert before + Recorded(x) == asked + [] + [EntryLine(TurnEnd(x.end.value.at, x.end.value.report))];
        EndWithoutWork(before, x.asked, x.blocks, [], x.end.value.at, x.end.value.report);
        assert asked + [] == asked;
      } else {
        assert before + Recorded(x) == asked;
      }
    } else {
      OwnWorkIsStretch(Project(asked), x);
      if x.end.Some? {
        assert before + Recorded(x) == asked + Lines(x.work) + [EntryLine(TurnEnd(x.end.value.at, x.end.value.report))];
        EndedStretchIsOneTurn(asked, x.work, x.end.value.at, x.end.value.report);
      } else {
        assert before + Recorded(x) == asked + Lines(x.work);
        StretchIsOneTurn(asked, x.work);
      }
    }
  }

  lemma OwnWorkIsStretch(turns: seq<Turn>, x: Exchange)
    requires WellFormed(x)
    ensures IsStretch(turns, x.work)
  {
    forall i | 0 <= i < |Said(x.work)| && Said(x.work)[i].ToolCallUpdate?
      ensures Calls(Said(x.work)[..i], Said(x.work)[i].call.id) != []
    {
      assert Said(x.work)[i] == x.work[i].payload;
    }
  }

  /** The whole history of a recorded conversation: message for message as it was sent, each with one
      answer that draws what the agent told, dated and reported as recorded. */
  lemma {:induction false} HistoryTellsTheConversation(xs: seq<Exchange>)
    requires forall i :: 0 <= i < |xs| ==> WellFormed(xs[i])
    ensures Tells(Project(Stream(xs)), xs)
    decreases |xs|
  {
    if xs != [] {
      var front, x := xs[..|xs|-1], xs[|xs|-1];
      HistoryTellsTheConversation(front);
      ExchangeAdds(Stream(front), x);
      var was, now := Project(Stream(front)), Project(Stream(xs));
      assert now[..|was|] == was;
    }
  }

  // ---- the user's messages, whatever the agent did ----

  /** No message reaches the file but by a prompt, and no prompt holds a tool card. */
  ghost predicate OnlyPrompts(rs: seq<Record>) {
    forall i :: 0 <= i < |rs| && rs[i].EntryLine? ==>
      && (rs[i].entry.Update? ==> !rs[i].entry.payload.UserChunk?)
      && (rs[i].entry.Prompt? ==> NoCards(rs[i].entry.blocks))
  }

  predicate NoCards(blocks: seq<Block>) { forall j :: 0 <= j < |blocks| ==> !blocks[j].ToolUse? }

  datatype Sent = Sent(blocks: seq<Block>, t: nat)

  function Messages(turns: seq<Turn>): seq<Sent> {
    if turns == [] then []
    else
      var last := turns[|turns|-1];
      Messages(turns[..|turns|-1]) + if last.role.User? then [Sent(last.blocks, last.timestamp)] else []
  }

  function Prompts(rs: seq<Record>): seq<Sent> {
    if rs == [] then []
    else
      var last := rs[|rs|-1];
      Prompts(rs[..|rs|-1])
      + if last.EntryLine? && last.entry.Prompt? then [Sent(last.entry.blocks, last.entry.t)] else []
  }

  ghost predicate UsersDrawNothing(turns: seq<Turn>) {
    forall k :: 0 <= k < |turns| && turns[k].role.User? ==> NoCards(turns[k].blocks)
  }

  lemma MessagesOfOneMore(turns: seq<Turn>, turn: Turn)
    ensures Messages(turns + [turn]) ==
      Messages(turns) + if turn.role.User? then [Sent(turn.blocks, turn.timestamp)] else []
  {
    assert (turns + [turn])[..|turns|] == turns;
  }

  lemma {:induction false} MessagesOfChanged(turns: seq<Turn>, k: nat, turn: Turn)
    requires k < |turns| && turns[k].role.Assistant? && turn.role.Assistant?
    ensures Messages(turns[k := turn]) == Messages(turns)
  {
    var n := |turns| - 1;
    if k < n {
      MessagesOfChanged(turns[..n], k, turn);
      assert turns[k := turn][..n] == turns[..n][k := turn];
    } else {
      assert turns[k := turn][..n] == turns[..n];
    }
  }

  lemma AnswerIsNoMessage(turns: seq<Turn>, turn: Turn)
    requires UsersDrawNothing(turns) && turn.role.Assistant?
    ensures Messages(turns + [turn]) == Messages(turns) && UsersDrawNothing(turns + [turn])
  {
    MessagesOfOneMore(turns, turn);
    assert Messages(turns) + [] == Messages(turns);
  }

  lemma FlushAddsNoMessage(s: State)
    requires UsersDrawNothing(s.turns)
    ensures Messages(Flush(s).turns) == Messages(s.turns) && UsersDrawNothing(Flush(s).turns)
  {
    if s.pending.Some? {
      AnswerIsNoMessage(s.turns, Close(s.pending.value, |s.turns|));
    }
  }

  lemma {:induction false} ClosedCardIsDrawn(turns: seq<Turn>, from: nat, id: string)
    ensures var k := ClosedCard(turns, from, id);
      k.Some? ==> exists j :: 0 <= j < |turns[k.value].blocks| && turns[k.value].blocks[j].ToolUse?
    decreases |turns|
  {
    if |turns| > from {
      LastUseIs(turns[|turns|-1].blocks, id);
      ClosedCardIsDrawn(turns[..|turns|-1], from, id);
    }
  }

  lemma EndAddsNoMessage(s: State, t: nat, r: Report)
    requires UsersDrawNothing(s.turns)
    ensures Messages(OnTurnEnd(s, t, r).turns) == Messages(s.turns) && UsersDrawNothing(OnTurnEnd(s, t, r).turns)
  {
    if s.pending.Some? {
      FlushAddsNoMessage(s.(pending := Some(ApplyReport(s.pending.value, r, !s.steered).(lastAt := t))));
    } else if s.promptStart.Some? && LastAssistant(s.turns, s.promptStart.value).None? && r.usage.Some? {
      FlushAddsNoMessage(
        s.(pending := Some(ApplyReport(NewPending(OrElse(s.startHint, t)), r, !s.steered).(lastAt := t))));
    } else if s.promptStart.Some? && LastAssistant(s.turns, s.promptStart.value).Some? {
      LastAssistantIs(s.turns, s.promptStart.value);
      var k := LastAssistant(s.turns, s.promptStart.value).value;
      var turn := s.turns[k];
      MessagesOfChanged(s.turns, k, turn.(model := Or(r.model, turn.model), usage := Or(r.usage, turn.usage)));
    }
  }

  lemma UpdateAddsNoMessage(s: State, t: nat, u: Payload)
    requires UsersDrawNothing(s.turns) && !u.UserChunk?
    ensures Messages(OnUpdate(s, t, u).turns) == Messages(s.turns) && UsersDrawNothing(OnUpdate(s, t, u).turns)
  {
    if u.ToolCallUpdate? && ClosedTarget(s, u.call).Some? {
      var k := ClosedTarget(s, u.call).value;
      ClosedCardIsDrawn(s.turns, if s.betweenTurns then 0 else OrElse(s.promptStart, 0), u.call.id);
      assert s.turns[k].role.Assistant?;
      MessagesOfChanged(s.turns, k, OnUpdate(s, t, u).turns[k]);
    }
  }

  lemma {:induction false} MessagesSoFar(rs: seq<Record>)
    requires OnlyPrompts(rs)
    ensures Messages(Read(INIT, rs).turns) == Prompts(rs) && UsersDrawNothing(Read(INIT, rs).turns)
    decreases |rs|
  {
    if rs != [] {
      var front, r := rs[..|rs|-1], rs[|rs|-1];
      assert rs == front + [r];
      MessagesSoFar(front);
      var s := Read(INIT, front);
      ReadConcat(INIT, front, [r]);
      assert [r][1..] == [] && Read(s, [r]) == Read(StepRecord(s, r), []) == StepRecord(s, r);
      assert Prompts(front) + [] == Prompts(front);
      MessagesOfStep(s, r);
    }
  }

  lemma MessagesOfStep(s: State, r: Record)
    requires UsersDrawNothing(s.turns) && OnlyPrompts([r])
    ensures UsersDrawNothing(StepRecord(s, r).turns)
    ensures Messages(StepRecord(s, r).turns) ==
      Messages(s.turns) + if r.EntryLine? && r.entry.Prompt? then [Sent(r.entry.blocks, r.entry.t)] else []
  {
    assert [r][0] == r && Messages(s.turns) + [] == Messages(s.turns);
    if r.EntryLine? {
      match r.entry
      case Prompt(t, blocks, _) =>
        FlushAddsNoMessage(s);
        MessagesOfOneMore(Flush(s).turns, UserTurn(|Flush(s).turns|, blocks, t));
      case TurnEnd(t, report) => EndAddsNoMessage(s, t, report);
      case Update(t, u) => UpdateAddsNoMessage(s, t, u);
    }
  }

  /** The user's messages are the recorded prompts, in order, with their blocks and times, whatever the
      agent did between them, steered into or not. */
  lemma MessagesAreThePrompts(rs: seq<Record>)
    requires OnlyPrompts(rs)
    ensures Messages(Project(rs)) == Prompts(rs)
  {
    MessagesSoFar(rs);
    FlushAddsNoMessage(Read(INIT, rs));
  }
}
