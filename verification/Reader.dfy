/** The history reader: recorded entries projected into message turns. */
module Reader {
  import opened Options
  import opened Records

  datatype Role = User | Assistant

  /** `id` is the number in the source's `acp-{seq}`. */
  datatype Turn = Turn(id: nat, role: Role, blocks: seq<Block>, timestamp: nat,
                       usage: Option<Usage>, duration: Option<nat>, model: Option<string>,
                       completedAt: Option<nat>)

  /** The assistant turn under construction. */
  datatype Pending = Pending(blocks: seq<Block>, startedAt: nat, lastAt: nat,
                             uses: map<string, nat>, results: map<string, nat>,
                             usage: Option<Usage>, duration: Option<nat>, model: Option<string>,
                             hasContent: bool)

  datatype State = State(turns: seq<Turn>, pending: Option<Pending>, promptJustRecorded: bool,
                         startHint: Option<nat>, proseOpen: bool, betweenTurns: bool,
                         promptStart: Option<nat>, steered: bool)

  const INIT := State([], None, false, None, false, false, None, false)

  function NewPending(at: nat): Pending {
    Pending([], at, at, map[], map[], None, None, None, false)
  }

  function Or<T>(first: Option<T>, second: Option<T>): Option<T> {
    if first.Some? then first else second
  }

  function OrElse<T>(first: Option<T>, fallback: T): T {
    if first.Some? then first.value else fallback
  }

  // ---- building an assistant turn ----

  function AddText(blocks: seq<Block>, text: string, kind: ChunkKind): seq<Block> {
    var n := |blocks|;
    if n > 0 && kind.Message? && blocks[n-1].Text? then blocks[..n-1] + [Text(blocks[n-1].text + text)]
    else if n > 0 && kind.Thought? && blocks[n-1].Thinking? then blocks[..n-1] + [Thinking(blocks[n-1].thought + text)]
    else blocks + [if kind.Message? then Text(text) else Thinking(text)]
  }

  function PushText(p: Pending, text: string, kind: ChunkKind): Pending {
    if text == "" then p else p.(blocks := AddText(p.blocks, text, kind), hasContent := true)
  }

  /** The blocks a tool call is drawn in, and where its card sits among them. */
  datatype Cards = Cards(blocks: seq<Block>, use: Option<nat>, result: Option<nat>)

  function UpsertUse(c: Cards, call: ToolFields): Cards {
    if c.use.None? then
      Cards(c.blocks + [ToolUse(call.id, OrElse(call.title, "tool"), call.input, call.meta)],
            Some(|c.blocks|), c.result)
    else if c.use.value < |c.blocks| && c.blocks[c.use.value].ToolUse? then
      var card := c.blocks[c.use.value];
      var renamed := if call.title.Some? && call.title.value != "" then call.title.value else card.name;
      c.(blocks := c.blocks[c.use.value := card.(name := renamed, input := Or(call.input, card.input),
                                                 meta := Or(call.meta, card.meta))])
    else c
  }

  function UpsertResult(c: Cards, call: ToolFields): Cards {
    if call.output.None? && call.images == [] && !call.failed then c
    else if c.result.None? then
      Cards(c.blocks + [ToolResult(call.id, call.output, call.failed, call.images)],
            c.use, Some(|c.blocks|))
    else if c.result.value < |c.blocks| && c.blocks[c.result.value].ToolResult? then
      var card := c.blocks[c.result.value];
      c.(blocks := c.blocks[c.result.value :=
           card.(output := Or(call.output, card.output), isError := call.failed,
                 images := if call.images == [] then card.images else call.images)])
    else c
  }

  function Upsert(c: Cards, call: ToolFields): Cards { UpsertResult(UpsertUse(c, call), call) }

  function Lookup(m: map<string, nat>, id: string): Option<nat> { if id in m then Some(m[id]) else None }

  function Enter(m: map<string, nat>, id: string, at: Option<nat>): map<string, nat> {
    if at.Some? then m[id := at.value] else m
  }

  function UpsertPending(p: Pending, call: ToolFields): Pending {
    var c := Upsert(Cards(p.blocks, Lookup(p.uses, call.id), Lookup(p.results, call.id)), call);
    p.(blocks := c.blocks, uses := Enter(p.uses, call.id, c.use),
       results := Enter(p.results, call.id, c.result), hasContent := true)
  }

  const PLAN_ID := "acp-plan"

  function UpsertPlan(p: Pending, todos: string): Pending {
    if PLAN_ID in p.uses then
      var i := p.uses[PLAN_ID];
      if i < |p.blocks| && p.blocks[i].ToolUse?
      then p.(blocks := p.blocks[i := p.blocks[i].(input := Some(todos))], hasContent := true)
      else p.(hasContent := true)
    else
      p.(blocks := p.blocks + [ToolUse(PLAN_ID, "TodoWrite", Some(todos), None)],
         uses := p.uses[PLAN_ID := |p.blocks|], hasContent := true)
  }

  // ---- closing it ----

  function Close(p: Pending, id: nat): Turn {
    var span := if p.lastAt >= p.startedAt then Some(p.lastAt - p.startedAt) else None;
    Turn(id, Assistant, p.blocks, p.startedAt, p.usage, Or(p.duration, span), p.model, Some(p.lastAt))
  }

  function Flush(s: State): State {
    if s.pending.None? then s
    else
      var p := s.pending.value;
      if !p.hasContent && p.usage.None? then s.(pending := None)
      else s.(pending := None, turns := s.turns + [Close(p, |s.turns|)])
  }

  function ApplyReport(p: Pending, r: Report, wholeTurn: bool): Pending {
    p.(duration := if wholeTurn then Or(r.duration, p.duration) else p.duration,
       model := Or(r.model, p.model), usage := Or(r.usage, p.usage))
  }

  /** The last assistant turn at or after `from`. */
  function LastAssistant(turns: seq<Turn>, from: nat): Option<nat>
    decreases |turns|
  {
    if |turns| <= from then None
    else if turns[|turns|-1].role.Assistant? then Some(|turns|-1)
    else LastAssistant(turns[..|turns|-1], from)
  }

  // ---- one entry at a time ----

  function OnPrompt(s0: State, t: nat, blocks: seq<Block>, steer: bool): State {
    var s := Flush(s0);
    State(s.turns + [Turn(|s.turns|, User, blocks, t, None, None, None, None)], None, true, Some(t),
          false, false, if steer then s.promptStart else Some(|s.turns|), steer)
  }

  function ReportOnClosed(s: State, r: Report): State {
    var last := if s.promptStart.Some? then LastAssistant(s.turns, s.promptStart.value) else None;
    if last.Some? && last.value < |s.turns| then
      var turn := s.turns[last.value];
      s.(turns := s.turns[last.value := turn.(model := Or(r.model, turn.model), usage := Or(r.usage, turn.usage))])
    else s
  }

  function OnTurnEnd(s: State, t: nat, r: Report): State {
    var closing :=
      if s.pending.Some? then
        s.(pending := Some(ApplyReport(s.pending.value, r, !s.steered).(lastAt := t)))
      else if s.promptStart.Some? && LastAssistant(s.turns, s.promptStart.value).None? && r.usage.Some? then
        s.(pending := Some(ApplyReport(NewPending(OrElse(s.startHint, t)), r, !s.steered).(lastAt := t)))
      else ReportOnClosed(s, r);
    Flush(closing).(promptJustRecorded := false, startHint := None, proseOpen := false,
                    betweenTurns := true, steered := false, promptStart := None)
  }

  /** The open turn an agent update lands in, opened at the prompt's time when there is one. */
  function Opened(s: State, at: nat): Pending {
    (if s.pending.Some? then s.pending.value else NewPending(OrElse(s.startHint, at))).(lastAt := at)
  }

  function WithOpen(s: State, p: Pending): State {
    s.(pending := Some(p), promptJustRecorded := false,
       startHint := if s.pending.Some? then s.startHint else None)
  }

  function OnUserChunk(s0: State, at: nat, input: Option<UserInput>): State {
    if s0.promptJustRecorded || input.None? then s0
    else
      var isText := input.value.Prose?;
      var block := if isText then Text(input.value.prose) else input.value.block;
      var s := Flush(s0).(startHint := Some(at), proseOpen := isText);
      var n := |s.turns|;
      if n > 0 && s.turns[n-1].role.User? then
        var last := s.turns[n-1];
        var m := |last.blocks|;
        var blocks :=
          if isText && s0.proseOpen && m > 0 && last.blocks[m-1].Text?
          then last.blocks[..m-1] + [Text(last.blocks[m-1].text + block.text)]
          else last.blocks + [block];
        s.(turns := s.turns[..n-1] + [last.(blocks := blocks)])
      else
        s.(turns := s.turns + [Turn(n, User, [block], at, None, None, None, None)])
  }

  /** The last block of a closed turn that satisfies the test, searched from the end. */
  function LastUse(blocks: seq<Block>, id: string): Option<nat> {
    if blocks == [] then None
    else if blocks[|blocks|-1].ToolUse? && blocks[|blocks|-1].useId == id then Some(|blocks|-1)
    else LastUse(blocks[..|blocks|-1], id)
  }

  function LastResult(blocks: seq<Block>, id: string): Option<nat> {
    if blocks == [] then None
    else if blocks[|blocks|-1].ToolResult? && blocks[|blocks|-1].resultId == id then Some(|blocks|-1)
    else LastResult(blocks[..|blocks|-1], id)
  }

  /** The latest closed turn at or after `from` that drew a card for the call. */
  function ClosedCard(turns: seq<Turn>, from: nat, id: string): (closed: Option<nat>)
    ensures closed.Some? ==> closed.value < |turns|
    decreases |turns|
  {
    if |turns| <= from then None
    else if LastUse(turns[|turns|-1].blocks, id).Some? then Some(|turns|-1)
    else ClosedCard(turns[..|turns|-1], from, id)
  }

  /** The closed turn an update of the call belongs to, if it is not the open one's. */
  function ClosedTarget(s: State, call: ToolFields): (closed: Option<nat>)
    ensures closed.Some? ==> closed.value < |s.turns|
  {
    var heldByOpen := s.pending.Some? && call.id in s.pending.value.uses;
    var reach := if s.betweenTurns then Some(0) else s.promptStart;
    if reach.Some? && !heldByOpen then ClosedCard(s.turns, reach.value, call.id) else None
  }

  function OnToolCallUpdate(s: State, at: nat, call: ToolFields): State {
    var closed := ClosedTarget(s, call);
    if closed.Some? then
      var turn := s.turns[closed.value];
      var c := Upsert(Cards(turn.blocks, LastUse(turn.blocks, call.id), LastResult(turn.blocks, call.id)), call);
      s.(turns := s.turns[closed.value := turn.(blocks := c.blocks)])
    else WithOpen(s, UpsertPending(Opened(s, at), call))
  }

  function OnUpdate(s: State, at: nat, u: Payload): State {
    match u
    case TextChunk(c) => WithOpen(s, PushText(Opened(s, at), c.text, c.kind))
    case ProjectedChunk(kind, text) => WithOpen(s, PushText(Opened(s, at), text, kind))
    case ImageChunk(image) =>
      var p := Opened(s, at);
      WithOpen(s, p.(blocks := p.blocks + [Image(image)], hasContent := true))
    case UserChunk(input) => OnUserChunk(s, at, input)
    case ToolCall(call) => WithOpen(s, UpsertPending(Opened(s, at), call))
    case ToolCallUpdate(call) => OnToolCallUpdate(s, at, call)
    case Plan(todos) => WithOpen(s, UpsertPlan(Opened(s, at), todos))
    case Ignored => s
  }

  function Step(s: State, e: Entry): State {
    match e
    case Prompt(t, blocks, steer) => OnPrompt(s, t, blocks, steer)
    case TurnEnd(t, report) => OnTurnEnd(s, t, report)
    case Update(t, payload) => OnUpdate(s, t, payload)
  }

  /** A header line is consumed by the file parser and never reaches the projection. */
  function StepRecord(s: State, r: Record): State {
    if r.HeaderLine? then s else Step(s, r.entry)
  }

  function Read(s: State, rs: seq<Record>): State
    decreases |rs|
  {
    if rs == [] then s else Read(StepRecord(s, rs[0]), rs[1..])
  }

  /** What the user sees of a recorded file. */
  function Project(rs: seq<Record>): seq<Turn> { Flush(Read(INIT, rs)).turns }

  lemma {:induction false} ReadConcat(s: State, a: seq<Record>, b: seq<Record>)
    ensures Read(s, a + b) == Read(Read(s, a), b)
    decreases |a|
  {
    if a == [] {
      assert a + b == b;
    } else {
      assert (a + b)[0] == a[0] && (a + b)[1..] == a[1..] + b;
      ReadConcat(StepRecord(s, a[0]), a[1..], b);
    }
  }

  /** `project_turns`: one pass over the entries. */
  method ProjectTurns(records: seq<Record>) returns (turns: seq<Turn>)
    ensures turns == Project(records)
  {
    var s := INIT;
    for i := 0 to |records|
      invariant s == Read(INIT, records[..i])
    {
      ReadConcat(INIT, records[..i], [records[i]]);
      assert records[..i] + [records[i]] == records[..i+1];
      assert Read(s, [records[i]]) == StepRecord(s, records[i]);
      s := StepRecord(s, records[i]);
    }
    assert records[..|records|] == records;
    turns := Flush(s).turns;
  }
}
