/**
 What a turn draws, in terms of what the agent told.

 The blocks of a turn are described without the machine that builds them: their outline is what was
 told in its order, text of one kind runs on in one block, and each tool call has one card that shows
 the last that was given. Then the open turn of the reader is proved to draw just that.
 */
module TurnDrawing {
  import opened Options
  import opened Records
  import opened Reader
  import opened Texts

  // ---- what the blocks of a turn show, in order ----

  datatype Item = Letter(kind: ChunkKind, c: char) | Picture(image: Json) | Card(id: string) | Outcome(id: string)

  function Letters(kind: ChunkKind, text: string): seq<Item> {
    seq(|text|, i requires 0 <= i < |text| => Letter(kind, text[i]))
  }

  function Shown(b: Block): seq<Item> {
    match b
    case Text(text) => Letters(Message, text)
    case Thinking(thought) => Letters(Thought, thought)
    case Image(image) => [Picture(image)]
    case ToolUse(id, _, _, _) => [Card(id)]
    case ToolResult(id, _, _, _) => [Outcome(id)]
  }

  function Outline(blocks: seq<Block>): seq<Item> {
    if blocks == [] then [] else Outline(blocks[..|blocks|-1]) + Shown(blocks[|blocks|-1])
  }

  lemma OutlineOfOneMore(blocks: seq<Block>, b: Block)
    ensures Outline(blocks + [b]) == Outline(blocks) + Shown(b)
  {
    assert (blocks + [b])[..|blocks|] == blocks;
  }

  /** A block replaced by one that shows the same. */
  lemma {:induction false} OutlineOfChanged(blocks: seq<Block>, i: nat, b: Block)
    requires i < |blocks| && Shown(b) == Shown(blocks[i])
    ensures Outline(blocks[i := b]) == Outline(blocks)
  {
    var n := |blocks| - 1;
    if i < n {
      OutlineOfChanged(blocks[..n], i, b);
      assert blocks[i := b][..n] == blocks[..n][i := b];
    } else {
      assert blocks[i := b][..n] == blocks[..n];
    }
  }

  // ---- what the agent told ----

  function CallOf(u: Payload): Option<ToolFields> {
    match u
    case ToolCall(call) => Some(call)
    case ToolCallUpdate(call) => Some(call)
    case _ => None
  }

  predicate IsCallOf(u: Payload, id: string) { CallOf(u).Some? && CallOf(u).value.id == id }

  /** What was said of one call, in order. */
  function Calls(us: seq<Payload>, id: string): seq<ToolFields> {
    if us == [] then []
    else
      var last := us[|us|-1];
      Calls(us[..|us|-1], id) + if IsCallOf(last, id) then [CallOf(last).value] else []
  }

  function Plans(us: seq<Payload>): seq<string> {
    if us == [] then []
    else
      var last := us[|us|-1];
      Plans(us[..|us|-1]) + if last.Plan? then [last.todos] else []
  }

  predicate ShowsOutcome(call: ToolFields) { call.output.Some? || call.images != [] || call.failed }

  predicate SomeOutcome(calls: seq<ToolFields>) { exists i :: 0 <= i < |calls| && ShowsOutcome(calls[i]) }

  lemma SomeOutcomeSnoc(calls: seq<ToolFields>, call: ToolFields)
    ensures SomeOutcome(calls + [call]) <==> SomeOutcome(calls) || ShowsOutcome(call)
  {
    assert (calls + [call])[|calls|] == call;
    if SomeOutcome(calls) {
      var i :| 0 <= i < |calls| && ShowsOutcome(calls[i]);
      assert (calls + [call])[i] == calls[i];
    }
  }

  /** What one update adds to the outline: a call's card at its first mention, its outcome when it
      first has one, the plan's card once. */
  function Added(us: seq<Payload>, u: Payload): seq<Item> {
    match u
    case TextChunk(c) => Letters(c.kind, c.text)
    case ProjectedChunk(kind, text) => Letters(kind, text)
    case ImageChunk(image) => [Picture(image)]
    case ToolCall(call) => AddedByCall(us, call)
    case ToolCallUpdate(call) => AddedByCall(us, call)
    case Plan(_) => if Plans(us) == [] then [Card(PLAN_ID)] else []
    case UserChunk(_) => []
    case Ignored => []
  }

  function AddedByCall(us: seq<Payload>, call: ToolFields): seq<Item> {
    (if Calls(us, call.id) == [] then [Card(call.id)] else [])
    + (if ShowsOutcome(call) && !SomeOutcome(Calls(us, call.id)) then [Outcome(call.id)] else [])
  }

  function Told(us: seq<Payload>): seq<Item> {
    if us == [] then [] else Told(us[..|us|-1]) + Added(us[..|us|-1], us[|us|-1])
  }

  /** The last value given. */
  function LastGiven<T>(values: seq<Option<T>>): Option<T> {
    if values == [] then None
    else if values[|values|-1].Some? then values[|values|-1]
    else LastGiven(values[..|values|-1])
  }

  lemma LastGivenSnoc<T>(values: seq<Option<T>>, v: Option<T>)
    ensures LastGiven(values + [v]) == if v.Some? then v else LastGiven(values)
  {
    assert (values + [v])[..|values|] == values;
  }

  function Titles(calls: seq<ToolFields>): seq<Option<string>> {
    seq(|calls|, i requires 0 <= i < |calls| => if calls[i].title == Some("") then None else calls[i].title)
  }

  function Inputs(calls: seq<ToolFields>): seq<Option<string>> {
    seq(|calls|, i requires 0 <= i < |calls| => calls[i].input)
  }

  function Metas(calls: seq<ToolFields>): seq<Option<Json>> {
    seq(|calls|, i requires 0 <= i < |calls| => calls[i].meta)
  }

  function Outputs(calls: seq<ToolFields>): seq<Option<string>> {
    seq(|calls|, i requires 0 <= i < |calls| => calls[i].output)
  }

  function Pictures(calls: seq<ToolFields>): seq<Option<seq<Json>>> {
    seq(|calls|, i requires 0 <= i < |calls| => if calls[i].images == [] then None else Some(calls[i].images))
  }

  function Failures(calls: seq<ToolFields>): seq<Option<bool>> {
    seq(|calls|, i requires 0 <= i < |calls| => if ShowsOutcome(calls[i]) then Some(calls[i].failed) else None)
  }

  /** The card of a call: the last title, input and `_meta` given. (A title that is empty counts only
      when it is the first and no other comes.) */
  function CardOf(calls: seq<ToolFields>): Block
    requires calls != []
  {
    ToolUse(calls[0].id, OrElse(LastGiven(Titles(calls)), OrElse(calls[0].title, "tool")),
            LastGiven(Inputs(calls)), LastGiven(Metas(calls)))
  }

  /** Its outcome: the last output and images given, and whether the last that had any failed. */
  function OutcomeOf(calls: seq<ToolFields>): Block
    requires calls != []
  {
    ToolResult(calls[0].id, LastGiven(Outputs(calls)), OrElse(LastGiven(Failures(calls)), false),
               OrElse(LastGiven(Pictures(calls)), []))
  }

  function PlanCard(plans: seq<string>): Block
    requires plans != []
  {
    ToolUse(PLAN_ID, "TodoWrite", Some(plans[|plans|-1]), None)
  }

  /** A block shows what was told of it. */
  predicate Fits(b: Block, us: seq<Payload>) {
    match b
    case Text(text) => text != ""
    case Thinking(thought) => thought != ""
    case Image(_) => true
    case ToolUse(id, _, _, _) =>
      if id == PLAN_ID then Plans(us) != [] && b == PlanCard(Plans(us))
      else Calls(us, id) != [] && b == CardOf(Calls(us, id))
    case ToolResult(id, _, _, _) => Calls(us, id) != [] && SomeOutcome(Calls(us, id)) && b == OutcomeOf(Calls(us, id))
  }

  /** No text stands next to text of its own kind. */
  predicate Apart(blocks: seq<Block>) {
    forall i :: 0 <= i < |blocks| - 1 ==>
      !(blocks[i].Text? && blocks[i+1].Text?) && !(blocks[i].Thinking? && blocks[i+1].Thinking?)
  }

  /** The blocks draw what the agent told: in its order, text of one kind that runs on in one block,
      one card a call. */
  predicate Draws(blocks: seq<Block>, us: seq<Payload>) {
    && Outline(blocks) == Told(us)
    && Apart(blocks)
    && forall i :: 0 <= i < |blocks| ==> Fits(blocks[i], us)
  }

  /** No tool call goes by the plan's name. */
  predicate PlanIdIsFree(us: seq<Payload>) { forall u :: u in us ==> !IsCallOf(u, PLAN_ID) }

  predicate HasCard(us: seq<Payload>, id: string) {
    if id == PLAN_ID then Plans(us) != [] else Calls(us, id) != []
  }

  /** Each call told of has one card and, once it has had one, one outcome, and there are no others. */
  lemma {:induction false} OneCardACall(us: seq<Payload>, id: string)
    requires PlanIdIsFree(us)
    ensures multiset(Told(us))[Card(id)] == if HasCard(us, id) then 1 else 0
    ensures multiset(Told(us))[Outcome(id)] == if SomeOutcome(Calls(us, id)) then 1 else 0
  {
    if us != [] {
      var front, u := us[..|us|-1], us[|us|-1];
      assert us == front + [u] && u in us && forall x :: x in front ==> x in us;
      OneCardACall(front, id);
      AddedOnce(front, u, id);
      assert multiset(Told(us)) == multiset(Told(front)) + multiset(Added(front, u));
      CardsOfOneMore(front, u, id);
    }
  }

  lemma CardsOfOneMore(us: seq<Payload>, u: Payload, id: string)
    requires !IsCallOf(u, PLAN_ID)
    ensures HasCard(us + [u], id) <==> HasCard(us, id) || (if id == PLAN_ID then u.Plan? else IsCallOf(u, id))
    ensures SomeOutcome(Calls(us + [u], id)) <==>
      SomeOutcome(Calls(us, id)) || (IsCallOf(u, id) && ShowsOutcome(CallOf(u).value))
  {
    OneMore(us, u);
    if IsCallOf(u, id) {
      SomeOutcomeSnoc(Calls(us, id), CallOf(u).value);
    } else {
      assert Calls(us, id) + [] == Calls(us, id);
    }
  }

  lemma NoCardInLetters(kind: ChunkKind, text: string, id: string)
    ensures multiset(Letters(kind, text))[Card(id)] == 0 && multiset(Letters(kind, text))[Outcome(id)] == 0
  {
    assert Card(id) !in Letters(kind, text) && Outcome(id) !in Letters(kind, text);
  }

  lemma AddedOnce(us: seq<Payload>, u: Payload, id: string)
    requires !IsCallOf(u, PLAN_ID)
    ensures multiset(Added(us, u))[Card(id)] ==
      if (if id == PLAN_ID then u.Plan? && Plans(us) == [] else IsCallOf(u, id) && Calls(us, id) == []) then 1 else 0
    ensures multiset(Added(us, u))[Outcome(id)] ==
      if IsCallOf(u, id) && ShowsOutcome(CallOf(u).value) && !SomeOutcome(Calls(us, id)) then 1 else 0
  {
    match u
    case TextChunk(c) => NoCardInLetters(c.kind, c.text, id);
    case ProjectedChunk(kind, text) => NoCardInLetters(kind, text, id);
    case ToolCall(call) => CallAddedOnce(us, call, id);
    case ToolCallUpdate(call) => CallAddedOnce(us, call, id);
    case _ =>
  }

  lemma CallAddedOnce(us: seq<Payload>, call: ToolFields, id: string)
    ensures var added := multiset(AddedByCall(us, call));
      && added[Card(id)] == (if call.id == id && Calls(us, id) == [] then 1 else 0)
      && added[Outcome(id)] == (if call.id == id && ShowsOutcome(call) && !SomeOutcome(Calls(us, id)) then 1 else 0)
  {
    var card := if Calls(us, call.id) == [] then [Card(call.id)] else [];
    var outcome := if ShowsOutcome(call) && !SomeOutcome(Calls(us, call.id)) then [Outcome(call.id)] else [];
    assert multiset(card + outcome) == multiset(card) + multiset(outcome);
  }

  // ---- the open turn draws what it was told ----

  lemma OneMore(us: seq<Payload>, u: Payload)
    ensures Told(us + [u]) == Told(us) + Added(us, u)
    ensures forall id :: Calls(us + [u], id) == Calls(us, id) + if IsCallOf(u, id) then [CallOf(u).value] else []
    ensures Plans(us + [u]) == Plans(us) + if u.Plan? then [u.todos] else []
  {
    assert (us + [u])[..|us|] == us;
  }

  lemma CallsOfOthers(us: seq<Payload>, u: Payload, call: ToolFields)
    requires CallOf(u) == Some(call)
    ensures Calls(us + [u], call.id) == Calls(us, call.id) + [call] && Plans(us + [u]) == Plans(us)
    ensures forall id :: id != call.id ==> Calls(us + [u], id) == Calls(us, id)
  {
    OneMore(us, u);
    forall id | id != call.id ensures Calls(us + [u], id) == Calls(us, id) {
      assert Calls(us, id) + [] == Calls(us, id);
    }
    assert Plans(us) + [] == Plans(us);
  }

  lemma {:induction false} CallsAreOf(us: seq<Payload>, id: string)
    ensures forall i :: 0 <= i < |Calls(us, id)| ==> Calls(us, id)[i].id == id
  {
    if us != [] { CallsAreOf(us[..|us|-1], id); }
  }

  lemma TitleOfOneMore(calls: seq<ToolFields>, call: ToolFields)
    ensures LastGiven(Titles(calls + [call])) ==
      if call.title.Some? && call.title.value != "" then call.title else LastGiven(Titles(calls))
  {
    var title := if call.title == Some("") then None else call.title;
    assert Titles(calls + [call]) == Titles(calls) + [title];
    LastGivenSnoc(Titles(calls), title);
  }

  lemma InputOfOneMore(calls: seq<ToolFields>, call: ToolFields)
    ensures LastGiven(Inputs(calls + [call])) == Or(call.input, LastGiven(Inputs(calls)))
    ensures LastGiven(Metas(calls + [call])) == Or(call.meta, LastGiven(Metas(calls)))
  {
    assert Inputs(calls + [call]) == Inputs(calls) + [call.input];
    assert Metas(calls + [call]) == Metas(calls) + [call.meta];
    LastGivenSnoc(Inputs(calls), call.input);
    LastGivenSnoc(Metas(calls), call.meta);
  }

  lemma CardOfFirst(call: ToolFields)
    ensures CardOf([call]) == ToolUse(call.id, OrElse(call.title, "tool"), call.input, call.meta)
  {
    TitleOfOneMore([], call);
    InputOfOneMore([], call);
    assert [] + [call] == [call];
  }

  lemma CardOfOneMore(calls: seq<ToolFields>, call: ToolFields)
    requires calls != []
    ensures var card := CardOf(calls);
      CardOf(calls + [call]) ==
        card.(name := if call.title.Some? && call.title.value != "" then call.title.value else card.name,
              input := Or(call.input, card.input), meta := Or(call.meta, card.meta))
  {
    TitleOfOneMore(calls, call);
    InputOfOneMore(calls, call);
  }

  lemma OutcomeOfOneMore(calls: seq<ToolFields>, call: ToolFields)
    ensures calls != [] && !ShowsOutcome(call) ==> OutcomeOf(calls + [call]) == OutcomeOf(calls)
    ensures ShowsOutcome(call) && !SomeOutcome(calls) ==>
      OutcomeOf(calls + [call]) ==
        ToolResult((calls + [call])[0].id, call.output, call.failed, call.images)
    ensures ShowsOutcome(call) && calls != [] ==>
      var was := OutcomeOf(calls);
      OutcomeOf(calls + [call]) ==
        was.(output := Or(call.output, was.output), isError := call.failed,
             images := if call.images == [] then was.images else call.images)
  {
    var all := calls + [call];
    var pictures := if call.images == [] then None else Some(call.images);
    var failed := if ShowsOutcome(call) then Some(call.failed) else None;
    assert Outputs(all) == Outputs(calls) + [call.output];
    assert Pictures(all) == Pictures(calls) + [pictures];
    assert Failures(all) == Failures(calls) + [failed];
    LastGivenSnoc(Outputs(calls), call.output);
    LastGivenSnoc(Pictures(calls), pictures);
    LastGivenSnoc(Failures(calls), failed);
    if !SomeOutcome(calls) { NothingGiven(calls); }
  }

  lemma {:induction false} NothingGiven(calls: seq<ToolFields>)
    requires !SomeOutcome(calls)
    ensures LastGiven(Outputs(calls)) == None && LastGiven(Pictures(calls)) == None
  {
    if calls != [] {
      var front, last := calls[..|calls|-1], calls[|calls|-1];
      assert calls == front + [last];
      SomeOutcomeSnoc(front, last);
      NothingGiven(front);
      assert Outputs(calls) == Outputs(front) + [last.output];
      assert Pictures(calls) == Pictures(front) + [if last.images == [] then None else Some(last.images)];
      LastGivenSnoc(Outputs(front), last.output);
      LastGivenSnoc(Pictures(front), if last.images == [] then None else Some(last.images));
    }
  }

  /** The card each call should have by now. */
  function WantedCards(us: seq<Payload>): map<string, Block> {
    if us == [] then map[]
    else
      var was, u := WantedCards(us[..|us|-1]), us[|us|-1];
      if u.Plan? then was[PLAN_ID := if Plans(us) == [] then Text("") else PlanCard(Plans(us))]
      else if CallOf(u).None? || Calls(us, CallOf(u).value.id) == [] then was
      else was[CallOf(u).value.id := CardOf(Calls(us, CallOf(u).value.id))]
  }

  function WantedOutcomes(us: seq<Payload>): map<string, Block> {
    if us == [] then map[]
    else
      var was, u := WantedOutcomes(us[..|us|-1]), us[|us|-1];
      if CallOf(u).None? || !ShowsOutcome(CallOf(u).value) || Calls(us, CallOf(u).value.id) == [] then was
      else was[CallOf(u).value.id := OutcomeOf(Calls(us, CallOf(u).value.id))]
  }

  predicate Is(b: Block, use: bool) { if use then b.ToolUse? else b.ToolResult? }

  function IdOf(b: Block): string { if b.ToolUse? then b.useId else if b.ToolResult? then b.resultId else "" }

  /** The index finds each wanted block, and there are no others of its sort. */
  ghost predicate Indexed(blocks: seq<Block>, at: map<string, nat>, want: map<string, Block>, use: bool) {
    && at.Keys == want.Keys
    && (forall id :: id in want ==> Is(want[id], use) && IdOf(want[id]) == id)
    && (forall id :: id in at ==> at[id] < |blocks| && blocks[at[id]] == want[id])
    && (forall i :: 0 <= i < |blocks| && Is(blocks[i], use) ==> IdOf(blocks[i]) in at && at[IdOf(blocks[i])] == i)
  }

  lemma IndexAppend(blocks: seq<Block>, at: map<string, nat>, want: map<string, Block>, use: bool, b: Block)
    requires Indexed(blocks, at, want, use)
    requires Is(b, use) ==> IdOf(b) !in at
    ensures Is(b, use) ==> Indexed(blocks + [b], at[IdOf(b) := |blocks|], want[IdOf(b) := b], use)
    ensures !Is(b, use) ==> Indexed(blocks + [b], at, want, use)
  {
  }

  lemma IndexReplace(blocks: seq<Block>, at: map<string, nat>, want: map<string, Block>, use: bool, i: nat, b: Block)
    requires Indexed(blocks, at, want, use) && i < |blocks|
    requires Is(b, use) <==> Is(blocks[i], use)
    requires Is(b, use) ==> IdOf(b) == IdOf(blocks[i])
    ensures Is(b, use) ==> Indexed(blocks[i := b], at, want[IdOf(b) := b], use)
    ensures !Is(b, use) ==> Indexed(blocks[i := b], at, want, use)
  {
  }

  predicate IsCard(b: Block) { b.ToolUse? || b.ToolResult? }

  /** The cards stand where they stood. */
  predicate SameCards(was: seq<Block>, now: seq<Block>) {
    && |was| <= |now|
    && (forall i :: 0 <= i < |was| && IsCard(was[i]) ==> now[i] == was[i])
    && (forall i :: 0 <= i < |now| && IsCard(now[i]) ==> i < |was| && now[i] == was[i])
  }

  lemma IndexStays(was: seq<Block>, now: seq<Block>, at: map<string, nat>, want: map<string, Block>, use: bool)
    requires Indexed(was, at, want, use) && SameCards(was, now)
    ensures Indexed(now, at, want, use)
  {
    forall id | id in at ensures at[id] < |now| && now[at[id]] == want[id] {
      assert IsCard(was[at[id]]);
    }
  }

  predicate TextsFit(blocks: seq<Block>) {
    && Apart(blocks)
    && forall i :: 0 <= i < |blocks| ==>
         (blocks[i].Text? ==> blocks[i].text != "") && (blocks[i].Thinking? ==> blocks[i].thought != "")
  }

  ghost predicate Holds(p: Pending, us: seq<Payload>) {
    && Outline(p.blocks) == Told(us) && TextsFit(p.blocks)
    && Indexed(p.blocks, p.uses, WantedCards(us), true) && Indexed(p.blocks, p.results, WantedOutcomes(us), false)
    && (p.hasContent <==> Told(us) != [])
    && p.usage.None? && p.duration.None? && p.model.None?
  }

  lemma SameWanted(us: seq<Payload>, u: Payload)
    requires CallOf(u).None? && !u.Plan?
    ensures WantedCards(us + [u]) == WantedCards(us) && WantedOutcomes(us + [u]) == WantedOutcomes(us)
  {
    assert (us + [u])[..|us|] == us;
  }

  lemma WantedOfCall(us: seq<Payload>, u: Payload, call: ToolFields)
    requires CallOf(u) == Some(call)
    ensures WantedCards(us + [u]) == WantedCards(us)[call.id := CardOf(Calls(us, call.id) + [call])]
    ensures WantedOutcomes(us + [u]) ==
      if ShowsOutcome(call) then WantedOutcomes(us)[call.id := OutcomeOf(Calls(us, call.id) + [call])]
      else WantedOutcomes(us)
  {
    assert (us + [u])[..|us|] == us;
    CallsOfOthers(us, u, call);
  }

  lemma WantedOfPlan(us: seq<Payload>, todos: string)
    ensures WantedCards(us + [Plan(todos)]) == WantedCards(us)[PLAN_ID := PlanCard(Plans(us) + [todos])]
    ensures WantedOutcomes(us + [Plan(todos)]) == WantedOutcomes(us)
  {
    assert (us + [Plan(todos)])[..|us|] == us;
    OneMore(us, Plan(todos));
  }

  /** What is wanted is what was told. */
  lemma {:induction false} WantedIsTold(us: seq<Payload>, id: string)
    requires PlanIdIsFree(us)
    ensures id in WantedCards(us) <==> HasCard(us, id)
    ensures id in WantedCards(us) ==>
      WantedCards(us)[id] == if id == PLAN_ID then PlanCard(Plans(us)) else CardOf(Calls(us, id))
    ensures id in WantedOutcomes(us) <==> SomeOutcome(Calls(us, id))
    ensures id in WantedOutcomes(us) ==> Calls(us, id) != [] && WantedOutcomes(us)[id] == OutcomeOf(Calls(us, id))
  {
    if us != [] {
      var front, u := us[..|us|-1], us[|us|-1];
      assert us == front + [u] && u in us && forall x :: x in front ==> x in us;
      WantedIsTold(front, id);
      if CallOf(u).Some? {
        WantedByCall(front, u, CallOf(u).value, id);
      } else if u.Plan? {
        WantedOfPlan(front, u.todos);
        OneMore(front, u);
        assert Calls(front, id) + [] == Calls(front, id);
      } else {
        SameWanted(front, u);
        OneMore(front, u);
        assert Calls(front, id) + [] == Calls(front, id) && Plans(front) + [] == Plans(front);
      }
    }
  }

  lemma WantedByCall(us: seq<Payload>, u: Payload, call: ToolFields, id: string)
    requires CallOf(u) == Some(call) && call.id != PLAN_ID
    requires id in WantedCards(us) <==> HasCard(us, id)
    requires id in WantedCards(us) ==>
      WantedCards(us)[id] == if id == PLAN_ID then PlanCard(Plans(us)) else CardOf(Calls(us, id))
    requires id in WantedOutcomes(us) <==> SomeOutcome(Calls(us, id))
    requires id in WantedOutcomes(us) ==> Calls(us, id) != [] && WantedOutcomes(us)[id] == OutcomeOf(Calls(us, id))
    ensures var vs := us + [u];
      && (id in WantedCards(vs) <==> HasCard(vs, id))
      && (id in WantedCards(vs) ==>
            WantedCards(vs)[id] == if id == PLAN_ID then PlanCard(Plans(vs)) else CardOf(Calls(vs, id)))
      && (id in WantedOutcomes(vs) <==> SomeOutcome(Calls(vs, id)))
      && (id in WantedOutcomes(vs) ==> Calls(vs, id) != [] && WantedOutcomes(vs)[id] == OutcomeOf(Calls(vs, id)))
  {
    WantedOfCall(us, u, call);
    CallsOfOthers(us, u, call);
    SomeOutcomeSnoc(Calls(us, call.id), call);
    OutcomeOfOneMore(Calls(us, call.id), call);
  }

  lemma HoldsDraws(p: Pending, us: seq<Payload>)
    requires Holds(p, us) && PlanIdIsFree(us)
    ensures Draws(p.blocks, us)
  {
    forall i | 0 <= i < |p.blocks| ensures Fits(p.blocks[i], us) {
      BlockFits(p, us, i);
    }
  }

  lemma BlockFits(p: Pending, us: seq<Payload>, i: nat)
    requires Holds(p, us) && PlanIdIsFree(us) && i < |p.blocks|
    ensures Fits(p.blocks[i], us)
  {
    var b := p.blocks[i];
    WantedIsTold(us, IdOf(b));
    if b.ToolUse? {
      assert Is(b, true) && b == WantedCards(us)[b.useId];
    } else if b.ToolResult? {
      assert Is(b, false) && b == WantedOutcomes(us)[b.resultId];
    }
  }

  lemma LettersConcat(kind: ChunkKind, x: string, y: string)
    ensures Letters(kind, x + y) == Letters(kind, x) + Letters(kind, y)
  {
  }

  lemma OutlineOfGrown(blocks: seq<Block>, grown: Block, kind: ChunkKind, text: string)
    requires blocks != [] && Shown(grown) == Shown(blocks[|blocks|-1]) + Letters(kind, text)
    ensures Outline(blocks[..|blocks|-1] + [grown]) == Outline(blocks) + Letters(kind, text)
  {
    var front, last := blocks[..|blocks|-1], blocks[|blocks|-1];
    OutlineOfOneMore(front, grown);
    Regroup(Outline(front), Shown(last), Letters(kind, text));
  }

  /** Text runs on in the last block, or begins a new one. */
  lemma AddTextGrows(blocks: seq<Block>, text: string, kind: ChunkKind)
    ensures var added := AddText(blocks, text, kind);
      || (added == blocks + [if kind.Message? then Text(text) else Thinking(text)])
      || (blocks != [] && added != [] && added == blocks[..|blocks|-1] + [added[|added|-1]]
          && Shown(added[|added|-1]) == Shown(blocks[|blocks|-1]) + Letters(kind, text))
  {
    var n := |blocks|;
    if n > 0 && kind.Message? && blocks[n-1].Text? {
      LettersConcat(kind, blocks[n-1].text, text);
    } else if n > 0 && kind.Thought? && blocks[n-1].Thinking? {
      LettersConcat(kind, blocks[n-1].thought, text);
    }
  }

  lemma OutlineOfAddedText(blocks: seq<Block>, text: string, kind: ChunkKind)
    ensures Outline(AddText(blocks, text, kind)) == Outline(blocks) + Letters(kind, text)
  {
    var added := AddText(blocks, text, kind);
    var begun := if kind.Message? then Text(text) else Thinking(text);
    AddTextGrows(blocks, text, kind);
    if added == blocks + [begun] {
      OutlineOfOneMore(blocks, begun);
    } else {
      OutlineOfGrown(blocks, added[|added|-1], kind, text);
    }
  }

  lemma AddedTextFits(blocks: seq<Block>, text: string, kind: ChunkKind)
    requires TextsFit(blocks) && text != ""
    ensures TextsFit(AddText(blocks, text, kind)) && SameCards(blocks, AddText(blocks, text, kind))
  {
  }

  lemma HoldsText(p: Pending, us: seq<Payload>, u: Payload, kind: ChunkKind, text: string)
    requires Holds(p, us) && Added(us, u) == Letters(kind, text) && CallOf(u).None? && !u.Plan?
    ensures Holds(PushText(p, text, kind), us + [u])
  {
    OneMore(us, u);
    SameWanted(us, u);
    if text == "" {
      assert Letters(kind, text) == [] && Told(us) + [] == Told(us);
    } else {
      var now := AddText(p.blocks, text, kind);
      OutlineOfAddedText(p.blocks, text, kind);
      AddedTextFits(p.blocks, text, kind);
      IndexStays(p.blocks, now, p.uses, WantedCards(us), true);
      IndexStays(p.blocks, now, p.results, WantedOutcomes(us), false);
      assert |Letters(kind, text)| > 0;
    }
  }

  lemma ImageFits(blocks: seq<Block>, image: Json)
    requires TextsFit(blocks)
    ensures TextsFit(blocks + [Image(image)]) && SameCards(blocks, blocks + [Image(image)])
    ensures Outline(blocks + [Image(image)]) == Outline(blocks) + [Picture(image)]
  {
    OutlineOfOneMore(blocks, Image(image));
  }

  lemma HoldsImage(p: Pending, us: seq<Payload>, image: Json)
    requires Holds(p, us)
    ensures Holds(p.(blocks := p.blocks + [Image(image)], hasContent := true), us + [ImageChunk(image)])
  {
    OneMore(us, ImageChunk(image));
    SameWanted(us, ImageChunk(image));
    var now := p.blocks + [Image(image)];
    ImageFits(p.blocks, image);
    IndexStays(p.blocks, now, p.uses, WantedCards(us), true);
    IndexStays(p.blocks, now, p.results, WantedOutcomes(us), false);
    assert |Told(us + [ImageChunk(image)])| == |Told(us)| + 1;
  }

  /** A card or an outcome drawn behind everything, or changed where it stands, leaves the texts. */
  lemma CardLeavesTexts(blocks: seq<Block>, i: nat, b: Block)
    requires TextsFit(blocks) && IsCard(b)
    ensures TextsFit(blocks + [b])
    ensures i < |blocks| && IsCard(blocks[i]) ==> TextsFit(blocks[i := b])
  {
  }

  /** A card or an outcome put where its like stands, or behind everything. */
  function Placed(blocks: seq<Block>, at: map<string, nat>, b: Block): seq<Block> {
    if IdOf(b) in at && at[IdOf(b)] < |blocks| then blocks[at[IdOf(b)] := b] else blocks + [b]
  }

  function IndexOfPlaced(blocks: seq<Block>, at: map<string, nat>, b: Block): map<string, nat> {
    if IdOf(b) in at then at else at[IdOf(b) := |blocks|]
  }

  lemma PlacedFits(blocks: seq<Block>, at: map<string, nat>, want: map<string, Block>, use: bool, b: Block)
    requires Indexed(blocks, at, want, use) && TextsFit(blocks) && Is(b, use)
    ensures Indexed(Placed(blocks, at, b), IndexOfPlaced(blocks, at, b), want[IdOf(b) := b], use)
    ensures TextsFit(Placed(blocks, at, b))
    ensures Outline(Placed(blocks, at, b)) == Outline(blocks) + if IdOf(b) in at then [] else Shown(b)
  {
    if IdOf(b) in at {
      var i := at[IdOf(b)];
      assert Is(blocks[i], use) && IdOf(blocks[i]) == IdOf(b);
      IndexReplace(blocks, at, want, use, i, b);
      CardLeavesTexts(blocks, i, b);
      OutlineOfChanged(blocks, i, b);
      assert Outline(blocks) + [] == Outline(blocks);
    } else {
      IndexAppend(blocks, at, want, use, b);
      CardLeavesTexts(blocks, 0, b);
      OutlineOfOneMore(blocks, b);
    }
  }

  lemma OthersStay(blocks: seq<Block>, at: map<string, nat>, want: map<string, Block>, use: bool, b: Block,
                   other: map<string, nat>, wantOther: map<string, Block>)
    requires Indexed(blocks, at, want, use) && Is(b, use) && Indexed(blocks, other, wantOther, !use)
    ensures Indexed(Placed(blocks, at, b), other, wantOther, !use)
  {
    if IdOf(b) in at {
      var i := at[IdOf(b)];
      assert Is(blocks[i], use);
      IndexReplace(blocks, other, wantOther, !use, i, b);
    } else {
      IndexAppend(blocks, other, wantOther, !use, b);
    }
  }

  /** Both at once. */
  lemma PlacedAmong(blocks: seq<Block>, at: map<string, nat>, want: map<string, Block>, use: bool, b: Block,
                    other: map<string, nat>, wantOther: map<string, Block>, id: string, shown: Item)
    requires Indexed(blocks, at, want, use) && Indexed(blocks, other, wantOther, !use) && TextsFit(blocks)
    requires Is(b, use) && IdOf(b) == id && Shown(b) == [shown]
    ensures var now := Placed(blocks, at, b);
      && Indexed(now, IndexOfPlaced(blocks, at, b), want[id := b], use) && Indexed(now, other, wantOther, !use)
      && TextsFit(now) && Outline(now) == Outline(blocks) + if id in at then [] else [shown]
  {
    PlacedFits(blocks, at, want, use, b);
    OthersStay(blocks, at, want, use, b, other, wantOther);
  }

  /** The card half of a call places the card it should have by now. */
  lemma UsePlaces(p: Pending, us: seq<Payload>, call: ToolFields, result: Option<nat>)
    requires Indexed(p.blocks, p.uses, WantedCards(us), true) && call.id != PLAN_ID && PlanIdIsFree(us)
    ensures var c := UpsertUse(Cards(p.blocks, Lookup(p.uses, call.id), result), call);
            var card := CardOf(Calls(us, call.id) + [call]);
      && card.ToolUse? && IdOf(card) == call.id && (call.id in p.uses <==> Calls(us, call.id) != [])
      && c.blocks == Placed(p.blocks, p.uses, card) && c.result == result
      && Enter(p.uses, call.id, c.use) == IndexOfPlaced(p.blocks, p.uses, card)
  {
    WantedIsTold(us, call.id);
    CallsAreOf(us, call.id);
    if call.id !in p.uses {
      CardOfFirst(call);
      assert Calls(us, call.id) + [call] == [call];
    } else {
      UsePlacesAgain(p.blocks, p.uses, Calls(us, call.id), call, result);
    }
  }

  lemma UsePlacesAgain(blocks: seq<Block>, uses: map<string, nat>, calls: seq<ToolFields>, call: ToolFields,
                       result: Option<nat>)
    requires calls != [] && calls[0].id == call.id && call.id in uses
    requires uses[call.id] < |blocks| && blocks[uses[call.id]] == CardOf(calls)
    ensures var c := UpsertUse(Cards(blocks, Lookup(uses, call.id), result), call);
            var card := CardOf(calls + [call]);
      && card.ToolUse? && IdOf(card) == call.id
      && c.blocks == Placed(blocks, uses, card) && c.result == result
      && Enter(uses, call.id, c.use) == IndexOfPlaced(blocks, uses, card)
  {
    CardOfOneMore(calls, call);
    assert uses[call.id := uses[call.id]] == uses;
  }

  /** And the outcome half places its outcome. `calls` is what was said of the call before. */
  lemma ResultPlaces(c: Cards, results: map<string, nat>, calls: seq<ToolFields>, call: ToolFields)
    requires c.result == Lookup(results, call.id) && ShowsOutcome(call)
    requires calls != [] ==> calls[0].id == call.id
    requires if call.id in results then
               calls != [] && results[call.id] < |c.blocks| && c.blocks[results[call.id]] == OutcomeOf(calls)
             else !SomeOutcome(calls)
    ensures var d, outcome := UpsertResult(c, call), OutcomeOf(calls + [call]);
      && outcome.ToolResult? && IdOf(outcome) == call.id
      && d.blocks == Placed(c.blocks, results, outcome) && d.use == c.use
      && Enter(results, call.id, d.result) == IndexOfPlaced(c.blocks, results, outcome)
  {
    if call.id in results {
      ResultPlacesAgain(c, results, calls, call);
    } else {
      OutcomeOfOneMore(calls, call);
    }
  }

  lemma ResultPlacesAgain(c: Cards, results: map<string, nat>, calls: seq<ToolFields>, call: ToolFields)
    requires calls != [] && calls[0].id == call.id && call.id in results && ShowsOutcome(call)
    requires c.result == Some(results[call.id])
    requires results[call.id] < |c.blocks| && c.blocks[results[call.id]] == OutcomeOf(calls)
    ensures var d, outcome := UpsertResult(c, call), OutcomeOf(calls + [call]);
      && IdOf(outcome) == call.id && d.blocks == Placed(c.blocks, results, outcome) && d.use == c.use
      && Enter(results, call.id, d.result) == IndexOfPlaced(c.blocks, results, outcome)
  {
    OutcomeOfOneMore(calls, call);
    assert results[call.id := results[call.id]] == results;
  }

  lemma UseFits(p: Pending, us: seq<Payload>, call: ToolFields)
    requires Indexed(p.blocks, p.uses, WantedCards(us), true) && Indexed(p.blocks, p.results, WantedOutcomes(us), false)
    requires TextsFit(p.blocks) && call.id != PLAN_ID && PlanIdIsFree(us)
    ensures var c := UpsertUse(Cards(p.blocks, Lookup(p.uses, call.id), Lookup(p.results, call.id)), call);
            var card := CardOf(Calls(us, call.id) + [call]);
      && Indexed(c.blocks, Enter(p.uses, call.id, c.use), WantedCards(us)[call.id := card], true)
      && Indexed(c.blocks, p.results, WantedOutcomes(us), false)
      && TextsFit(c.blocks) && c.result == Lookup(p.results, call.id)
      && Outline(c.blocks) == Outline(p.blocks) + if Calls(us, call.id) == [] then [Card(call.id)] else []
  {
    var card := CardOf(Calls(us, call.id) + [call]);
    UsePlaces(p, us, call, Lookup(p.results, call.id));
    PlacedAmong(p.blocks, p.uses, WantedCards(us), true, card, p.results, WantedOutcomes(us), call.id, Card(call.id));
  }

  lemma OutcomeFits(c: Cards, uses: map<string, nat>, results: map<string, nat>, want: map<string, Block>,
                    wanted: map<string, Block>, calls: seq<ToolFields>, call: ToolFields)
    requires c.result == Lookup(results, call.id) && ShowsOutcome(call)
    requires Indexed(c.blocks, uses, want, true) && Indexed(c.blocks, results, wanted, false) && TextsFit(c.blocks)
    requires calls != [] ==> calls[0].id == call.id
    requires call.id in wanted <==> SomeOutcome(calls)
    requires call.id in wanted ==> calls != [] && wanted[call.id] == OutcomeOf(calls)
    ensures var d, outcome := UpsertResult(c, call), OutcomeOf(calls + [call]);
      && Indexed(d.blocks, uses, want, true)
      && Indexed(d.blocks, Enter(results, call.id, d.result), wanted[call.id := outcome], false)
      && TextsFit(d.blocks) && d.use == c.use
      && Outline(d.blocks) == Outline(c.blocks) + if !SomeOutcome(calls) then [Outcome(call.id)] else []
  {
    ResultPlaces(c, results, calls, call);
    PlacedAmong(c.blocks, results, wanted, false, OutcomeOf(calls + [call]), uses, want, call.id, Outcome(call.id));
  }

  lemma HoldsCall(p: Pending, us: seq<Payload>, u: Payload, call: ToolFields)
    requires Holds(p, us) && CallOf(u) == Some(call) && call.id != PLAN_ID && PlanIdIsFree(us)
    ensures Holds(UpsertPending(p, call), us + [u])
  {
    var c := UpsertUse(Cards(p.blocks, Lookup(p.uses, call.id), Lookup(p.results, call.id)), call);
    UseFits(p, us, call);
    WantedOfCall(us, u, call);
    if ShowsOutcome(call) {
      WantedIsTold(us, call.id);
      CallsAreOf(us, call.id);
      OutcomeFits(c, Enter(p.uses, call.id, c.use), p.results, WantedCards(us + [u]), WantedOutcomes(us),
                  Calls(us, call.id), call);
    } else {
      SameIndex(p.results, call.id);
    }
    ToldOfOneMoreCall(us, u, call);
  }

  lemma SameIndex(at: map<string, nat>, id: string)
    ensures Enter(at, id, Lookup(at, id)) == at
  {
  }

  lemma ToldOfOneMoreCall(us: seq<Payload>, u: Payload, call: ToolFields)
    requires CallOf(u) == Some(call)
    ensures Told(us + [u]) != []
    ensures Told(us + [u]) == Told(us) + (if Calls(us, call.id) == [] then [Card(call.id)] else [])
      + (if ShowsOutcome(call) && !SomeOutcome(Calls(us, call.id)) then [Outcome(call.id)] else [])
  {
    OneMore(us, u);
    Regroup(Told(us), if Calls(us, call.id) == [] then [Card(call.id)] else [],
            if ShowsOutcome(call) && !SomeOutcome(Calls(us, call.id)) then [Outcome(call.id)] else []);
    if Calls(us, call.id) != [] { ToldOfCall(us, call.id); }
  }

  /** What was told of a call is something. */
  lemma {:induction false} ToldOfCall(us: seq<Payload>, id: string)
    requires Calls(us, id) != []
    ensures Told(us) != []
  {
    var front, u := us[..|us|-1], us[|us|-1];
    if Calls(front, id) != [] {
      ToldOfCall(front, id);
    } else {
      assert IsCallOf(u, id);
      assert Added(front, u)[0] == Card(id);
    }
  }

  lemma {:induction false} ToldOfPlan(us: seq<Payload>)
    requires Plans(us) != []
    ensures Told(us) != []
  {
    var front, u := us[..|us|-1], us[|us|-1];
    if Plans(front) != [] { ToldOfPlan(front); }
  }

  lemma PlanFits(p: Pending, us: seq<Payload>, todos: string)
    requires Indexed(p.blocks, p.uses, WantedCards(us), true) && Indexed(p.blocks, p.results, WantedOutcomes(us), false)
    requires TextsFit(p.blocks) && PlanIdIsFree(us)
    ensures var q, card := UpsertPlan(p, todos), PlanCard(Plans(us) + [todos]);
      && Indexed(q.blocks, q.uses, WantedCards(us)[PLAN_ID := card], true)
      && Indexed(q.blocks, q.results, WantedOutcomes(us), false) && TextsFit(q.blocks)
      && Outline(q.blocks) == Outline(p.blocks) + (if Plans(us) != [] then [] else [Card(PLAN_ID)])
      && q == p.(blocks := q.blocks, uses := q.uses, hasContent := true)
  {
    var card := PlanCard(Plans(us) + [todos]);
    PlanPlaces(p, us, todos);
    ShownOfPlan(Plans(us) + [todos]);
    PlacedAmong(p.blocks, p.uses, WantedCards(us), true, card, p.results, WantedOutcomes(us), PLAN_ID, Card(PLAN_ID));
  }

  lemma ShownOfPlan(plans: seq<string>)
    requires plans != []
    ensures Shown(PlanCard(plans)) == [Card(PLAN_ID)] && Is(PlanCard(plans), true)
  {
  }

  lemma HoldsPlan(p: Pending, us: seq<Payload>, todos: string)
    requires Holds(p, us) && PlanIdIsFree(us)
    ensures Holds(UpsertPlan(p, todos), us + [Plan(todos)])
  {
    PlanFits(p, us, todos);
    ToldOfOneMorePlan(us, todos);
    WantedOfPlan(us, todos);
  }

  lemma ToldOfOneMorePlan(us: seq<Payload>, todos: string)
    ensures Told(us + [Plan(todos)]) != []
    ensures Told(us + [Plan(todos)]) == Told(us) + if Plans(us) != [] then [] else [Card(PLAN_ID)]
  {
    OneMore(us, Plan(todos));
    if Plans(us) != [] { ToldOfPlan(us); }
  }

  lemma PlanPlaces(p: Pending, us: seq<Payload>, todos: string)
    requires Indexed(p.blocks, p.uses, WantedCards(us), true) && PlanIdIsFree(us)
    ensures var q, card := UpsertPlan(p, todos), PlanCard(Plans(us) + [todos]);
      && (PLAN_ID in p.uses <==> Plans(us) != []) && IdOf(card) == PLAN_ID
      && q.blocks == Placed(p.blocks, p.uses, card) && q.uses == IndexOfPlaced(p.blocks, p.uses, card)
      && q == p.(blocks := q.blocks, uses := q.uses, hasContent := true)
  {
    WantedIsTold(us, PLAN_ID);
    if PLAN_ID in p.uses {
      assert p.blocks[p.uses[PLAN_ID]] == PlanCard(Plans(us));
    }
  }
}
