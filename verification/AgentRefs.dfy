/**
 The agent's refs: names of elements that resolve only against the snapshot that showed them.

 The browser half is a history stack with entry ids (where the engine has them), the address, the
 navigation events this world can hear, and which elements are in the page.
 */
module AgentRefs {
  import opened Options
  import opened Texts
  import opened Truncation

  type Ref = string
  type Element = nat

  // ---- tokens ----

  function Digits(n: nat): (s: string)
    ensures s != "" && forall i :: 0 <= i < |s| ==> '0' <= s[i] <= '9'
  {
    (if n < 10 then "" else Digits(n / 10)) + [('0' as int + n % 10) as char]
  }

  function Number(s: string): nat
    requires forall i :: 0 <= i < |s| ==> '0' <= s[i] <= '9'
  {
    if s == "" then 0 else 10 * Number(s[..|s|-1]) + (s[|s|-1] as int - '0' as int)
  }

  lemma {:induction false} NumberUndoesDigits(n: nat)
    ensures Number(Digits(n)) == n
  {
    var s := Digits(n);
    var front := if n < 10 then "" else Digits(n / 10);
    assert s[..|s|-1] == front;
    if n >= 10 { NumberUndoesDigits(n / 10); }
  }

  function Behind(epoch: Option<string>): string { if epoch.Some? then "." + epoch.value else "" }

  /** The world's generation, the sequence number, and the host's epoch behind them if it sent one. */
  function Token(generation: string, seqNo: nat, epoch: Option<string>): string {
    generation + "." + Digits(seqNo) + Behind(epoch)
  }

  /** No two snapshots of a document share a token, and no two epochs of one do. */
  lemma TokensAreDistinct(g: string, m: nat, a: Option<string>, n: nat, b: Option<string>)
    ensures Token(g, m, a) == Token(g, n, b) ==> m == n && a == b
  {
    if Token(g, m, a) == Token(g, n, b) {
      Regroup(g + ".", Digits(m), Behind(a));
      Regroup(g + ".", Digits(n), Behind(b));
      SameBehind(g + ".", Digits(m) + Behind(a), Digits(n) + Behind(b));
      DigitsEnd(m, a, n, b);
    }
  }

  lemma SameBehind(front: string, x: string, y: string)
    requires front + x == front + y
    ensures x == y
  {
    assert (front + x)[|front|..] == x && (front + y)[|front|..] == y;
  }

  /** Digits run to the point or to the end. */
  lemma DigitsEnd(m: nat, a: Option<string>, n: nat, b: Option<string>)
    requires Digits(m) + Behind(a) == Digits(n) + Behind(b)
    ensures m == n && a == b
  {
    SameDigits(Digits(m) + Behind(a), Digits(m), Digits(n));
    NumberUndoesDigits(m);
    NumberUndoesDigits(n);
    SameBehind(Digits(m), Behind(a), Behind(b));
    if a.Some? && b.Some? { SameBehind(".", a.value, b.value); }
  }

  lemma SameDigits(x: string, d: string, e: string)
    requires d <= x && e <= x
    requires forall i :: 0 <= i < |d| ==> '0' <= d[i] <= '9'
    requires forall i :: 0 <= i < |e| ==> '0' <= e[i] <= '9'
    requires |d| == |x| || x[|d|] == '.'
    requires |e| == |x| || x[|e|] == '.'
    ensures d == e
  {
    assert |d| == |e|;
    assert d == x[..|d|] && e == x[..|e|];
  }

  // ---- the browser ----

  datatype HistoryEntry = HistoryEntry(href: string, id: nat)

  /** `historyCap` is where the engine stops growing the history. `hasEntryIds`: the Navigation API is
      there. `ticks` counts the events heard so far. */
  datatype Browser = Browser(stack: seq<HistoryEntry>, index: nat, nextId: nat, historyCap: nat, hasEntryIds: bool,
                             ticks: nat, connected: set<Element>)

  predicate GoodBrowser(b: Browser) {
    && b.index < |b.stack| <= b.historyCap
    && forall i :: 0 <= i < |b.stack| ==> b.stack[i].id < b.nextId
  }

  function Href(b: Browser): string
    requires GoodBrowser(b)
  { b.stack[b.index].href }

  function EntryId(b: Browser): Option<nat>
    requires GoodBrowser(b)
  { if b.hasEntryIds then Some(b.stack[b.index].id) else None }

  function PushEntry(b: Browser, href: string): (b': Browser)
    requires GoodBrowser(b)
    ensures GoodBrowser(b')
  {
    var grown := b.stack[..b.index+1] + [HistoryEntry(href, b.nextId)];
    var kept := if |grown| > b.historyCap then grown[1..] else grown;
    b.(stack := kept, index := |kept| - 1, nextId := b.nextId + 1)
  }

  datatype Navigation =
    | Push(href: string)
    | Replace(href: string)
    | Hash(href: string)
    | Traverse(to: nat)

  function Navigate(b: Browser, n: Navigation): (b': Browser)
    requires GoodBrowser(b)
    ensures GoodBrowser(b')
  {
    match n
    case Push(href) => PushEntry(b, href)
    case Hash(href) => PushEntry(b, href).(ticks := b.ticks + 1)
    case Replace(href) => b.(stack := b.stack[b.index := HistoryEntry(href, b.nextId)], nextId := b.nextId + 1)
    case Traverse(to) => if to < |b.stack| then b.(index := to, ticks := b.ticks + 1) else b
  }

  /** A traversal to nowhere does not happen. */
  predicate Happens(b: Browser, n: Navigation) { n.Traverse? ==> n.to < |b.stack| }

  // ---- the index ----

  /** What one snapshot found: the rendered tree, the renderer's line map, the named elements. */
  datatype Page = Page(rendered: string, lines: LineMap, named: map<Ref, Element>)

  /** The renderer's contract: a tree starts with a node, and draws each named one on some line. */
  ghost predicate Rendered(p: Page) {
    && (p.rendered != "" ==> p.rendered[0] != '\n')
    && (forall i :: i in p.lines ==> i < LineCount(p.rendered))
    && (forall r :: r in p.named ==> exists i :: i in p.lines && p.lines[i] == Some(r))
  }

  datatype Index = Index(generation: string, refs: map<Ref, Element>, superseded: set<Ref>, supersededToken: string,
                         cutAway: set<Ref>, takenAt: string, historyLength: nat, navTicks: nat,
                         entryId: Option<nat>, seqNo: nat, token: string)

  function Fresh(generation: string): Index {
    Index(generation, map[], {}, "", {}, "", 0, 0, None, 0, "")
  }

  function Kept(p: Page, maxChars: Option<int>): set<Ref> {
    var c := Truncate(p.rendered, maxChars);
    if c.truncated then p.named.Keys * Shown(p.lines, p.rendered, c.text) else p.named.Keys
  }

  function Restrict(m: map<Ref, Element>, keys: set<Ref>): map<Ref, Element> { map r | r in m && r in keys :: m[r] }

  function TakeSnapshot(x: Index, b: Browser, p: Page, maxChars: Option<int>, epoch: Option<string>): Index
    requires GoodBrowser(b)
  {
    var kept := Kept(p, maxChars);
    Index(x.generation, Restrict(p.named, kept), x.refs.Keys, x.token, p.named.Keys - kept,
          Href(b), |b.stack|, b.ticks, EntryId(b), x.seqNo + 1, Token(x.generation, x.seqNo + 1, epoch))
  }

  predicate RefsAreCurrent(x: Index, b: Browser, generation: string)
    requires GoodBrowser(b)
  {
    && x.token != "" && generation == x.token
    && Href(b) == x.takenAt
    && |b.stack| == x.historyLength
    && b.ticks == x.navTicks
    && EntryId(b) == x.entryId
  }

  function ElementForRef(x: Index, b: Browser, generation: string, ref: Ref): Option<Element>
    requires GoodBrowser(b)
  {
    if !RefsAreCurrent(x, b, generation) || ref !in x.refs || x.refs[ref] !in b.connected then None
    else Some(x.refs[ref])
  }

  /** Whether a ref that did not resolve is put down to the caller's own smaller cap. */
  predicate BlamesTheCap(x: Index, b: Browser, ref: Ref, generation: string)
    requires GoodBrowser(b)
  {
    && ref in x.cutAway && ref in x.superseded
    && (RefsAreCurrent(x, b, generation) || (generation == x.supersededToken && Href(b) == x.takenAt))
  }

  /** Leaves only the refs whose lines were shown, and says which ones it took away. */
  method DropUnshown(named: map<Ref, Element>, shown: set<Ref>) returns (next: map<Ref, Element>, cut: set<Ref>)
    ensures next == Restrict(named, named.Keys * shown)
    ensures cut == named.Keys - shown
  {
    next, cut := named, {};
    var todo := named.Keys;
    while todo != {}
      invariant todo <= named.Keys
      invariant next == map r | r in named && (r in todo || r in shown) :: named[r]
      invariant cut == set r | r in named && r !in todo && r !in shown
      decreases todo
    {
      var ref :| ref in todo;
      todo := todo - {ref};
      if ref !in shown {
        next := next - {ref};
        cut := cut + {ref};
      }
    }
  }

  lemma SameTable(p: Page, maxChars: Option<int>, next: map<Ref, Element>, cut: set<Ref>)
    requires var c := Truncate(p.rendered, maxChars);
      if c.truncated then
        && next == Restrict(p.named, p.named.Keys * Shown(p.lines, p.rendered, c.text))
        && cut == p.named.Keys - Shown(p.lines, p.rendered, c.text)
      else next == p.named && cut == {}
    ensures next == Restrict(p.named, Kept(p, maxChars))
    ensures cut == p.named.Keys - Kept(p, maxChars)
  {
  }

  method CutToCap(p: Page, maxChars: Option<int>) returns (text: string, next: map<Ref, Element>, cut: set<Ref>)
    ensures text == Truncate(p.rendered, maxChars).text
    ensures next == Restrict(p.named, Kept(p, maxChars)) && cut == p.named.Keys - Kept(p, maxChars)
  {
    var c := Truncate(p.rendered, maxChars);
    text, next, cut := c.text, p.named, {};
    if c.truncated {
      var shown := ShownRefs(p.lines, p.rendered, c.text);
      next, cut := DropUnshown(p.named, shown);
    }
    SameTable(p, maxChars, next, cut);
  }

  /** The module's variables. */
  class RefIndex {
    const generation: string
    var refs: map<Ref, Element>
    var superseded: set<Ref>
    var supersededToken: string
    var cutAway: set<Ref>
    var refsTakenAt: string
    var refsHistoryLength: nat
    var refsNavTicks: nat
    var refsEntryId: Option<nat>
    var snapshotSeq: nat
    var refsToken: string

    function Abs(): Index
      reads this
    {
      Index(generation, refs, superseded, supersededToken, cutAway, refsTakenAt, refsHistoryLength, refsNavTicks,
            refsEntryId, snapshotSeq, refsToken)
    }

    constructor (generation: string)
      ensures Abs() == Fresh(generation)
    {
      this.generation := generation;
      refs, superseded, supersededToken, cutAway := map[], {}, "", {};
      refsTakenAt, refsHistoryLength, refsNavTicks, refsEntryId := "", 0, 0, None;
      snapshotSeq, refsToken := 0, "";
    }

    method Snapshot(b: Browser, p: Page, maxChars: Option<int>, epoch: Option<string>) returns (text: string)
      requires GoodBrowser(b)
      modifies this
      ensures text == Truncate(p.rendered, maxChars).text
      ensures Abs() == TakeSnapshot(old(Abs()), b, p, maxChars, epoch)
    {
      var next, cut;
      text, next, cut := CutToCap(p, maxChars);
      Adopt(b, next, cut, epoch);
    }

    /** A table, and the token and the floors it stands under. */
    method Adopt(b: Browser, next: map<Ref, Element>, cut: set<Ref>, epoch: Option<string>)
      requires GoodBrowser(b)
      modifies this
      ensures Abs() == Index(generation, next, old(refs.Keys), old(refsToken), cut, Href(b), |b.stack|, b.ticks,
                             EntryId(b), old(snapshotSeq) + 1, Token(generation, old(snapshotSeq) + 1, epoch))
    {
      superseded, supersededToken := refs.Keys, refsToken;
      refs, cutAway := next, cut;
      refsTakenAt, refsHistoryLength, refsNavTicks, refsEntryId := Href(b), |b.stack|, b.ticks, EntryId(b);
      snapshotSeq := snapshotSeq + 1;
      refsToken := Token(generation, snapshotSeq, epoch);
    }
  }

  // ---- cap and index agree ----

  /** The text shows the ref's own line whole. */
  ghost predicate LineShown(p: Page, text: string, ref: Ref) {
    exists i :: i in p.lines && p.lines[i] == Some(ref) && WholeIn(p.rendered, text, i)
  }

  /** After a snapshot the table holds exactly the named refs whose line is wholly in the text that
      was returned; it and the refs cut away partition the named ones. */
  lemma TableHoldsWholeLines(x: Index, b: Browser, p: Page, maxChars: Option<int>, epoch: Option<string>)
    requires GoodBrowser(b) && Rendered(p)
    ensures var y := TakeSnapshot(x, b, p, maxChars, epoch);
            var text := Truncate(p.rendered, maxChars).text;
      && (forall r :: r in y.refs <==> r in p.named && LineShown(p, text, r))
      && (forall r :: r in y.refs ==> y.refs[r] == p.named[r])
      && y.refs.Keys + y.cutAway == p.named.Keys && y.refs.Keys !! y.cutAway
  {
    var c := Truncate(p.rendered, maxChars);
    var y := TakeSnapshot(x, b, p, maxChars, epoch);
    forall r ensures r in y.refs <==> r in p.named && LineShown(p, c.text, r) {
      forall i | i in p.lines ensures i < LinesKept(p.rendered, c.text) <==> WholeIn(p.rendered, c.text, i) {
        KeptLinesAreTheWholeOnes(p.rendered, maxChars, i);
      }
      if r in p.named && !c.truncated {
        var i :| i in p.lines && p.lines[i] == Some(r);
        LinesBefore(p.rendered, |p.rendered|, i);
        assert WholeIn(p.rendered, c.text, i);
      }
    }
  }

  // ---- runs ----

  datatype Step =
    | Snap(page: Page, maxChars: Option<int>, epoch: Option<string>)
    | Nav(navigation: Navigation)
    | Attach(element: Element)
    | Remove(element: Element)

  /** What a snapshot of the run was taken of. */
  datatype Taken = Taken(token: string, epoch: Option<string>, page: Page, text: string, browser: Browser,
                         names: set<Ref>)

  datatype World = World(index: Index, browser: Browser, log: seq<Taken>)

  function Next(w: World, step: Step): (w': World)
    requires GoodBrowser(w.browser)
    ensures GoodBrowser(w'.browser)
  {
    match step
    case Snap(page, maxChars, epoch) =>
      var x := TakeSnapshot(w.index, w.browser, page, maxChars, epoch);
      var text := Truncate(page.rendered, maxChars).text;
      World(x, w.browser, w.log + [Taken(x.token, epoch, page, text, w.browser, x.refs.Keys)])
    case Nav(n) => w.(browser := Navigate(w.browser, n))
    case Attach(e) => w.(browser := w.browser.(connected := w.browser.connected + {e}))
    case Remove(e) => w.(browser := w.browser.(connected := w.browser.connected - {e}))
  }

  function Run(w: World, steps: seq<Step>): (w': World)
    requires GoodBrowser(w.browser)
    ensures GoodBrowser(w'.browser)
    decreases |steps|
  {
    if steps == [] then w else Run(Next(w, steps[0]), steps[1..])
  }

  ghost predicate AllRendered(steps: seq<Step>) {
    forall i :: 0 <= i < |steps| && steps[i].Snap? ==> Rendered(steps[i].page)
  }

  /** The snapshots are numbered through. */
  ghost predicate Numbered(generation: string, log: seq<Taken>) {
    forall i :: 0 <= i < |log| ==>
      GoodBrowser(log[i].browser) && log[i].token == Token(generation, i + 1, log[i].epoch)
  }

  /** The index is what this snapshot left. */
  ghost predicate LeftBy(x: Index, last: Taken)
    requires GoodBrowser(last.browser)
  {
    && x.token == last.token && x.refs.Keys == last.names
    && x.takenAt == Href(last.browser) && x.historyLength == |last.browser.stack|
    && x.navTicks == last.browser.ticks && x.entryId == EntryId(last.browser)
    && (forall r :: r in x.refs <==> r in last.page.named && LineShown(last.page, last.text, r))
    && (forall r :: r in x.refs ==> x.refs[r] == last.page.named[r])
    && x.cutAway == last.page.named.Keys - last.names
  }

  ghost predicate Inv(w: World) {
    && w.index.seqNo == |w.log| && Numbered(w.index.generation, w.log)
    && (w.log == [] ==> w.index.token == "" && w.index.cutAway == {} && w.index.refs == map[])
    && (w.log != [] ==> LeftBy(w.index, w.log[|w.log|-1]))
    && (|w.log| <= 1 ==> w.index.superseded == {})
    && (|w.log| >= 2 ==>
          w.index.superseded == w.log[|w.log|-2].names && w.index.supersededToken == w.log[|w.log|-2].token)
  }

  lemma SnapshotLeaves(x: Index, b: Browser, p: Page, maxChars: Option<int>, epoch: Option<string>)
    requires GoodBrowser(b) && Rendered(p)
    ensures var y := TakeSnapshot(x, b, p, maxChars, epoch);
      LeftBy(y, Taken(y.token, epoch, p, Truncate(p.rendered, maxChars).text, b, y.refs.Keys))
  {
    TableHoldsWholeLines(x, b, p, maxChars, epoch);
  }

  lemma NumberedOn(generation: string, log: seq<Taken>, one: Taken)
    requires Numbered(generation, log)
    requires GoodBrowser(one.browser) && one.token == Token(generation, |log| + 1, one.epoch)
    ensures Numbered(generation, log + [one])
  {
  }

  lemma NextKeeps(w: World, step: Step)
    requires GoodBrowser(w.browser) && Inv(w)
    requires step.Snap? ==> Rendered(step.page)
    ensures Inv(Next(w, step))
  {
    if step.Snap? {
      SnapshotLeaves(w.index, w.browser, step.page, step.maxChars, step.epoch);
      var log := Next(w, step).log;
      NumberedOn(w.index.generation, w.log, log[|w.log|]);
      assert w.log != [] ==> log[|log|-2] == w.log[|w.log|-1];
    }
  }

  lemma {:induction false} RunKeeps(w: World, steps: seq<Step>)
    requires GoodBrowser(w.browser) && Inv(w) && AllRendered(steps)
    ensures Inv(Run(w, steps))
    decreases |steps|
  {
    if steps != [] {
      NextKeeps(w, steps[0]);
      assert AllRendered(steps[1..]);
      RunKeeps(Next(w, steps[0]), steps[1..]);
    }
  }

  /** Under the latest token, which no earlier snapshot handed out, `ref` names `e` in the latest
      snapshot, on a line its text showed whole, in a page whose address and history still match
      and which still holds the element. */
  ghost predicate NamedByTheLatest(w: World, token: string, ref: Ref, e: Element)
    requires GoodBrowser(w.browser)
  {
    && w.log != []
    && var last := w.log[|w.log|-1];
       && token == last.token
       && (forall i :: 0 <= i < |w.log| - 1 ==> w.log[i].token != token)
       && ref in last.page.named && e == last.page.named[ref] && e in w.browser.connected
       && LineShown(last.page, last.text, ref)
       && GoodBrowser(last.browser)
       && Href(w.browser) == Href(last.browser) && |w.browser.stack| == |last.browser.stack|
       && w.browser.ticks == last.browser.ticks && EntryId(w.browser) == EntryId(last.browser)
  }

  lemma LatestTokenIsNew(w: World, i: nat)
    requires GoodBrowser(w.browser) && Inv(w) && i < |w.log| - 1
    ensures w.log[i].token != w.log[|w.log|-1].token
  {
    var n := |w.log| - 1;
    TokensAreDistinct(w.index.generation, i + 1, w.log[i].epoch, n + 1, w.log[n].epoch);
  }

  lemma ResolvedIsNamed(w: World, token: string, ref: Ref)
    requires GoodBrowser(w.browser) && Inv(w)
    requires ElementForRef(w.index, w.browser, token, ref).Some?
    ensures NamedByTheLatest(w, token, ref, ElementForRef(w.index, w.browser, token, ref).value)
  {
    forall i | 0 <= i < |w.log| - 1 ensures w.log[i].token != token {
      LatestTokenIsNew(w, i);
    }
  }

  /** Soundness over any run of snapshots, navigations and changes to the page. */
  lemma RefsAreSound(generation: string, b: Browser, steps: seq<Step>, token: string, ref: Ref)
    requires GoodBrowser(b) && AllRendered(steps)
    ensures var w := Run(World(Fresh(generation), b, []), steps);
            var found := ElementForRef(w.index, w.browser, token, ref);
            found.Some? ==> NamedByTheLatest(w, token, ref, found.value)
  {
    RunKeeps(World(Fresh(generation), b, []), steps);
    var w := Run(World(Fresh(generation), b, []), steps);
    if ElementForRef(w.index, w.browser, token, ref).Some? {
      ResolvedIsNamed(w, token, ref);
    }
  }

  /** The last snapshot still named the ref, on a line its text cut away, and the one before it had
      shown it; asked for under the token of either, with the page still where it was. */
  ghost predicate CutByTheLatest(w: World, token: string, ref: Ref)
    requires GoodBrowser(w.browser)
  {
    && |w.log| >= 2
    && var last, previous := w.log[|w.log|-1], w.log[|w.log|-2];
       && ref in last.page.named && !LineShown(last.page, last.text, ref)
       && ref in previous.names
       && GoodBrowser(last.browser) && Href(w.browser) == Href(last.browser)
       && (token == previous.token ||
           (&& token == last.token && |w.browser.stack| == |last.browser.stack|
            && w.browser.ticks == last.browser.ticks && EntryId(w.browser) == EntryId(last.browser)))
  }

  lemma BlameIsFair(w: World, token: string, ref: Ref)
    requires GoodBrowser(w.browser) && Inv(w)
    ensures BlamesTheCap(w.index, w.browser, ref, token) <==> CutByTheLatest(w, token, ref)
    ensures BlamesTheCap(w.index, w.browser, ref, token) ==> ElementForRef(w.index, w.browser, token, ref).None?
  {
    if |w.log| >= 2 {
      var last := w.log[|w.log|-1];
      assert last.token == Token(w.index.generation, |w.log|, last.epoch) && last.token != "";
    }
  }

  /** The cap is blamed for just the refs that the last snapshot's own cut took away, out of a tree
      that still named them, and that the snapshot before it had shown; none of them resolves. */
  lemma OnlyTheCapIsBlamedForTheCut(generation: string, b: Browser, steps: seq<Step>, token: string, ref: Ref)
    requires GoodBrowser(b) && AllRendered(steps)
    ensures var w := Run(World(Fresh(generation), b, []), steps);
      && (BlamesTheCap(w.index, w.browser, ref, token) <==> CutByTheLatest(w, token, ref))
      && (BlamesTheCap(w.index, w.browser, ref, token) ==> ElementForRef(w.index, w.browser, token, ref).None?)
  {
    RunKeeps(World(Fresh(generation), b, []), steps);
    BlameIsFair(Run(World(Fresh(generation), b, []), steps), token, ref);
  }

  // ---- navigation ----

  predicate Quiet(steps: seq<Step>) { forall i :: 0 <= i < |steps| ==> !steps[i].Snap? }

  /** Some navigation takes place on the way. */
  predicate Navigates(w: World, steps: seq<Step>)
    requires GoodBrowser(w.browser)
    decreases |steps|
  {
    if steps == [] then false
    else (steps[0].Nav? && Happens(w.browser, steps[0].navigation)) || Navigates(Next(w, steps[0]), steps[1..])
  }

  /** A navigation since the snapshot has left a mark the floors compare. */
  predicate Marked(w: World, firstId: nat)
    requires GoodBrowser(w.browser)
  {
    w.browser.ticks > w.index.navTicks || w.browser.stack[w.browser.index].id >= firstId
  }

  lemma {:induction false} MarkStays(w: World, steps: seq<Step>, firstId: nat)
    requires GoodBrowser(w.browser) && Quiet(steps) && firstId <= w.browser.nextId
    requires w.browser.ticks >= w.index.navTicks
    requires Marked(w, firstId) || Navigates(w, steps)
    ensures Run(w, steps).index == w.index
    ensures Marked(Run(w, steps), firstId)
    ensures Run(w, steps).browser.hasEntryIds == w.browser.hasEntryIds
    decreases |steps|
  {
    if steps != [] {
      assert Quiet(steps[1..]);
      assert !steps[0].Snap?;
      MarkStays(Next(w, steps[0]), steps[1..], firstId);
    }
  }

  /** Where the engine mints entry ids, any navigation since the snapshot, with anything before or
      after it, kills every ref. */
  lemma NavigationKillsEveryRef(w: World, p: Page, maxChars: Option<int>, epoch: Option<string>, steps: seq<Step>,
                                token: string, ref: Ref)
    requires GoodBrowser(w.browser) && w.browser.hasEntryIds && Quiet(steps)
    requires Navigates(Next(w, Snap(p, maxChars, epoch)), steps)
    ensures var after := Run(Next(w, Snap(p, maxChars, epoch)), steps);
            ElementForRef(after.index, after.browser, token, ref).None?
  {
    var taken := Next(w, Snap(p, maxChars, epoch));
    MarkStays(taken, steps, w.browser.nextId);
    var id := w.browser.stack[w.browser.index].id;
    assert id < w.browser.nextId;
  }

  lemma {:induction false} TicksStay(w: World, steps: seq<Step>, ticks: nat)
    requires GoodBrowser(w.browser) && Quiet(steps) && w.browser.ticks >= ticks
    ensures Run(w, steps).index == w.index && Run(w, steps).browser.ticks >= ticks
    decreases |steps|
  {
    if steps != [] {
      assert Quiet(steps[1..]) && !steps[0].Snap?;
      TicksStay(Next(w, steps[0]), steps[1..], ticks);
    }
  }

  /** A traversal is heard, so it kills every ref on any engine. */
  lemma {:induction false} TraversalKillsEveryRef(w: World, to: nat, steps: seq<Step>, token: string, ref: Ref)
    requires GoodBrowser(w.browser) && Quiet(steps) && w.browser.ticks >= w.index.navTicks
    requires Happens(w.browser, Traverse(to))
    ensures var after := Run(Next(w, Nav(Traverse(to))), steps);
            ElementForRef(after.index, after.browser, token, ref).None?
  {
    TicksStay(Next(w, Nav(Traverse(to))), steps, w.browser.ticks + 1);
  }

  // ---- exactly which refs survive ----

  /** The step is a navigation with an event that this world hears. */
  predicate FiresEvent(b: Browser, step: Step) {
    step.Nav? && (step.navigation.Hash? || (step.navigation.Traverse? && Happens(b, step.navigation)))
  }

  /** Some step of the run does. */
  predicate Heard(w: World, steps: seq<Step>)
    requires GoodBrowser(w.browser)
    decreases |steps|
  {
    if steps == [] then false
    else FiresEvent(w.browser, steps[0]) || Heard(Next(w, steps[0]), steps[1..])
  }

  function OnePush(step: Step): nat { if step.Nav? && step.navigation.Push? then 1 else 0 }

  function Pushes(steps: seq<Step>): nat {
    if steps == [] then 0 else OnePush(steps[0]) + Pushes(steps[1..])
  }

  function AddressAfter(href: string, step: Step): string {
    if step.Nav? && (step.navigation.Push? || step.navigation.Replace?) then step.navigation.href else href
  }

  /** The address that the last push or replace of the run goes to. */
  function LastAddress(href: string, steps: seq<Step>): string
    decreases |steps|
  {
    if steps == [] then href else LastAddress(AddressAfter(href, steps[0]), steps[1..])
  }

  /** The history's length after pushes: it is cut behind the current entry, and grows to its cap. */
  function LengthAfter(b: Browser, pushes: nat): nat {
    if pushes == 0 then |b.stack|
    else if b.index + 1 + pushes > b.historyCap then b.historyCap
    else b.index + 1 + pushes
  }

  lemma {:induction false} UnheardRun(w: World, steps: seq<Step>)
    requires GoodBrowser(w.browser) && Quiet(steps)
    ensures var w' := Run(w, steps);
      && w'.index == w.index && w'.browser.hasEntryIds == w.browser.hasEntryIds
      && w'.browser.ticks >= w.browser.ticks
      && (Heard(w, steps) <==> w'.browser.ticks > w.browser.ticks)
      && (!Heard(w, steps) ==>
            && Href(w'.browser) == LastAddress(Href(w.browser), steps)
            && |w'.browser.stack| == LengthAfter(w.browser, Pushes(steps)))
    decreases |steps|
  {
    if steps != [] {
      assert Quiet(steps[1..]) && !steps[0].Snap?;
      UnheardRun(Next(w, steps[0]), steps[1..]);
      if !FiresEvent(w.browser, steps[0]) {
        UnheardStep(w, steps[0], Pushes(steps[1..]));
      }
    }
  }

  lemma UnheardStep(w: World, step: Step, pushes: nat)
    requires GoodBrowser(w.browser) && !step.Snap?
    requires !FiresEvent(w.browser, step)
    ensures var w' := Next(w, step);
      && LengthAfter(w'.browser, pushes) == LengthAfter(w.browser, OnePush(step) + pushes)
      && Href(w'.browser) == AddressAfter(Href(w.browser), step)
  {
  }

  /** Without a navigation nothing moves; with entry ids any one that happens leaves its mark. */
  lemma {:induction false} UnmovedRun(w: World, steps: seq<Step>)
    requires GoodBrowser(w.browser) && Quiet(steps) && !Navigates(w, steps)
    ensures var w' := Run(w, steps);
      w'.index == w.index && w'.browser == w.browser.(connected := w'.browser.connected)
    decreases |steps|
  {
    if steps != [] {
      assert Quiet(steps[1..]) && !steps[0].Snap?;
      UnmovedRun(Next(w, steps[0]), steps[1..]);
    }
  }

  /** No navigation of the run can be told from none. */
  predicate Unseen(w: World, steps: seq<Step>)
    requires GoodBrowser(w.browser)
  {
    if w.browser.hasEntryIds then !Navigates(w, steps)
    else
      && !Heard(w, steps)
      && LastAddress(Href(w.browser), steps) == Href(w.browser)
      && LengthAfter(w.browser, Pushes(steps)) == |w.browser.stack|
  }

  /** Exactly which refs outlive a run without a snapshot: those whose element is still there, when
      no navigation happened, or, without entry ids, when none was heard, the last push or replace
      went back to the same address, and the pushes left the history as long as it was. */
  lemma RefSurvivesIff(w: World, p: Page, maxChars: Option<int>, epoch: Option<string>, steps: seq<Step>, ref: Ref)
    requires GoodBrowser(w.browser) && Quiet(steps)
    ensures var taken := Next(w, Snap(p, maxChars, epoch));
            var after := Run(taken, steps);
      ref in taken.index.refs && taken.index.refs[ref] in after.browser.connected ==>
        (ElementForRef(after.index, after.browser, taken.index.token, ref).Some? <==> Unseen(taken, steps))
  {
    var taken := Next(w, Snap(p, maxChars, epoch));
    UnheardRun(taken, steps);
    assert taken.index.token != "";
    if w.browser.hasEntryIds {
      if Navigates(taken, steps) {
        NavigationKillsEveryRef(w, p, maxChars, epoch, steps, taken.index.token, ref);
      } else {
        UnmovedRun(taken, steps);
      }
    }
  }

  /** One navigation: on an engine without entry ids it goes unseen if and only if it is a push to the
      same address over just one forward entry, or from the top of a full history, or a replace to
      the same address, or a traversal to nowhere. */
  lemma OneNavigationIsUnseenIff(w: World, n: Navigation)
    requires GoodBrowser(w.browser) && !w.browser.hasEntryIds
    ensures var b := w.browser;
      Unseen(w, [Nav(n)]) <==>
        match n
        case Push(href) =>
          href == Href(b) && (b.index == |b.stack| - 2 || (b.index == |b.stack| - 1 && |b.stack| == b.historyCap))
        case Replace(href) => href == Href(b)
        case Hash(_) => false
        case Traverse(to) => to >= |b.stack|
  {
    var steps := [Nav(n)];
    assert steps[1..] == [];
    assert Pushes(steps) == OnePush(Nav(n)) + Pushes([]);
    assert LastAddress(Href(w.browser), steps) == LastAddress(AddressAfter(Href(w.browser), Nav(n)), []);
    assert Heard(w, steps) <==> FiresEvent(w.browser, Nav(n)) || Heard(Next(w, Nav(n)), []);
  }

  /** One element on one line, in an engine without entry ids. */
  const ONE_PAGE := Page("- button [ref=e1]", map[0 := Some("e1")], map["e1" := 7])
  const ONE_BROWSER := Browser([HistoryEntry("/", 0)], 0, 1, 50, false, 0, {7})

  /** There a replace to the same address leaves the ref alive. */
  lemma ReplaceGoesUnseen(w: World, epoch: Option<string>)
    requires w.browser == ONE_BROWSER
    ensures GoodBrowser(ONE_BROWSER)
    ensures var taken := Next(w, Snap(ONE_PAGE, None, epoch));
            var after := Run(taken, [Nav(Replace("/"))]);
      ElementForRef(after.index, after.browser, taken.index.token, "e1") == Some(7)
  {
    var taken := Next(w, Snap(ONE_PAGE, None, epoch));
    assert taken.index.refs == map["e1" := 7];
    var steps := [Nav(Replace("/"))];
    OneNavigationIsUnseenIff(taken, Replace("/"));
    assert Happens(taken.browser, Replace("/"));
    UnheardRun(taken, steps);
    assert steps[1..] == [] && Run(taken, steps) == Next(taken, steps[0]);
    RefSurvivesIff(w, ONE_PAGE, None, epoch, steps, "e1");
  }
}
