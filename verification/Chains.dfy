/** Sessions that continue one another: following the links, and listing only the newest. */
module Chains {
  import opened Options
  import opened Records

  type Id = string

  /** What one transcript file holds; a missing file holds nothing. */
  datatype File = File(header: Option<Header>, entries: seq<Entry>)

  type Files = map<Id, File>

  const MAX_CONTINUATION_DEPTH: nat := 512

  function ReadFile(fs: Files, id: Id): File { if id in fs then fs[id] else File(None, []) }

  function Link(fs: Files, id: Id): Option<Id> {
    var h := ReadFile(fs, id).header;
    if h.Some? then h.value.continuesFrom else None
  }

  /** The sessions a walk from `cursor` visits: it stops at a repeat and at the depth bound. */
  function Walk(fs: Files, cursor: Option<Id>, visited: set<Id>, room: nat): seq<Id>
    decreases room
  {
    if cursor.None? || cursor.value in visited || room == 0 then []
    else [cursor.value] + Walk(fs, Link(fs, cursor.value), visited + {cursor.value}, room - 1)
  }

  function Chain(fs: Files, id: Id): seq<Id> { Walk(fs, Some(id), {}, MAX_CONTINUATION_DEPTH) }

  function Ancestors(fs: Files, id: Id): seq<Id> { Walk(fs, Link(fs, id), {id}, MAX_CONTINUATION_DEPTH) }

  /** Files newest first, read as one conversation. */
  function Merged(files: seq<File>): File
    decreases |files|
  {
    if files == [] then File(None, [])
    else
      var older := Merged(files[1..]);
      File(if older.header.Some? then older.header else files[0].header, older.entries + files[0].entries)
  }

  function FilesOf(fs: Files, ids: seq<Id>): (files: seq<File>)
    ensures |files| == |ids|
    ensures forall i :: 0 <= i < |ids| ==> files[i] == ReadFile(fs, ids[i])
  {
    if ids == [] then [] else [ReadFile(fs, ids[0])] + FilesOf(fs, ids[1..])
  }

  /** A walk of which `done` is behind. */
  function Onward(fs: Files, done: seq<Id>, cursor: Option<Id>, visited: set<Id>): seq<Id>
    requires |done| <= MAX_CONTINUATION_DEPTH
  {
    done + Walk(fs, cursor, visited, MAX_CONTINUATION_DEPTH - |done|)
  }

  lemma OnwardByOne(fs: Files, done: seq<Id>, id: Id, visited: set<Id>)
    requires |done| < MAX_CONTINUATION_DEPTH && id !in visited
    ensures Onward(fs, done, Some(id), visited) == Onward(fs, done + [id], Link(fs, id), visited + {id})
  {
  }

  lemma OnwardEnds(fs: Files, done: seq<Id>, cursor: Option<Id>, visited: set<Id>)
    requires |done| <= MAX_CONTINUATION_DEPTH
    requires cursor.None? || cursor.value in visited || |done| == MAX_CONTINUATION_DEPTH
    ensures Onward(fs, done, cursor, visited) == done
  {
  }

  lemma OneMoreFile(fs: Files, ids: seq<Id>, id: Id)
    ensures FilesOf(fs, ids + [id]) == FilesOf(fs, ids) + [ReadFile(fs, id)]
  {
  }

  method ReadChain(fs: Files, sessionId: Id) returns (merged: File)
    ensures merged == Merged(FilesOf(fs, Chain(fs, sessionId)))
  {
    var chain: seq<File> := [];
    var visited: set<Id> := {};
    var cursor := Some(sessionId);
    ghost var ids: seq<Id> := [];
    while cursor.Some?
      invariant |chain| <= MAX_CONTINUATION_DEPTH && |ids| == |chain|
      invariant chain == FilesOf(fs, ids)
      invariant Chain(fs, sessionId) == Onward(fs, ids, cursor, visited)
      decreases MAX_CONTINUATION_DEPTH - |chain|
    {
      var id := cursor.value;
      if id in visited || |chain| >= MAX_CONTINUATION_DEPTH {
        break;
      }
      var transcript := ReadFile(fs, id);
      OnwardByOne(fs, ids, id, visited);
      OneMoreFile(fs, ids, id);
      visited := visited + {id};
      cursor := Link(fs, id);
      chain := chain + [transcript];
      ids := ids + [id];
    }
    OnwardEnds(fs, ids, cursor, visited);
    merged := MergeOldestFirst(chain);
  }

  method MergeOldestFirst(chain: seq<File>) returns (merged: File)
    ensures merged == Merged(chain)
  {
    merged := File(None, []);
    var i := |chain|;
    while i > 0
      invariant 0 <= i <= |chain|
      invariant merged == Merged(chain[i..])
    {
      i := i - 1;
      assert chain[i..][1..] == chain[i+1..];
      merged := File(if merged.header.Some? then merged.header else chain[i].header,
                     merged.entries + chain[i].entries);
    }
    assert chain[0..] == chain;
  }

  method ContinuationAncestors(fs: Files, sessionId: Id) returns (out: seq<Id>)
    ensures out == Ancestors(fs, sessionId)
  {
    out := [];
    var visited := {sessionId};
    var cursor := Link(fs, sessionId);
    while cursor.Some?
      invariant |out| <= MAX_CONTINUATION_DEPTH
      invariant Ancestors(fs, sessionId) == Onward(fs, out, cursor, visited)
      decreases MAX_CONTINUATION_DEPTH - |out|
    {
      var id := cursor.value;
      if id in visited || |out| >= MAX_CONTINUATION_DEPTH {
        break;
      }
      OnwardByOne(fs, out, id, visited);
      visited := visited + {id};
      cursor := Link(fs, id);
      out := out + [id];
    }
    OnwardEnds(fs, out, cursor, visited);
  }

  // ---- what a walk visits ----

  ghost predicate Distinct(ids: seq<Id>) { forall i, j :: 0 <= i < j < |ids| ==> ids[i] != ids[j] }

  /** Each session is continued by the one before it. */
  ghost predicate IsPath(fs: Files, p: seq<Id>) {
    forall i :: 0 <= i < |p| - 1 ==> Link(fs, p[i]) == Some(p[i+1])
  }

  /** On any graph, cycles included, a walk visits each session once, follows the links and stays
      within its bound. */
  lemma {:induction false} WalkVisitsOnce(fs: Files, cursor: Option<Id>, visited: set<Id>, room: nat)
    ensures var w := Walk(fs, cursor, visited, room);
      && Distinct(w) && IsPath(fs, w) && |w| <= room
      && (forall i :: 0 <= i < |w| ==> w[i] !in visited)
      && (w != [] ==> cursor == Some(w[0]))
    decreases room
  {
    var w := Walk(fs, cursor, visited, room);
    if w != [] {
      WalkVisitsOnce(fs, Link(fs, cursor.value), visited + {cursor.value}, room - 1);
      var rest := Walk(fs, Link(fs, cursor.value), visited + {cursor.value}, room - 1);
      assert w == [cursor.value] + rest;
      assert forall i :: 1 <= i < |w| ==> w[i] == rest[i-1];
    }
  }

  /** And it stops early only at the end of the chain, at a repeat, or at the bound. */
  lemma {:induction false} WalkStopsForAReason(fs: Files, cursor: Option<Id>, visited: set<Id>, room: nat)
    ensures var w := Walk(fs, cursor, visited, room);
            var last := if w == [] then cursor else Link(fs, w[|w|-1]);
      last.None? || last.value in visited || last.value in w || |w| == room
    decreases room
  {
    var w := Walk(fs, cursor, visited, room);
    if w != [] {
      var rest := Walk(fs, Link(fs, cursor.value), visited + {cursor.value}, room - 1);
      WalkStopsForAReason(fs, Link(fs, cursor.value), visited + {cursor.value}, room - 1);
      assert w == [cursor.value] + rest;
      assert rest != [] ==> w[|w|-1] == rest[|rest|-1];
    }
  }

  lemma {:induction false} MoreRoomWalksOn(fs: Files, cursor: Option<Id>, visited: set<Id>, less: nat, room: nat)
    requires less <= room
    ensures var w := Walk(fs, cursor, visited, room);
            Walk(fs, cursor, visited, less) == if |w| <= less then w else w[..less]
    decreases less
  {
    if cursor.Some? && cursor.value !in visited && less > 0 {
      MoreRoomWalksOn(fs, Link(fs, cursor.value), visited + {cursor.value}, less - 1, room - 1);
      var w := Walk(fs, cursor, visited, room);
      var rest := Walk(fs, Link(fs, cursor.value), visited + {cursor.value}, room - 1);
      assert w == [cursor.value] + rest;
      assert |rest| > less - 1 ==> w[..less] == [cursor.value] + rest[..less-1];
    }
  }

  /** The chain a session reads is itself and then its ancestors; the chain counts the session
      against the bound, so it can stop one ancestor short. */
  lemma ChainTailIsAncestors(fs: Files, id: Id)
    ensures var a := Ancestors(fs, id);
            Chain(fs, id) == [id] + if |a| < MAX_CONTINUATION_DEPTH then a else a[..MAX_CONTINUATION_DEPTH - 1]
  {
    WalkVisitsOnce(fs, Link(fs, id), {id}, MAX_CONTINUATION_DEPTH);
    MoreRoomWalksOn(fs, Link(fs, id), {id}, MAX_CONTINUATION_DEPTH - 1, MAX_CONTINUATION_DEPTH);
    assert {} + {id} == {id};
  }

  /** The oldest header present wins. */
  lemma {:induction false} OldestHeaderWins(files: seq<File>, k: nat)
    requires k < |files|
    ensures (files[k].header.Some? && forall j :: k < j < |files| ==> files[j].header.None?) ==>
      Merged(files).header == files[k].header
    ensures (forall j :: 0 <= j < |files| ==> files[j].header.None?) ==> Merged(files).header.None?
    decreases |files|
  {
    if k == 0 {
      if forall j :: 0 < j < |files| ==> files[j].header.None? {
        NoHeader(files[1..]);
      }
    } else {
      OldestHeaderWins(files[1..], k - 1);
    }
  }

  /** No file's entries are lost or moved: older ones stand before them, newer ones behind. */
  lemma {:induction false} EntriesStandInOrder(files: seq<File>, k: nat)
    requires k < |files|
    ensures Merged(files).entries == Merged(files[k+1..]).entries + files[k].entries + Newer(files, k)
    decreases k
  {
    if k == 0 {
      assert Merged(files).entries == Merged(files[1..]).entries + files[0].entries;
    } else {
      EntriesStandInOrder(files[1..], k - 1);
      assert files[1..][k..] == files[k+1..] && files[1..][k-1] == files[k];
      var older := Merged(files[k+1..]).entries + files[k].entries;
      assert older + Newer(files[1..], k - 1) + files[0].entries == older + Newer(files, k);
    }
  }

  /** The entries of the files newer than the `k`th, oldest first. */
  function Newer(files: seq<File>, k: nat): seq<Entry>
    requires k < |files|
    decreases k
  {
    if k == 0 then [] else Newer(files[1..], k - 1) + files[0].entries
  }

  lemma {:induction false} NoHeader(files: seq<File>)
    requires forall j :: 0 <= j < |files| ==> files[j].header.None?
    ensures Merged(files).header.None?
    decreases |files|
  {
    if files != [] {
      NoHeader(files[1..]);
    }
  }

  // ---- the listing ----

  function Superseded(fs: Files): set<Id> {
    set id | id in fs && Link(fs, id).Some? :: Link(fs, id).value
  }

  /** Every session the listing shows. */
  function Listed(fs: Files): set<Id> {
    set id | id in fs && id !in Superseded(fs) && Merged(FilesOf(fs, Chain(fs, id))).entries != []
  }

  // ---- in terms of the headers ----

  /** The header of `newer` says that it continues `older`. */
  predicate Continues(fs: Files, newer: Id, older: Id) {
    newer in fs && fs[newer].header.Some? && fs[newer].header.value.continuesFrom == Some(older)
  }

  /** A session is read with what its header says it continues, and so on, each once and at most 512 in
      all: to one whose header names none, or one read already. */
  lemma ChainFollowsHeaders(fs: Files, id: Id)
    ensures var w := Chain(fs, id);
      && 1 <= |w| <= 512 && w[0] == id && Distinct(w)
      && (forall i :: 0 <= i < |w| - 1 ==> Continues(fs, w[i], w[i+1]))
      && (|w| < 512 ==> forall older :: Continues(fs, w[|w|-1], older) ==> older in w)
  {
    var w := Chain(fs, id);
    WalkVisitsOnce(fs, Some(id), {}, MAX_CONTINUATION_DEPTH);
    WalkStopsForAReason(fs, Some(id), {}, MAX_CONTINUATION_DEPTH);
    assert w[0] == id;
    forall i | 0 <= i < |w| - 1 ensures Continues(fs, w[i], w[i+1]) {
      assert Link(fs, w[i]) == Some(w[i+1]);
    }
  }

  lemma {:induction false} NoEntries(files: seq<File>)
    requires forall k :: 0 <= k < |files| ==> files[k].entries == []
    ensures Merged(files).entries == []
    decreases |files|
  {
    if files != [] { NoEntries(files[1..]); }
  }

  /** The listing shows the sessions that no header names, if anything was said in what they read. */
  lemma ListedIff(fs: Files, id: Id)
    ensures id in Listed(fs) <==>
      && id in fs && (forall newer :: !Continues(fs, newer, id))
      && exists k :: 0 <= k < |Chain(fs, id)| && ReadFile(fs, Chain(fs, id)[k]).entries != []
  {
    assert id in Superseded(fs) <==> exists newer :: Continues(fs, newer, id) by {
      if id in Superseded(fs) {
        var newer :| newer in fs && Link(fs, newer) == Some(id);
        assert Continues(fs, newer, id);
      }
      if newer :| Continues(fs, newer, id) {
        assert newer in fs && Link(fs, newer) == Some(id);
      }
    }
    if k :| 0 <= k < |Chain(fs, id)| && ReadFile(fs, Chain(fs, id)[k]).entries != [] {
      ShowsItsChain(fs, id, k);
    } else {
      NoEntries(FilesOf(fs, Chain(fs, id)));
    }
  }

  // ---- cycles ----

  ghost predicate Leads(fs: Files, p: seq<Id>, from: Id, to: Id) {
    p != [] && IsPath(fs, p) && p[0] == from && p[|p|-1] == to
  }

  /** A way round from `id` to itself. */
  ghost predicate Round(fs: Files, id: Id, p: seq<Id>) { |p| >= 2 && Leads(fs, p, id, id) }

  /** `x` is on the cycle through `id`. */
  ghost predicate OnCycleOf(fs: Files, id: Id, x: Id) {
    exists p :: Round(fs, id, p) && x in p
  }

  ghost predicate OnCycle(fs: Files, id: Id) { OnCycleOf(fs, id, id) }

  /** `c` stands outside the cycle through `id` and continues a session on it. */
  ghost predicate Enters(fs: Files, id: Id, c: Id) {
    c in fs && Link(fs, c).Some? && OnCycleOf(fs, id, Link(fs, c).value) && !OnCycleOf(fs, id, c)
  }

  lemma PathsJoin(fs: Files, a: seq<Id>, b: seq<Id>)
    requires IsPath(fs, a) && IsPath(fs, b)
    requires a != [] && b != [] ==> Link(fs, a[|a|-1]) == Some(b[0])
    ensures IsPath(fs, a + b)
  {
    var p := a + b;
    forall i | 0 <= i < |p| - 1 ensures Link(fs, p[i]) == Some(p[i+1]) {
      if i + 1 < |a| {
        assert Link(fs, a[i]) == Some(a[i+1]);
      } else if i >= |a| {
        assert Link(fs, b[i-|a|]) == Some(b[i-|a|+1]);
      }
    }
  }

  lemma PathPart(fs: Files, p: seq<Id>, i: nat, j: nat)
    requires IsPath(fs, p) && i <= j <= |p|
    ensures IsPath(fs, p[i..j])
  {
    forall k | 0 <= k < j - i - 1 ensures Link(fs, p[i..j][k]) == Some(p[i..j][k+1]) {
      assert Link(fs, p[i+k]) == Some(p[i+k+1]);
    }
  }

  /** A path that comes back to a session can leave the detour out. */
  lemma {:induction false} WithoutDetours(fs: Files, p: seq<Id>, from: Id, to: Id) returns (q: seq<Id>)
    requires Leads(fs, p, from, to)
    ensures Leads(fs, q, from, to) && Distinct(q) && forall x :: x in q ==> x in p
    decreases |p|
  {
    if |p| == 1 {
      q := p;
    } else {
      PathPart(fs, p, 1, |p|);
      assert forall x :: x in p[1..] ==> x in p;
      var rest := WithoutDetours(fs, p[1..], p[1], to);
      if from in rest {
        var k :| 0 <= k < |rest| && rest[k] == from;
        PathPart(fs, rest, k, |rest|);
        q := rest[k..];
        assert forall x :: x in q ==> x in rest;
      } else {
        PathsJoin(fs, [from], rest);
        q := [from] + rest;
      }
    }
  }

  /** Nothing on a cycle links out of it. */
  lemma CycleGoesOn(fs: Files, c: Id, id: Id)
    requires Link(fs, c) == Some(id) && OnCycle(fs, c)
    ensures OnCycle(fs, id)
  {
    var p :| Round(fs, c, p) && c in p;
    assert p[1] == id;
    PathPart(fs, p, 1, |p|);
    PathsJoin(fs, p[1..], [id]);
    assert Round(fs, id, p[1..] + [id]) && id in p[1..] + [id];
  }

  /** A session on some cycle that links into the cycle through `id` is on that one. */
  lemma CyclesAreApart(fs: Files, id: Id, c: Id, y: Id)
    requires Link(fs, c) == Some(y) && OnCycleOf(fs, id, y) && OnCycle(fs, c)
    ensures OnCycleOf(fs, id, c)
  {
    var p :| Round(fs, id, p) && y in p;
    var q :| Round(fs, c, q) && c in q;
    var k :| 0 <= k < |p| && p[k] == y;
    assert q[1] == y;
    PathPart(fs, p, 0, k);
    PathPart(fs, q, 1, |q|);
    PathPart(fs, p, k, |p|);
    if k > 0 { assert Link(fs, p[k-1]) == Some(p[k]); }
    PathsJoin(fs, p[..k], q[1..]);
    PathsJoin(fs, p[..k] + q[1..], p[k..]);
    var around := p[..k] + q[1..] + p[k..];
    assert around[0] == id && around[|around|-1] == id;
    assert c == q[|q|-1] && c in q[1..] && c in around;
    assert Round(fs, id, around);
  }

  lemma BackIntoPath(fs: Files, c: Id, p: seq<Id>)
    requires p != [] && IsPath(fs, p) && Link(fs, c) == Some(p[0]) && c in p
    ensures OnCycle(fs, c)
  {
    var k :| 0 <= k < |p| && p[k] == c;
    PathPart(fs, p, 0, k + 1);
    PathsJoin(fs, [c], p[..k+1]);
    var round := [c] + p[..k+1];
    assert Round(fs, c, round) && c in round;
  }

  /** Climbing from a session on no cycle ends at one that nothing continues. */
  lemma {:induction false} ClimbToHead(fs: Files, p: seq<Id>) returns (top: seq<Id>)
    requires p != [] && IsPath(fs, p) && Distinct(p) && !OnCycle(fs, p[0])
    requires p[0] in fs
    ensures top != [] && IsPath(fs, top) && top[|top|-1] == p[|p|-1]
    ensures top[0] in fs && top[0] !in Superseded(fs)
    decreases fs.Keys - (set x | x in p)
  {
    if p[0] !in Superseded(fs) {
      top := p;
    } else {
      var c :| c in fs && Link(fs, c) == Some(p[0]);
      if OnCycle(fs, c) { CycleGoesOn(fs, c, p[0]); }
      if c in p { BackIntoPath(fs, c, p); }
      PathsJoin(fs, [c], p);
      var longer := [c] + p;
      assert (set x | x in longer) == (set x | x in p) + {c};
      top := ClimbToHead(fs, longer);
    }
  }

  lemma {:induction false} WalkFollowsPath(fs: Files, p: seq<Id>, visited: set<Id>, room: nat)
    requires p != [] && IsPath(fs, p) && Distinct(p) && |p| <= room
    requires forall i :: 0 <= i < |p| ==> p[i] !in visited
    ensures p <= Walk(fs, Some(p[0]), visited, room)
    decreases |p|
  {
    if |p| > 1 {
      PathPart(fs, p, 1, |p|);
      WalkFollowsPath(fs, p[1..], visited + {p[0]}, room - 1);
      assert p == [p[0]] + p[1..];
    }
  }

  // ---- which conversations the listing hides ----

  /** No chain that leads to `id` without a repeat is longer than a walk may be. */
  ghost predicate WithinBound(fs: Files, id: Id) {
    forall p, from :: Leads(fs, p, from, id) && Distinct(p) ==> |p| <= MAX_CONTINUATION_DEPTH
  }

  /** A session that nothing continues reads `id` as part of its conversation. */
  ghost predicate ReadFromAHead(fs: Files, id: Id, head: Id) {
    head in fs && head !in Superseded(fs) && id in Chain(fs, head)
  }

  lemma PathIsRead(fs: Files, p: seq<Id>, head: Id, id: Id)
    requires Leads(fs, p, head, id) && WithinBound(fs, id) && head in fs && head !in Superseded(fs)
    ensures ReadFromAHead(fs, id, head)
  {
    var q := WithoutDetours(fs, p, head, id);
    WalkFollowsPath(fs, q, {}, MAX_CONTINUATION_DEPTH);
    assert Chain(fs, head)[|q|-1] == id;
  }

  lemma OffCycleIsRead(fs: Files, id: Id) returns (head: Id)
    requires (id in fs || id in Superseded(fs)) && WithinBound(fs, id) && !OnCycle(fs, id)
    ensures ReadFromAHead(fs, id, head)
  {
    if id in fs {
      var top := ClimbToHead(fs, [id]);
      head := top[0];
      PathIsRead(fs, top, head, id);
    } else {
      var c :| c in fs && Link(fs, c) == Some(id);
      if OnCycle(fs, c) { CycleGoesOn(fs, c, id); }
      var top := ClimbToHead(fs, [c]);
      head := top[0];
      PathsJoin(fs, top, [id]);
      PathIsRead(fs, top + [id], head, id);
    }
  }

  lemma EnteredCycleIsRead(fs: Files, id: Id, c: Id) returns (head: Id)
    requires WithinBound(fs, id) && Enters(fs, id, c)
    ensures ReadFromAHead(fs, id, head)
  {
    var y := Link(fs, c).value;
    if OnCycle(fs, c) { CyclesAreApart(fs, id, c, y); }
    var top := ClimbToHead(fs, [c]);
    head := top[0];
    var p :| Round(fs, id, p) && y in p;
    var k :| 0 <= k < |p| && p[k] == y;
    PathPart(fs, p, k, |p|);
    PathsJoin(fs, top, p[k..]);
    assert Leads(fs, top + p[k..], head, id);
    PathIsRead(fs, top + p[k..], head, id);
  }

  /** Along a path onto the cycle through `id`, some session enters it. */
  lemma {:induction false} SomeSessionEnters(fs: Files, id: Id, p: seq<Id>) returns (c: Id)
    requires p != [] && IsPath(fs, p) && !OnCycleOf(fs, id, p[0]) && OnCycleOf(fs, id, p[|p|-1])
    ensures Enters(fs, id, c)
    decreases |p|
  {
    assert |p| >= 2 && Link(fs, p[0]) == Some(p[1]);
    if OnCycleOf(fs, id, p[1]) {
      c := p[0];
    } else {
      PathPart(fs, p, 1, |p|);
      c := SomeSessionEnters(fs, id, p[1..]);
    }
  }

  lemma CycleIsSuperseded(fs: Files, id: Id, x: Id)
    requires OnCycleOf(fs, id, x)
    ensures x in Superseded(fs)
  {
    var p :| Round(fs, id, p) && x in p;
    var k :| 0 <= k < |p| && p[k] == x;
    var before := if k == 0 then |p| - 2 else k - 1;
    assert Link(fs, p[before]) == Some(p[before+1]);
  }

  lemma ReadCycleIsEntered(fs: Files, id: Id, head: Id) returns (c: Id)
    requires ReadFromAHead(fs, id, head) && OnCycle(fs, id)
    ensures Enters(fs, id, c)
  {
    WalkVisitsOnce(fs, Some(head), {}, MAX_CONTINUATION_DEPTH);
    var chain := Chain(fs, head);
    var k :| 0 <= k < |chain| && chain[k] == id;
    PathPart(fs, chain, 0, k + 1);
    if OnCycleOf(fs, id, head) { CycleIsSuperseded(fs, id, head); }
    c := SomeSessionEnters(fs, id, chain[..k+1]);
  }

  lemma ShowsItsChain(fs: Files, head: Id, k: nat)
    requires k < |Chain(fs, head)| && ReadFile(fs, Chain(fs, head)[k]).entries != []
    ensures Merged(FilesOf(fs, Chain(fs, head))).entries != []
  {
    EntriesStandInOrder(FilesOf(fs, Chain(fs, head)), k);
  }

  lemma ReadIsListed(fs: Files, id: Id, head: Id)
    requires ReadFromAHead(fs, id, head) && ReadFile(fs, id).entries != []
    ensures head in Listed(fs)
  {
    var k :| 0 <= k < |Chain(fs, head)| && Chain(fs, head)[k] == id;
    ShowsItsChain(fs, head, k);
  }

  /** Exactly which superseded sessions some session that nothing supersedes still reads: within the
      bound, those on no cycle of links, and those whose cycle is entered from outside. */
  lemma ReadFromAHeadIff(fs: Files, id: Id)
    requires (id in fs || id in Superseded(fs)) && WithinBound(fs, id)
    ensures (exists head :: ReadFromAHead(fs, id, head))
            <==> (OnCycle(fs, id) ==> exists c :: Enters(fs, id, c))
  {
    if head :| ReadFromAHead(fs, id, head) {
      if OnCycle(fs, id) {
        var c := ReadCycleIsEntered(fs, id, head);
      }
    }
    if !OnCycle(fs, id) {
      var head := OffCycleIsRead(fs, id);
    } else if c :| Enters(fs, id, c) {
      var head := EnteredCycleIsRead(fs, id, c);
    }
  }

  /** What a user sees of it: a session with entries is read as part of a listed one under the same
      condition. Links elsewhere do not matter. */
  lemma HiddenIffOnAClosedCycle(fs: Files, id: Id)
    requires ReadFile(fs, id).entries != [] && WithinBound(fs, id)
    ensures (exists head :: head in Listed(fs) && id in Chain(fs, head))
            <==> (OnCycle(fs, id) ==> exists c :: Enters(fs, id, c))
  {
    ReadFromAHeadIff(fs, id);
    if head :| head in Listed(fs) && id in Chain(fs, head) {
      assert ReadFromAHead(fs, id, head);
    }
    if head :| ReadFromAHead(fs, id, head) {
      ReadIsListed(fs, id, head);
    }
  }

  /** Two sessions with an entry each, each said to continue the other. */
  const CLOSED_CYCLE: Files := map[
    "a" := File(Some(Header("agent", "a", "/", 0, Some("b"))), [TurnEnd(1, Report(None, None, None))]),
    "b" := File(Some(Header("agent", "b", "/", 0, Some("a"))), [TurnEnd(1, Report(None, None, None))])]

  /** The listing shows neither. */
  lemma ClosedCycleIsHidden()
    ensures ReadFile(CLOSED_CYCLE, "a").entries != [] && ReadFile(CLOSED_CYCLE, "b").entries != []
    ensures Listed(CLOSED_CYCLE) == {}
  {
    assert Link(CLOSED_CYCLE, "a") == Some("b") && Link(CLOSED_CYCLE, "b") == Some("a");
    assert "a" in Superseded(CLOSED_CYCLE) && "b" in Superseded(CLOSED_CYCLE);
  }
}
