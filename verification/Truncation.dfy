/** The cap on a snapshot's text, and the lines it leaves whole. */
module Truncation {
  import opened Options

  function Newlines(s: string): nat {
    if s == "" then 0 else (if s[0] == '\n' then 1 else 0) + Newlines(s[1..])
  }

  /** `lastIndexOf("\n", upTo)`, as one past the index; 0 when there is none. */
  function LastNewline(s: string, upTo: nat): (i: nat)
    ensures i <= |s| && i <= upTo + 1
    ensures i > 0 ==> s[i-1] == '\n'
    ensures forall j :: i <= j < |s| && j <= upTo ==> s[j] != '\n'
    decreases upTo
  {
    if upTo < |s| && s[upTo] == '\n' then upTo + 1
    else if upTo == 0 then 0
    else LastNewline(s, upTo - 1)
  }

  datatype Cut = Cut(text: string, truncated: bool)

  function Truncate(text: string, maxChars: Option<int>): Cut {
    if maxChars.None? || maxChars.value <= 0 || |text| <= maxChars.value then Cut(text, false)
    else
      var cut := LastNewline(text, maxChars.value) - 1;
      Cut(if cut > 0 then text[..cut] else text[..maxChars.value], true)
  }

  /** The text kept is a prefix within the cap, and ends at a line end whenever there is one to
      end at. */
  lemma TruncateKeepsWholeLines(text: string, maxChars: Option<int>)
    ensures var c := Truncate(text, maxChars);
      && c.text <= text
      && (c.truncated <==> maxChars.Some? && 0 < maxChars.value < |text|)
      && (!c.truncated ==> c.text == text)
      && (c.truncated ==> |c.text| <= maxChars.value)
      && (c.truncated && (exists i :: 1 <= i <= maxChars.value && text[i] == '\n') ==>
            && text[|c.text|] == '\n'
            && forall j :: |c.text| < j <= maxChars.value ==> text[j] != '\n')
  {
    if maxChars.Some? && 0 < maxChars.value < |text| {
      var cut := LastNewline(text, maxChars.value) - 1;
      if i :| 1 <= i <= maxChars.value && text[i] == '\n' {
        assert cut >= i;
      }
    }
  }

  // ---- lines ----

  /** Where line `i` ends: at its newline, or at the end of the text. */
  function LineEnd(s: string, i: nat): (e: nat)
    ensures e <= |s|
  {
    if s == "" then 0
    else if s[0] == '\n' then (if i == 0 then 0 else 1 + LineEnd(s[1..], i - 1))
    else 1 + LineEnd(s[1..], i)
  }

  function LineCount(s: string): nat { if s == "" then 0 else 1 + Newlines(s) }

  /** Line `i` of the rendered tree is wholly in the text kept. */
  predicate WholeIn(rendered: string, kept: string, i: nat) {
    i < LineCount(rendered) && LineEnd(rendered, i) <= |kept|
  }

  lemma {:induction false} LinesBefore(s: string, p: nat, i: nat)
    requires p <= |s| && (p == |s| || s[p] == '\n') && i <= Newlines(s)
    ensures LineEnd(s, i) <= p <==> i <= Newlines(s[..p])
    decreases |s|
  {
    if s != "" {
      if p == 0 {
        assert s[..p] == "";
      } else {
        assert s[..p][1..] == s[1..][..p-1];
        if s[0] != '\n' {
          LinesBefore(s[1..], p - 1, i);
        } else if i > 0 {
          LinesBefore(s[1..], p - 1, i - 1);
        }
      }
    }
  }

  lemma {:induction false} FirstLineEnd(s: string, i: nat)
    ensures LineEnd(s, i) < |s| ==> s[LineEnd(s, i)] == '\n'
    ensures LineEnd(s, 0) <= LineEnd(s, i)
    decreases |s|
  {
    if s != "" {
      if s[0] != '\n' {
        FirstLineEnd(s[1..], i);
      } else if i > 0 {
        FirstLineEnd(s[1..], i - 1);
      }
    }
  }

  // ---- the refs that survive ----

  /** The renderer's own map from lines to the refs of the nodes it drew there. */
  type LineMap = map<nat, Option<string>>

  predicate WholeLines(rendered: string, kept: string) {
    |kept| == |rendered| || kept + "\n" <= rendered
  }

  function LinesKept(rendered: string, kept: string): nat {
    if !WholeLines(rendered, kept) || kept == "" then 0 else 1 + Newlines(kept)
  }

  function Shown(lines: LineMap, rendered: string, kept: string): set<string> {
    set i | i in lines && i < LinesKept(rendered, kept) && lines[i].Some? :: lines[i].value
  }

  method ShownRefs(lines: LineMap, rendered: string, kept: string) returns (shown: set<string>)
    ensures shown == Shown(lines, rendered, kept)
  {
    shown := {};
    if !WholeLines(rendered, kept) { return; }
    var n := LinesKept(rendered, kept);
    var todo := lines.Keys;
    while todo != {}
      invariant todo <= lines.Keys
      invariant shown == set i | i in lines && i !in todo && i < n && lines[i].Some? :: lines[i].value
      decreases todo
    {
      var line :| line in todo;
      if line < n && lines[line].Some? {
        shown := shown + {lines[line].value};
      }
      todo := todo - {line};
    }
  }

  /** However the cap falls, the lines counted as kept are exactly those wholly in the text. (The
      renderer never starts a tree with an empty line.) */
  lemma KeptLinesAreTheWholeOnes(rendered: string, maxChars: Option<int>, i: nat)
    requires rendered != "" ==> rendered[0] != '\n'
    requires i < LineCount(rendered)
    ensures var kept := Truncate(rendered, maxChars).text;
            i < LinesKept(rendered, kept) <==> WholeIn(rendered, kept, i)
  {
    var c := Truncate(rendered, maxChars);
    var kept := c.text;
    TruncateKeepsWholeLines(rendered, maxChars);
    if !c.truncated {
      LinesBefore(rendered, |rendered|, i);
      assert rendered[..|rendered|] == rendered;
    } else if exists j :: 1 <= j <= maxChars.value && rendered[j] == '\n' {
      assert kept == rendered[..|kept|];
      assert kept + "\n" == rendered[..|kept|+1];
      LinesBefore(rendered, |kept|, i);
      assert |kept| > 0;
    } else {
      assert rendered[|kept|] != '\n';
      assert (kept + "\n")[|kept|] == '\n';
      assert !WholeLines(rendered, kept);
      FirstLineEnd(rendered, i);
      FirstLineEnd(rendered, 0);
    }
  }
}
