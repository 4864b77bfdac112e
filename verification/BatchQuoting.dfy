/** Quoting paths for the Windows batch form of the helper script, and reading them back. */
module BatchQuoting {
  import opened Options
  import opened Texts

  function EscapedChar(c: char): string {
    if c == '"' then ['"', '"'] else if c == '%' then ['%', '%'] else [c]
  }

  function Escaped(s: string): string {
    if s == "" then "" else EscapedChar(s[0]) + Escaped(s[1..])
  }

  function DoubleQuoted(s: string): string { "\"" + Escaped(s) + "\"" }

  method BatDoubleQuote(s: string) returns (out: string)
    ensures out == DoubleQuoted(s)
  {
    out := "\"";
    for i := 0 to |s|
      invariant out + Escaped(s[i..]) == "\"" + Escaped(s)
    {
      assert s[i..][1..] == s[i+1..];
      match s[i] {
        case '"' => out := out + "\"\"";
        case '%' => out := out + "%%";
        case other => out := out + [other];
      }
    }
    out := out + "\"";
  }

  // ---- the batch file's percent phase, then the quotes ----

  /** A line once `%%` is collapsed; none when a lone `%` would start a substitution. */
  function Percents(line: string): Option<string>
    decreases |line|
  {
    if line == "" then Some("")
    else if line[0] == '%' then
      if |line| > 1 && line[1] == '%' then Before("%", Percents(line[2..])) else None
    else Before([line[0]], Percents(line[1..]))
  }

  function Before(s: string, rest: Option<string>): Option<string> {
    if rest.None? then None else Some(s + rest.value)
  }

  /** The inside of a quoted string up to its closing quote, which must be the last character. */
  function Undoubled(inside: string): Option<string>
    decreases |inside|
  {
    if inside == "" then None
    else if inside[0] == '"' then
      if |inside| == 1 then Some("")
      else if inside[1] == '"' then Before("\"", Undoubled(inside[2..]))
      else None
    else Before([inside[0]], Undoubled(inside[1..]))
  }

  function Unquoted(quoted: string): Option<string> {
    if quoted != "" && quoted[0] == '"' then Undoubled(quoted[1..]) else None
  }

  function DoubledChar(c: char): string { if c == '"' then ['"', '"'] else [c] }

  function Doubled(s: string): string {
    if s == "" then "" else DoubledChar(s[0]) + Doubled(s[1..])
  }

  lemma PercentsPlain(c: char, rest: string)
    requires c != '%'
    ensures Percents([c] + rest) == Before([c], Percents(rest))
  {
    assert ([c] + rest)[1..] == rest;
  }

  lemma PercentsOfChar(c: char, rest: string)
    ensures Percents(EscapedChar(c) + rest) == Before(DoubledChar(c), Percents(rest))
  {
    if c == '"' {
      assert EscapedChar(c) + rest == [c] + ([c] + rest);
      PercentsPlain(c, [c] + rest);
      PercentsPlain(c, rest);
      var tail := Percents(rest);
      assert tail.Some? ==> [c] + ([c] + tail.value) == [c, c] + tail.value;
    } else if c == '%' {
      assert (EscapedChar(c) + rest)[2..] == rest;
    } else {
      PercentsPlain(c, rest);
    }
  }

  lemma {:induction false} PercentsCollapse(s: string)
    ensures Percents(Escaped(s) + "\"") == Some(Doubled(s) + "\"")
  {
    if s == "" {
      PercentsPlain('"', "");
      assert "" + "\"" == ['"'] + "";
    } else {
      PercentsCollapse(s[1..]);
      PercentsOfChar(s[0], Escaped(s[1..]) + "\"");
      assert Escaped(s) + "\"" == EscapedChar(s[0]) + (Escaped(s[1..]) + "\"");
      assert Doubled(s) + "\"" == DoubledChar(s[0]) + (Doubled(s[1..]) + "\"");
    }
  }

  lemma {:induction false} DoubledUndoubles(s: string)
    ensures Undoubled(Doubled(s) + "\"") == Some(s)
  {
    var inside := Doubled(s) + "\"";
    if s != "" {
      DoubledUndoubles(s[1..]);
      var rest := Doubled(s[1..]) + "\"";
      assert inside[if s[0] == '"' then 2 else 1..] == rest;
      assert [s[0]] + s[1..] == s;
    }
  }

  /** The batch parser collapses the percents of the quoted form without substituting anything, and
      undoubling the quotes of what is left gives the string. */
  lemma BatchQuotingRoundTrips(s: string)
    ensures Percents(DoubleQuoted(s)) == Some("\"" + Doubled(s) + "\"")
    ensures Unquoted("\"" + Doubled(s) + "\"") == Some(s)
  {
    PercentsCollapse(s);
    var line := DoubleQuoted(s);
    assert line == "\"" + (Escaped(s) + "\"") && line[1..] == Escaped(s) + "\"";
    assert "\"" + Doubled(s) + "\"" == "\"" + (Doubled(s) + "\"");
    DoubledUndoubles(s);
    assert ("\"" + Doubled(s) + "\"")[1..] == Doubled(s) + "\"";
  }

  // ---- the program's own reading of its command line ----

  function Slashes(n: nat): string { seq(n, i => '\\') }

  /** One argument by the Windows rules, `n` backslashes being read but not yet decided: before a
      quote they halve and an odd one escapes it; anywhere else they stand for themselves. */
  function ReadArg(s: string, inQuotes: bool, n: nat): string
    decreases |s|
  {
    if s == "" then Slashes(n)
    else if s[0] == '\\' then ReadArg(s[1..], inQuotes, n + 1)
    else if s[0] == '"' then
      Slashes(n / 2) +
      if n % 2 == 1 then "\"" + ReadArg(s[1..], inQuotes, 0)
      else if inQuotes && |s| > 1 && s[1] == '"' then "\"" + ReadArg(s[2..], true, 0)
      else ReadArg(s[1..], !inQuotes, 0)
    else if !inQuotes && (s[0] == ' ' || s[0] == '\t') then Slashes(n)
    else Slashes(n) + [s[0]] + ReadArg(s[1..], inQuotes, 0)
  }

  function SlashCount(s: string): nat {
    if s == "" then 0 else (if s[0] == '\\' then 1 else 0) + SlashCount(s[1..])
  }

  /** A backslash stands before a quote or at the end. */
  predicate SlashMeetsQuote(s: string) {
    exists i :: 0 <= i < |s| && s[i] == '\\' && (i + 1 == |s| || s[i+1] == '"')
  }

  lemma {:induction false} SlashCountConcat(a: string, b: string)
    ensures SlashCount(a + b) == SlashCount(a) + SlashCount(b)
  {
    if a == "" {
      assert a + b == b;
    } else {
      SlashCountConcat(a[1..], b);
      assert (a + b)[1..] == a[1..] + b;
    }
  }

  lemma {:induction false} CountOfSlashes(n: nat)
    ensures SlashCount(Slashes(n)) == n
  {
    if n > 0 {
      CountOfSlashes(n - 1);
      assert Slashes(n)[1..] == Slashes(n - 1);
    }
  }

  lemma {:induction false} DoublingAddsNoSlash(s: string)
    ensures SlashCount(Doubled(s) + "\"") == SlashCount(s)
  {
    if s != "" {
      DoublingAddsNoSlash(s[1..]);
      SlashCountConcat(DoubledChar(s[0]), Doubled(s[1..]) + "\"");
      assert Doubled(s) + "\"" == DoubledChar(s[0]) + (Doubled(s[1..]) + "\"");
    }
  }

  lemma {:induction false} ReadingAddsNoSlash(s: string, inQuotes: bool, n: nat)
    ensures SlashCount(ReadArg(s, inQuotes, n)) <= n + SlashCount(s)
    decreases |s|
  {
    CountOfSlashes(n);
    if s == "" {
    } else if s[0] == '\\' {
      ReadingAddsNoSlash(s[1..], inQuotes, n + 1);
    } else if s[0] == '"' {
      CountOfSlashes(n / 2);
      ReadingAddsNoSlash(s[1..], inQuotes, 0);
      ReadingAddsNoSlash(s[1..], !inQuotes, 0);
      SlashCountConcat("\"", ReadArg(s[1..], inQuotes, 0));
      if |s| > 1 {
        ReadingAddsNoSlash(s[2..], true, 0);
        SlashCountConcat("\"", ReadArg(s[2..], true, 0));
        assert s[1..][1..] == s[2..];
      }
      SlashCountConcat(Slashes(n / 2), ReadArg(s, inQuotes, n)[n/2..]);
      assert ReadArg(s, inQuotes, n) == Slashes(n / 2) + ReadArg(s, inQuotes, n)[n/2..];
    } else {
      ReadingAddsNoSlash(s[1..], inQuotes, 0);
      SlashCountConcat(Slashes(n), [s[0]]);
      SlashCountConcat(Slashes(n) + [s[0]], ReadArg(s[1..], inQuotes, 0));
    }
  }

  lemma {:induction false} ReadsBack(s: string, n: nat)
    requires !SlashMeetsQuote(s) && (n > 0 ==> s != "" && s[0] != '"')
    ensures ReadArg(Doubled(s) + "\"", true, n) == Slashes(n) + s
    decreases |s|
  {
    var line := Doubled(s) + "\"";
    if s == "" {
      assert line[1..] == "";
    } else {
      assert forall i :: 0 <= i < |s[1..]| ==> s[1..][i] == s[i+1];
      var rest := Doubled(s[1..]) + "\"";
      assert line[if s[0] == '"' then 2 else 1..] == rest;
      if s[0] == '\\' {
        ReadsBack(s[1..], n + 1);
        assert Slashes(n + 1) + s[1..] == Slashes(n) + s;
      } else {
        ReadsBack(s[1..], 0);
        assert Slashes(n) + [s[0]] + s[1..] == Slashes(n) + s;
      }
    }
  }

  lemma {:induction false} LosesSlashes(s: string, n: nat)
    requires SlashMeetsQuote(s) || (n > 0 && (s == "" || s[0] == '"'))
    ensures SlashCount(ReadArg(Doubled(s) + "\"", true, n)) < n + SlashCount(s)
    decreases |s|
  {
    var line := Doubled(s) + "\"";
    CountOfSlashes(n);
    CountOfSlashes(n / 2);
    if s == "" {
      HalvedAtTheEnd(n);
    } else {
      var rest := Doubled(s[1..]) + "\"";
      assert line[if s[0] == '"' then 2 else 1..] == rest;
      DoublingAddsNoSlash(s[1..]);
      if s[0] == '"' && n > 0 {
        HalvedBeforeAQuote(rest, n);
        assert line == "\"\"" + rest;
      } else {
        TailMeetsQuote(s, n);
        LosesSlashes(s[1..], if s[0] == '\\' then n + 1 else 0);
        if s[0] == '"' {
          assert line == "\"\"" + rest && line[2..] == rest;
          assert Slashes(0) + ("\"" + ReadArg(rest, true, 0)) == "\"" + ReadArg(rest, true, 0);
          SlashCountConcat("\"", ReadArg(rest, true, 0));
        } else if s[0] != '\\' {
          SlashCountConcat(Slashes(n), [s[0]]);
          SlashCountConcat(Slashes(n) + [s[0]], ReadArg(rest, true, 0));
        }
      }
    }
  }

  lemma TailMeetsQuote(s: string, n: nat)
    requires s != "" && SlashMeetsQuote(s)
    ensures SlashMeetsQuote(s[1..]) || (s[0] == '\\' && (s[1..] == "" || s[1..][0] == '"'))
  {
    var i :| 0 <= i < |s| && s[i] == '\\' && (i + 1 == |s| || s[i+1] == '"');
    if i > 0 {
      assert s[1..][i-1] == '\\' && (i == |s[1..]| || s[1..][i] == '"');
    }
  }

  lemma HalvedAtTheEnd(n: nat)
    requires n > 0
    ensures SlashCount(ReadArg("\"", true, n)) < n
  {
    CountOfSlashes(n / 2);
    assert "\""[1..] == "";
    assert Slashes(0) == "";
    SlashCountConcat(Slashes(n / 2), if n % 2 == 1 then "\"" else "");
    assert ReadArg("", !true, 0) == "" && ReadArg("", true, 0) == "";
    assert "\"" + "" == "\"" && SlashCount("\"") == 0;
  }

  lemma HalvedBeforeAQuote(rest: string, n: nat)
    requires n > 0
    ensures SlashCount(ReadArg("\"\"" + rest, true, n)) < n + SlashCount(rest)
  {
    var line := "\"\"" + rest;
    CountOfSlashes(n / 2);
    assert line[1..] == "\"" + rest && line[2..] == rest;
    var read := if n % 2 == 1 then ReadArg("\"" + rest, true, 0) else ReadArg(rest, true, 0);
    ReadingAddsNoSlash("\"" + rest, true, 0);
    ReadingAddsNoSlash(rest, true, 0);
    SlashCountConcat("\"", rest);
    SlashCountConcat("\"", read);
    SlashCountConcat(Slashes(n / 2), "\"" + read);
  }

  lemma {:induction false} DoubledConcat(a: string, b: string)
    ensures Doubled(a + b) == Doubled(a) + Doubled(b)
  {
    if a == "" {
      assert a + b == b;
    } else {
      DoubledConcat(a[1..], b);
      assert (a + b)[1..] == a[1..] + b && (a + b)[0] == a[0];
      Regroup(DoubledChar(a[0]), Doubled(a[1..]), Doubled(b));
    }
  }

  lemma {:induction false} ReadsBackButTheLast(s: string, n: nat)
    requires !SlashMeetsQuote(s) && (n > 0 ==> s != "" && s[0] != '"')
    ensures ReadArg(Doubled(s) + "\\\"", true, n) == Slashes(n) + s + "\""
    decreases |s|
  {
    var line := Doubled(s) + "\\\"";
    if s == "" {
      LastSlashEscapes();
      assert line == "\\\"" && Slashes(0) == "";
    } else {
      assert forall i :: 0 <= i < |s[1..]| ==> s[1..][i] == s[i+1];
      var rest := Doubled(s[1..]) + "\\\"";
      assert line[if s[0] == '"' then 2 else 1..] == rest;
      if s[0] == '\\' {
        ReadsBackButTheLast(s[1..], n + 1);
        assert Slashes(n + 1) + s[1..] == Slashes(n) + s;
      } else {
        ReadsBackButTheLast(s[1..], 0);
        assert Slashes(n) + [s[0]] + s[1..] == Slashes(n) + s;
      }
    }
  }

  lemma LastSlashEscapes()
    ensures ReadArg("\\\"", true, 0) == "\""
  {
    var line := "\\\"";
    assert line[0] == '\\' && line[1..] == "\"" && "\""[1..] == "";
    assert ReadArg("", true, 0) == Slashes(0) == "";
    assert ReadArg("\"", true, 1) == Slashes(0) + ("\"" + ReadArg("", true, 0));
  }

  /** A path that would read back, with a backslash behind it, comes back with a quote in its place. */
  lemma TrailingSlashBecomesAQuote(s: string)
    requires !SlashMeetsQuote(s)
    ensures ReadArg("\"" + Doubled(s + "\\") + "\"", false, 0) == s + "\""
  {
    var inside := Doubled(s) + "\\\"";
    DoubledConcat(s, "\\");
    assert Doubled("\\") == "\\" + Doubled("\\"[1..]) && "\\"[1..] == "";
    assert "\"" + Doubled(s + "\\") + "\"" == "\"" + inside;
    OpensTheQuotes(inside);
    ReadsBackButTheLast(s, 0);
    assert Slashes(0) == "" && Slashes(0) + s == s;
  }

  lemma OpensTheQuotes(inside: string)
    ensures ReadArg("\"" + inside, false, 0) == ReadArg(inside, true, 0)
  {
    assert ("\"" + inside)[1..] == inside;
    assert Slashes(0) == "" && Slashes(0) + ReadArg(inside, true, 0) == ReadArg(inside, true, 0);
  }

  /** So it is with `D:\data\`. */
  lemma DataDirWithTrailingSlash()
    ensures ReadArg("\"" + Doubled("D:\\data\\") + "\"", false, 0) == "D:\\data\""
  {
    var s := "D:\\data";
    assert s + "\\" == "D:\\data\\";
    TrailingSlashBecomesAQuote(s);
  }

  /** The started program reads the quoted path as the path exactly when no backslash in it stands
      before a quote or at the end. */
  lemma ArgumentReadsBackIff(s: string)
    ensures ReadArg("\"" + Doubled(s) + "\"", false, 0) == s <==> !SlashMeetsQuote(s)
  {
    var inside := Doubled(s) + "\"";
    assert "\"" + Doubled(s) + "\"" == "\"" + inside;
    OpensTheQuotes(inside);
    if SlashMeetsQuote(s) {
      LosesSlashes(s, 0);
    } else {
      ReadsBack(s, 0);
      assert Slashes(0) + s == s;
    }
  }
}
