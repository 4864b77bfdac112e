/** Quoting paths for the credential helper's script, and reading them back as the shell does. */
module ShellQuoting {
  import opened Options

  // ---- what the quoting writes ----

  /** `s` inside single quotes: each apostrophe closes, escapes itself and opens again. */
  function Apostrophes(s: string): string {
    if s == "" then "" else (if s[0] == '\'' then "'\\''" else [s[0]]) + Apostrophes(s[1..])
  }

  function SingleQuoted(s: string): string { "'" + Apostrophes(s) + "'" }

  method ShSingleQuote(s: string) returns (out: string)
    ensures out == SingleQuoted(s)
  {
    out := "'";
    for i := 0 to |s|
      invariant out + Apostrophes(s[i..]) == "'" + Apostrophes(s)
    {
      var ch := s[i];
      assert s[i..][1..] == s[i+1..];
      out := out + if ch == '\'' then "'\\''" else [ch];
    }
    out := out + "'";
  }

  function ExecLine(binary: string, dataDir: string): string {
    "exec " + SingleQuoted(binary) + " --credential-helper --data-dir " + SingleQuoted(dataDir) + " < /dev/stdin\n"
  }

  method WriteExecLine(binary: string, dataDir: string) returns (line: string)
    ensures line == ExecLine(binary, dataDir)
    ensures Lex(line, Plain, None)
         == Some(CommandTokens("exec", binary, "--credential-helper", "--data-dir", dataDir, "/dev/stdin"))
  {
    ExecLineIsRead(binary, dataDir);
    var b := ShSingleQuote(binary);
    var d := ShSingleQuote(dataDir);
    line := "exec " + b + " --credential-helper --data-dir " + d + " < /dev/stdin\n";
  }

  // ---- the shell's token recognition (POSIX XCU, sections 2.2.1, 2.2.2 and 2.3) ----

  /** A character of a word, and whether quoting took its special meaning away. */
  datatype WordChar = WordChar(c: char, quoted: bool)

  datatype Token = Word(chars: seq<WordChar>) | Operator(c: char) | NewLine

  datatype Mode = Plain | InSingleQuotes

  function Chars(word: Option<seq<WordChar>>): seq<WordChar> {
    if word.Some? then word.value else []
  }

  function Delimited(word: Option<seq<WordChar>>, rest: Option<seq<Token>>): Option<seq<Token>> {
    if rest.None? then None else if word.None? then rest else Some([Word(word.value)] + rest.value)
  }

  function Behind(token: Token, rest: Option<seq<Token>>): Option<seq<Token>> {
    if rest.None? then None else Some([token] + rest.value)
  }

  /** The tokens of `s`, `word` being what the current one has so far. An open quotation at the end
      has no reading; nor, here, has anything that would expand, be a comment or use double quotes. */
  function Lex(s: string, mode: Mode, word: Option<seq<WordChar>>): Option<seq<Token>>
    decreases |s|
  {
    if s == "" then
      if mode == InSingleQuotes then None else Delimited(word, Some([]))
    else if mode == InSingleQuotes then
      if s[0] == '\'' then Lex(s[1..], Plain, word)
      else Lex(s[1..], InSingleQuotes, Some(Chars(word) + [WordChar(s[0], true)]))
    else if s[0] == '\'' then Lex(s[1..], InSingleQuotes, Some(Chars(word)))
    else if s[0] == '\\' then
      if |s| == 1 then None
      else if s[1] == '\n' then Lex(s[2..], Plain, word)
      else Lex(s[2..], Plain, Some(Chars(word) + [WordChar(s[1], true)]))
    else if s[0] == '"' || s[0] == '$' || s[0] == '`' || (s[0] == '#' && word.None?) then None
    else if s[0] == ' ' || s[0] == '\t' then Delimited(word, Lex(s[1..], Plain, None))
    else if s[0] == '\n' then Delimited(word, Behind(NewLine, Lex(s[1..], Plain, None)))
    else if s[0] in "&|;<>()" then Delimited(word, Behind(Operator(s[0]), Lex(s[1..], Plain, None)))
    else Lex(s[1..], Plain, Some(Chars(word) + [WordChar(s[0], false)]))
  }

  function Marked(s: string, quoted: bool): seq<WordChar> {
    seq(|s|, i requires 0 <= i < |s| => WordChar(s[i], quoted))
  }

  /** What the word comes to once its quotes are gone. */
  function Value(word: seq<WordChar>): string {
    seq(|word|, i requires 0 <= i < |word| => word[i].c)
  }

  /** Closing, an escaped apostrophe and opening again leave one quoted apostrophe. */
  lemma ApostropheIsRead(rest: string, word: seq<WordChar>)
    ensures Lex("'\\''" + rest, InSingleQuotes, Some(word)) ==
            Lex(rest, InSingleQuotes, Some(word + [WordChar('\'', true)]))
  {
    var closed := "\\''" + rest;
    assert ("'\\''" + rest)[1..] == closed;
    assert Lex("'\\''" + rest, InSingleQuotes, Some(word)) == Lex(closed, Plain, Some(word));
    var open := "'" + rest;
    assert closed[0] == '\\' && closed[1] == '\'' && closed[2..] == open;
    var word' := word + [WordChar('\'', true)];
    assert Lex(closed, Plain, Some(word)) == Lex(open, Plain, Some(word'));
    assert open[1..] == rest;
  }

  lemma QuotedCharIsRead(ch: char, rest: string, word: seq<WordChar>)
    requires ch != '\''
    ensures Lex([ch] + rest, InSingleQuotes, Some(word)) == Lex(rest, InSingleQuotes, Some(word + [WordChar(ch, true)]))
  {
    assert ([ch] + rest)[1..] == rest;
  }

  lemma {:induction false} QuotedBodyIsRead(s: string, tail: string, word: seq<WordChar>)
    ensures Lex(Apostrophes(s) + "'" + tail, InSingleQuotes, Some(word)) ==
            Lex(tail, Plain, Some(word + Marked(s, true)))
    decreases |s|
  {
    var line := Apostrophes(s) + "'" + tail;
    if s == "" {
      assert line == "'" + tail && line[1..] == tail;
      assert word + Marked(s, true) == word;
    } else {
      var rest := Apostrophes(s[1..]) + "'" + tail;
      var word' := word + [WordChar(s[0], true)];
      QuotedBodyIsRead(s[1..], tail, word');
      assert word' + Marked(s[1..], true) == word + Marked(s, true);
      if s[0] == '\'' {
        assert line == "'\\''" + rest;
        ApostropheIsRead(rest, word);
      } else {
        assert line == [s[0]] + rest;
        QuotedCharIsRead(s[0], rest, word);
      }
    }
  }

  /** Wherever it stands, the quoted form of any string adds just that string to the current word,
      with every character quoted, and leaves the quotation closed. */
  lemma QuotedIsRead(s: string, tail: string, word: Option<seq<WordChar>>)
    ensures Lex(SingleQuoted(s) + tail, Plain, word) == Lex(tail, Plain, Some(Chars(word) + Marked(s, true)))
  {
    var line := SingleQuoted(s) + tail;
    assert line[0] == '\'';
    assert line[1..] == Apostrophes(s) + "'" + tail;
    QuotedBodyIsRead(s, tail, Chars(word));
  }

  /** The quoted form of any string is one word, all of it quoted, whose value is the string. */
  lemma QuotedIsOneWord(s: string)
    ensures Lex(SingleQuoted(s), Plain, None) == Some([Word(Marked(s, true))])
    ensures Value(Marked(s, true)) == s
  {
    QuotedIsRead(s, "", None);
    assert SingleQuoted(s) + "" == SingleQuoted(s);
    assert [] + Marked(s, true) == Marked(s, true);
    LineEnds(Marked(s, true));
  }

  lemma LineEnds(word: seq<WordChar>)
    ensures Lex("", Plain, Some(word)) == Some([Word(word)])
  {
    assert [Word(word)] + [] == [Word(word)];
  }

  predicate Ordinary(c: char) {
    'a' <= c <= 'z' || c == '-' || c == '/'
  }

  lemma {:induction false} OrdinaryIsRead(s: string, tail: string, word: Option<seq<WordChar>>)
    requires s != "" && forall i :: 0 <= i < |s| ==> Ordinary(s[i])
    ensures Lex(s + tail, Plain, word) == Lex(tail, Plain, Some(Chars(word) + Marked(s, false)))
    decreases |s|
  {
    var word' := Chars(word) + [WordChar(s[0], false)];
    assert (s + tail)[0] == s[0] && (s + tail)[1..] == s[1..] + tail;
    assert word' + Marked(s[1..], false) == Chars(word) + Marked(s, false);
    if |s| == 1 {
      assert s[1..] + tail == tail;
      assert word' + [] == word';
    } else {
      OrdinaryIsRead(s[1..], tail, Some(word'));
    }
  }

  lemma BlankIsRead(tail: string, word: Option<seq<WordChar>>)
    ensures Lex(" " + tail, Plain, word) == Delimited(word, Lex(tail, Plain, None))
  {
    assert (" " + tail)[1..] == tail;
  }

  lemma WordIsRead(s: string, tail: string)
    requires s != "" && forall i :: 0 <= i < |s| ==> Ordinary(s[i])
    ensures Lex(s + (" " + tail), Plain, None) == Behind(Word(Marked(s, false)), Lex(tail, Plain, None))
  {
    OrdinaryIsRead(s, " " + tail, None);
    BlankIsRead(tail, Some([] + Marked(s, false)));
    assert [] + Marked(s, false) == Marked(s, false);
  }

  lemma QuotedWordIsRead(s: string, tail: string)
    ensures Lex(SingleQuoted(s) + (" " + tail), Plain, None) == Behind(Word(Marked(s, true)), Lex(tail, Plain, None))
  {
    QuotedIsRead(s, " " + tail, None);
    BlankIsRead(tail, Some([] + Marked(s, true)));
    assert [] + Marked(s, true) == Marked(s, true);
  }

  lemma RedirectionIsRead(path: string)
    requires path != "" && forall i :: 0 <= i < |path| ==> Ordinary(path[i])
    ensures Lex("<" + (" " + (path + "\n")), Plain, None)
         == Some([Operator('<'), Word(Marked(path, false)), NewLine])
  {
    var tail := path + "\n";
    OperatorIsRead(" " + tail);
    BlankIsRead(tail, None);
    LastWordIsRead(path);
    var word := Word(Marked(path, false));
    assert [Operator('<')] + [word, NewLine] == [Operator('<'), word, NewLine];
  }

  lemma LastWordIsRead(path: string)
    requires path != "" && forall i :: 0 <= i < |path| ==> Ordinary(path[i])
    ensures Lex(path + "\n", Plain, None) == Some([Word(Marked(path, false)), NewLine])
  {
    OrdinaryIsRead(path, "\n", None);
    assert [] + Marked(path, false) == Marked(path, false);
    NewLineIsRead(Marked(path, false));
  }

  lemma NewLineIsRead(word: seq<WordChar>)
    ensures Lex("\n", Plain, Some(word)) == Some([Word(word), NewLine])
  {
    assert "\n"[1..] == "";
    assert Lex("", Plain, None) == Some([]);
    assert [NewLine] + [] == [NewLine] && [Word(word)] + [NewLine] == [Word(word), NewLine];
  }

  lemma OperatorIsRead(tail: string)
    ensures Lex("<" + tail, Plain, None) == Behind(Operator('<'), Lex(tail, Plain, None))
  {
    assert ("<" + tail)[1..] == tail;
    assert "&|;<>()"[3] == '<';
  }

  function CommandTokens(command: string, binary: string, flag: string, dirFlag: string, dataDir: string,
                         input: string): seq<Token> {
    [Word(Marked(command, false)), Word(Marked(binary, true)), Word(Marked(flag, false)), Word(Marked(dirFlag, false)),
     Word(Marked(dataDir, true)), Operator('<'), Word(Marked(input, false)), NewLine]
  }

  function CommandLine(command: string, binary: string, flag: string, dirFlag: string, dataDir: string,
                       input: string): string {
    command + (" " + (SingleQuoted(binary) + (" " + (flag + (" " + (dirFlag + (" " + (SingleQuoted(dataDir)
    + (" " + ("<" + (" " + (input + "\n"))))))))))))
  }

  lemma CommandLineIsRead(command: string, binary: string, flag: string, dirFlag: string, dataDir: string,
                          input: string)
    requires command != "" && flag != "" && dirFlag != "" && input != ""
    requires forall c :: c in command || c in flag || c in dirFlag || c in input ==> Ordinary(c)
    ensures Lex(CommandLine(command, binary, flag, dirFlag, dataDir, input), Plain, None)
         == Some(CommandTokens(command, binary, flag, dirFlag, dataDir, input))
  {
    var t5 := "<" + (" " + (input + "\n"));
    var t4 := SingleQuoted(dataDir) + (" " + t5);
    var t3 := dirFlag + (" " + t4);
    var t2 := flag + (" " + t3);
    var t1 := SingleQuoted(binary) + (" " + t2);
    WordIsRead(command, t1);
    QuotedWordIsRead(binary, t2);
    WordIsRead(flag, t3);
    WordIsRead(dirFlag, t4);
    QuotedWordIsRead(dataDir, t5);
    RedirectionIsRead(input);
    var r5 := [Operator('<'), Word(Marked(input, false)), NewLine];
    var r4 := [Word(Marked(dataDir, true))] + r5;
    var r3 := [Word(Marked(dirFlag, false))] + r4;
    var r2 := [Word(Marked(flag, false))] + r3;
    assert [Word(Marked(command, false))] + ([Word(Marked(binary, true))] + r2)
        == CommandTokens(command, binary, flag, dirFlag, dataDir, input);
  }

  lemma CommandLineGroups(command: string, b: string, flag: string, dirFlag: string, d: string, sp: string,
                          tail: string)
    ensures command + sp + b + (sp + flag + sp + dirFlag + sp) + d + (sp + tail)
         == command + (sp + (b + (sp + (flag + (sp + (dirFlag + (sp + (d + (sp + tail)))))))))
  {
  }

  lemma ExecLineIsCommandLine(binary: string, dataDir: string)
    ensures ExecLine(binary, dataDir)
         == CommandLine("exec", binary, "--credential-helper", "--data-dir", dataDir, "/dev/stdin")
  {
    assert "exec " == "exec" + " ";
    assert " --credential-helper --data-dir " == " " + "--credential-helper" + " " + "--data-dir" + " ";
    assert " < /dev/stdin\n" == " " + ("<" + (" " + ("/dev/stdin" + "\n")));
    CommandLineGroups("exec", SingleQuoted(binary), "--credential-helper", "--data-dir", SingleQuoted(dataDir), " ",
            "<" + (" " + ("/dev/stdin" + "\n")));
  }

  /** For any binary and data directory the line is the command, the binary, the two flags, the
      directory and the redirection: nothing in either path ends a word, expands or adds one. */
  lemma ExecLineIsRead(binary: string, dataDir: string)
    ensures Lex(ExecLine(binary, dataDir), Plain, None)
         == Some(CommandTokens("exec", binary, "--credential-helper", "--data-dir", dataDir, "/dev/stdin"))
  {
    ExecLineIsCommandLine(binary, dataDir);
    CommandLineIsRead("exec", binary, "--credential-helper", "--data-dir", dataDir, "/dev/stdin");
  }

  // ---- the program the line starts ----

  /** What the data-directory argument is among `args`, if it is there. */
  function DataDirArg(args: seq<string>): Option<string> {
    if args == [] then None
    else if args[0] == "--data-dir" then if |args| > 1 then Some(args[1]) else None
    else if "--data-dir=" <= args[0] then Some(args[0][|"--data-dir="|..])
    else DataDirArg(args[1..])
  }

  /** An argument that gives the directory: by itself, or in front of the next one. */
  predicate GivesDataDir(arg: string) { arg == "--data-dir" || "--data-dir=" <= arg }

  lemma {:induction false} FirstDataDirArg(args: seq<string>, k: nat)
    requires k <= |args| && forall i :: 0 <= i < k ==> !GivesDataDir(args[i])
    requires k < |args| ==> GivesDataDir(args[k])
    ensures k == |args| ==> DataDirArg(args) == None
    ensures k + 1 == |args| && args[k] == "--data-dir" ==> DataDirArg(args) == None
    ensures k + 1 < |args| && args[k] == "--data-dir" ==> DataDirArg(args) == Some(args[k+1])
    ensures forall dir :: k < |args| && args[k] == "--data-dir=" + dir ==> DataDirArg(args) == Some(dir)
  {
    if k > 0 {
      FirstDataDirArg(args[1..], k - 1);
    } else if k < |args| {
      forall dir | args[k] == "--data-dir=" + dir ensures DataDirArg(args) == Some(dir) {
        assert args[0][10] == '=';
        assert ("--data-dir=" + dir)[|"--data-dir="|..] == dir;
      }
    }
  }

  method ParseDataDirArg(args: seq<string>) returns (dir: Option<string>)
    ensures dir == DataDirArg(args)
  {
    var i := 0;
    while i < |args|
      invariant i <= |args| && DataDirArg(args) == DataDirArg(args[i..])
    {
      var arg := args[i];
      i := i + 1;
      assert args[i-1..][1..] == args[i..];
      if arg == "--data-dir" {
        return if i < |args| then Some(args[i]) else None;
      }
      if "--data-dir=" <= arg {
        return Some(arg[|"--data-dir="|..]);
      }
    }
    return None;
  }

  /** The words of a simple command but the first, which `exec` replaces the shell with. */
  function Arguments(tokens: seq<Token>): seq<string> {
    if tokens == [] || !tokens[0].Word? then [] else [Value(tokens[0].chars)] + Arguments(tokens[1..])
  }

  lemma ValueOfMarked(s: string, quoted: bool)
    ensures Value(Marked(s, quoted)) == s
  {
  }

  lemma ArgumentsBehind(w: string, quoted: bool, rest: seq<Token>)
    ensures Arguments([Word(Marked(w, quoted))] + rest) == [w] + Arguments(rest)
  {
    ValueOfMarked(w, quoted);
    assert ([Word(Marked(w, quoted))] + rest)[1..] == rest;
  }

  /** The program that the line starts finds the directory the line was written for, whatever the
      two paths hold: the binary's own path need only not look like the flag. */
  lemma HelperFindsItsDataDir(binary: string, dataDir: string)
    requires binary != "--data-dir" && !("--data-dir=" <= binary)
    ensures var tokens := Lex(ExecLine(binary, dataDir), Plain, None);
      && tokens.Some? && tokens.value != []
      && Arguments(tokens.value[1..]) == [binary, "--credential-helper", "--data-dir", dataDir]
      && DataDirArg(Arguments(tokens.value[1..])) == Some(dataDir)
  {
    ExecLineIsRead(binary, dataDir);
    CommandArguments("exec", binary, "--credential-helper", "--data-dir", dataDir, "/dev/stdin");
    assert "--credential-helper"[2] != "--data-dir="[2];
    SkipTwo(binary, "--credential-helper", "--data-dir", dataDir);
  }

  lemma CommandArguments(command: string, binary: string, flag: string, dirFlag: string, dataDir: string, input: string)
    ensures Arguments(CommandTokens(command, binary, flag, dirFlag, dataDir, input)[1..])
         == [binary, flag, dirFlag, dataDir]
  {
    var r4 := [Operator('<'), Word(Marked(input, false)), NewLine];
    var r3 := [Word(Marked(dataDir, true))] + r4;
    var r2 := [Word(Marked(dirFlag, false))] + r3;
    var r1 := [Word(Marked(flag, false))] + r2;
    assert CommandTokens(command, binary, flag, dirFlag, dataDir, input)[1..] == [Word(Marked(binary, true))] + r1;
    ArgumentsBehind(dataDir, true, r4);
    ArgumentsBehind(dirFlag, false, r3);
    ArgumentsBehind(flag, false, r2);
    ArgumentsBehind(binary, true, r1);
  }

  lemma SkipTwo(binary: string, flag: string, dirFlag: string, dataDir: string)
    requires binary != "--data-dir" && !("--data-dir=" <= binary)
    requires flag != "--data-dir" && !("--data-dir=" <= flag) && dirFlag == "--data-dir"
    ensures DataDirArg([binary, flag, dirFlag, dataDir]) == Some(dataDir)
  {
    var args := [binary, flag, dirFlag, dataDir];
    assert args[1..] == [flag, dirFlag, dataDir];
    assert args[1..][1..] == [dirFlag, dataDir];
    assert DataDirArg(args) == DataDirArg(args[1..]);
    assert DataDirArg(args[1..]) == DataDirArg(args[1..][1..]);
  }
}
