/** Undoing an AppImage launcher's environment for the programs the application starts. */
module AppImageEnv {
  import opened Options
  import opened Splitting

  const XDG_DATA_DIRS := "XDG_DATA_DIRS"
  const HOOK_DATA_DIR := "/usr/share"

  const IMAGE_SEARCH_PATHS: seq<string> := [
    "PATH", "LD_LIBRARY_PATH", "PYTHONHOME", "PYTHONPATH", "PERLLIB", "QT_PLUGIN_PATH", XDG_DATA_DIRS,
    "GSETTINGS_SCHEMA_DIR", "GTK_DATA_PREFIX", "GTK_EXE_PREFIX", "GTK_PATH", "GTK_IM_MODULE_FILE",
    "GDK_PIXBUF_MODULE_FILE", "GIO_MODULE_DIR", "GI_TYPELIB_PATH", "APPDIR"]

  const REBUILT_SEARCH_PATHS: seq<string> := ["GST_PLUGIN_SYSTEM_PATH", "GST_PLUGIN_SYSTEM_PATH_1_0"]

  const LAUNCHER_VALUES: seq<string> := ["APPIMAGE", "ARGV0", "OWD", "GTK_THEME", "PYTHONDONTWRITEBYTECODE"]

  const SEARCH_KEYS: seq<string> := IMAGE_SEARCH_PATHS + REBUILT_SEARCH_PATHS

  predicate IsColon(c: char) { c == ':' }

  predicate IsSlash(c: char) { c == '/' }

  // ---- paths, by components ----

  /** The root if there is one, a leading `.`, and the names among the pieces. */
  function Named(rooted: bool, pieces: seq<string>): seq<string>
    requires pieces != []
  {
    (if rooted then ["/"] else if pieces[0] == "." then ["."] else [])
    + Filter(NonEmpty(pieces), (p: string) => p != ".")
  }

  /** A path's components, as paths are compared. */
  function Components(path: string): seq<string> {
    Named(path != "" && path[0] == '/', Split(path, IsSlash))
  }

  predicate SamePath(p: string, q: string) {
    Components(p) == Components(q)
  }

  predicate Mentions(entries: seq<string>, dir: string) {
    exists e :: e in entries && SamePath(e, dir)
  }

  datatype Image = Image(roots: seq<string>) {
    predicate Contains(path: string) {
      exists root :: root in roots && Components(root) <= Components(path)
    }

    function Kept(entries: seq<string>): seq<string> {
      Filter(entries, e => e != "" && !Contains(e))
    }

    /** What becomes of `key`'s value for a program to be started: nothing to change, or the value
        it gets instead, or none. */
    function Change(key: string, value: string): Option<Option<string>> {
      var entries := Split(value, IsColon);
      if forall e :: e in entries ==> !Contains(e) then None
      else if key in REBUILT_SEARCH_PATHS then Some(None)
      else
        var kept := Kept(entries);
        Some(Listed(if key == XDG_DATA_DIRS then WithoutFirst(kept, HOOK_DATA_DIR) else kept))
    }
  }

  /** The first entry goes when it is `dir` and that changes nothing: `dir` is listed again, or there is
      nothing else. */
  function WithoutFirst(entries: seq<string>, dir: string): seq<string> {
    if entries != [] && SamePath(entries[0], dir) && (|entries| == 1 || Mentions(entries[1..], dir)) then entries[1..]
    else entries
  }

  /** A search path's value; none at all when it has no entries. */
  function Listed(entries: seq<string>): Option<string> {
    if entries == [] then None else Some(Join(entries, ':'))
  }

  /** A command about to be started: what it sets (`Some`) or removes (`None`) itself. */
  type Settings = map<string, Option<string>>

  function Setting(own: Settings, key: string): Option<Option<string>> {
    if key in own then Some(own[key]) else None
  }

  /** The value the started program finds. */
  function Seen(own: Settings, inherited: map<string, string>, key: string): Option<string> {
    if key in own then own[key] else if key in inherited then Some(inherited[key]) else None
  }

  function Searched(image: Image, own: Settings, inherited: map<string, string>, key: string): Option<Option<string>> {
    var value := Seen(own, inherited, key);
    var change := if value.Some? then image.Change(key, value.value) else None;
    if change.Some? then change else Setting(own, key)
  }

  function Restored(image: Image, own: Settings, inherited: map<string, string>, key: string): Option<Option<string>> {
    if key in LAUNCHER_VALUES && key !in own && key in inherited then Some(None)
    else if key in SEARCH_KEYS then Searched(image, own, inherited, key)
    else Setting(own, key)
  }

  /** `after` is `own` with the session's environment put back. */
  ghost predicate IsRestored(image: Image, own: Settings, inherited: map<string, string>, after: Settings) {
    forall key :: Setting(after, key) == Restored(image, own, inherited, key)
  }

  /** The search of `keys` is done, and nothing else. */
  ghost predicate SearchedThrough(image: Image, own: Settings, inherited: map<string, string>, keys: seq<string>,
                                  after: Settings) {
    forall key ::
      Setting(after, key) == (if key in keys then Searched(image, own, inherited, key) else Setting(own, key))
  }

  /** Of `searched`, those of `keys` that are inherited and not the command's own are removed. */
  ghost predicate Cleared(own: Settings, inherited: map<string, string>, keys: seq<string>, searched: Settings,
                          after: Settings) {
    forall key ::
      Setting(after, key) ==
        (if key in keys && key !in own && key in inherited then Some(None) else Setting(searched, key))
  }

  lemma SearchOne(image: Image, own: Settings, inherited: map<string, string>, keys: seq<string>, after: Settings,
                  key: string)
    requires SearchedThrough(image, own, inherited, keys, after)
    ensures var value := Seen(own, inherited, key);
      var change := if value.Some? then image.Change(key, value.value) else None;
      SearchedThrough(image, own, inherited, keys + [key], if change.Some? then after[key := change.value] else after)
  {
  }

  lemma BothAreRestored(image: Image, own: Settings, inherited: map<string, string>, searched: Settings,
                        after: Settings)
    requires SearchedThrough(image, own, inherited, SEARCH_KEYS, searched)
    requires Cleared(own, inherited, LAUNCHER_VALUES, searched, after)
    ensures IsRestored(image, own, inherited, after)
  {
  }

  lemma ClearOne(own: Settings, inherited: map<string, string>, keys: seq<string>, searched: Settings,
                 after: Settings, key: string)
    requires Cleared(own, inherited, keys, searched, after)
    ensures Cleared(own, inherited, keys + [key], searched,
                    if key !in own && key in inherited then after[key := None] else after)
  {
  }

  class Command {
    var envs: Settings

    constructor (own: Settings)
      ensures envs == own
    {
      envs := own;
    }

    method RestoreSearchPaths(image: Image, inherited: map<string, string>)
      modifies this
      ensures SearchedThrough(image, old(envs), inherited, SEARCH_KEYS, envs)
    {
      var own := envs;
      for i := 0 to |SEARCH_KEYS|
        invariant SearchedThrough(image, own, inherited, SEARCH_KEYS[..i], envs)
      {
        var key := SEARCH_KEYS[i];
        assert SEARCH_KEYS[..i+1] == SEARCH_KEYS[..i] + [key];
        SearchOne(image, own, inherited, SEARCH_KEYS[..i], envs, key);
        var value := if key in own then own[key] else if key in inherited then Some(inherited[key]) else None;
        if value.Some? {
          var change := image.Change(key, value.value);
          if change.Some? {
            envs := envs[key := change.value];
          }
        }
      }
      assert SEARCH_KEYS[..|SEARCH_KEYS|] == SEARCH_KEYS;
    }

    method Restore(image: Image, inherited: map<string, string>)
      modifies this
      ensures IsRestored(image, old(envs), inherited, envs)
    {
      var own := envs;
      RestoreSearchPaths(image, inherited);
      ghost var searched := envs;
      for i := 0 to |LAUNCHER_VALUES|
        invariant Cleared(own, inherited, LAUNCHER_VALUES[..i], searched, envs)
      {
        var key := LAUNCHER_VALUES[i];
        assert LAUNCHER_VALUES[..i+1] == LAUNCHER_VALUES[..i] + [key];
        ClearOne(own, inherited, LAUNCHER_VALUES[..i], searched, envs, key);
        if key !in own && key in inherited {
          envs := envs[key := None];
        }
      }
      assert LAUNCHER_VALUES[..|LAUNCHER_VALUES|] == LAUNCHER_VALUES;
      BothAreRestored(image, own, inherited, searched, envs);
    }
  }

  // ---- the command's own settings ----

  /** What a command sets or removes itself stays, unless it is a search path with an entry in the image. */
  lemma OwnSettingStays(image: Image, own: Settings, inherited: map<string, string>, after: Settings, key: string)
    requires IsRestored(image, own, inherited, after) && key in own
    requires key in SEARCH_KEYS && own[key].Some? ==> Outside(image, Split(own[key].value, IsColon))
    ensures Setting(after, key) == Some(own[key])
  {
    assert Setting(after, key) == Restored(image, own, inherited, key);
  }

  /** And one that has, comes undone like an inherited one. */
  lemma OwnSearchPathComesUndone(image: Image, own: Settings, inherited: map<string, string>, after: Settings,
                                 key: string, front: seq<string>, dirs: seq<string>, session: string)
    requires IsRestored(image, own, inherited, after) && key in own
    requires own[key] == Some(Join(front + dirs + [session], ':'))
    requires key in IMAGE_SEARCH_PATHS && key != XDG_DATA_DIRS
    requires dirs != [] && AllFree(dirs, IsColon) && Inside(image, dirs)
    requires AllFree(front, IsColon) && Outside(image, front) && "" !in front
    requires Outside(image, Split(session, IsColon))
    ensures Setting(after, key) == Some(Listed(front + Words(session, IsColon)))
  {
    KeysAreApart(key);
    SearchPathsAreNoLauncherValues(key);
    UndoesTheLauncher(image, key, front, dirs, session);
    assert Setting(after, key) == Restored(image, own, inherited, key);
  }

  lemma SearchPathsAreNoLauncherValues(key: string)
    requires key in IMAGE_SEARCH_PATHS
    ensures key !in LAUNCHER_VALUES && key in SEARCH_KEYS
  {
  }

  // ---- which paths are the image's ----

  /** A slash more or less behind a path, or a `/.`, is no other path. */
  lemma SlashesDoNotMatter(path: string)
    requires path != ""
    ensures SamePath(path + "/", path) && SamePath(path + "/.", path)
  {
    ComponentsBelow(path, "");
    ComponentsBelow(path, ".");
    SplitOfOne("", IsSlash);
    SplitOfOne(".", IsSlash);
    assert path + "/" + "" == path + "/" && path + "/" + "." == path + "/.";
    assert NonEmpty([""]) == [] && NonEmpty(["."]) == ["."];
    assert Filter(["."], (p: string) => p != ".") == [];
    assert Components(path) + [] == Components(path);
  }

  lemma ComponentsOfName(dir: string, name: string)
    requires dir != "" && name != "" && name != "." && Free(name, IsSlash)
    ensures Components(dir + "/" + name) == Components(dir) + [name]
  {
    ComponentsBelow(dir, name);
    SplitOfOne(name, IsSlash);
    NonEmptyKeeps([name]);
    FilterKeeps([name], (p: string) => p != ".");
  }

  /** A directory beside the root whose name only begins like it is outside, with all below it. */
  lemma LongerNameIsOutside(dir: string, name: string, more: string, rest: string)
    requires dir != "" && name != "" && name != "." && Free(name, IsSlash)
    requires more != "" && name + more != "." && Free(more, IsSlash)
    ensures !Image([dir + "/" + name]).Contains(dir + "/" + (name + more))
    ensures !Image([dir + "/" + name]).Contains(dir + "/" + (name + more) + "/" + rest)
  {
    var n := |Components(dir)|;
    var image, sibling := Image([dir + "/" + name]), dir + "/" + (name + more);
    ComponentsOfName(dir, name);
    ComponentsOfName(dir, name + more);
    ComponentsBelow(sibling, rest);
    assert Components(sibling)[n] == name + more && Components(dir + "/" + name)[n] == name;
    assert Components(sibling + "/" + rest)[n] == name + more;
    assert |name + more| > |name|;
    forall root | root in image.roots
      ensures !(Components(root) <= Components(sibling)) && !(Components(root) <= Components(sibling + "/" + rest))
    {
      assert Components(root)[n] == name;
    }
  }

  // ---- one variable ----

  /** No entry lies in the image. */
  ghost predicate Outside(image: Image, entries: seq<string>) {
    forall e :: e in entries ==> !image.Contains(e)
  }

  ghost predicate Inside(image: Image, entries: seq<string>) {
    forall e :: e in entries ==> image.Contains(e)
  }

  lemma KeptAre(image: Image, entries: seq<string>)
    ensures forall e :: e in image.Kept(entries) <==> e in entries && e != "" && !image.Contains(e)
    ensures Outside(image, entries) ==> image.Kept(entries) == NonEmpty(entries)
    ensures Inside(image, entries) ==> image.Kept(entries) == []
  {
    var keep := e => e != "" && !image.Contains(e);
    assert image.Kept(entries) == Filter(entries, keep);
    FilterKeeps(entries, keep);
    if Outside(image, entries) {
      FilterAlike(entries, keep, (p: string) => p != "");
    }
  }

  lemma KeptConcat(image: Image, a: seq<string>, b: seq<string>)
    ensures image.Kept(a + b) == image.Kept(a) + image.Kept(b)
  {
    FilterConcat(a, b, e => e != "" && !image.Contains(e));
  }

  lemma NamedBelow(rooted: bool, a: seq<string>, b: seq<string>)
    requires a != []
    ensures Named(rooted, a + b) == Named(rooted, a) + Filter(NonEmpty(b), (p: string) => p != ".")
  {
    NonEmptyConcat(a, b);
    FilterConcat(NonEmpty(a), NonEmpty(b), (p: string) => p != ".");
    assert (a + b)[0] == a[0];
  }

  lemma ComponentsBelow(root: string, rest: string)
    requires root != ""
    ensures Components(root + "/" + rest) ==
      Components(root) + Filter(NonEmpty(Split(rest, IsSlash)), (p: string) => p != ".")
  {
    SplitAtSeparator(root, '/', rest, IsSlash);
    assert root + ['/'] + rest == root + "/" + rest;
    NamedBelow(root[0] == '/', Split(root, IsSlash), Split(rest, IsSlash));
  }

  /** Everything below a root is inside, however many slashes the launcher writes. */
  lemma BelowTheRootIsInside(image: Image, root: string, rest: string)
    requires root in image.roots && root != ""
    ensures image.Contains(root + "/" + rest)
  {
    ComponentsBelow(root, rest);
  }

  /** What the launcher joined onto a session's value, and what stays of it. `front` is what the
      application itself has put before both. */
  lemma JoinedEntries(image: Image, front: seq<string>, dirs: seq<string>, session: string)
    requires dirs != [] && AllFree(dirs, IsColon) && Inside(image, dirs)
    requires AllFree(front, IsColon) && Outside(image, front) && "" !in front
    requires Outside(image, Split(session, IsColon))
    ensures var entries := front + dirs + Split(session, IsColon);
      && Split(Join(front + dirs + [session], ':'), IsColon) == entries
      && image.Kept(entries) == front + Words(session, IsColon)
      && !Outside(image, entries)
  {
    var before := front + dirs;
    JoinConcat(before, [session], ':');
    SplitOfJoin(before, ':', IsColon);
    SplitAtSeparator(Join(before, ':'), ':', session, IsColon);
    KeptConcat(image, before, Split(session, IsColon));
    KeptConcat(image, front, dirs);
    KeptAre(image, front);
    NonEmptyKeeps(front);
    KeptAre(image, dirs);
    KeptAre(image, Split(session, IsColon));
    assert front + [] == front;
    assert dirs[0] in before + Split(session, IsColon);
  }

  /** The image's directories joined with a session's value come undone: what stood before them and
      the session's entries are left, in order, and the variable goes when there are none. */
  lemma UndoesTheLauncher(image: Image, key: string, front: seq<string>, dirs: seq<string>, session: string)
    requires dirs != [] && AllFree(dirs, IsColon) && Inside(image, dirs)
    requires AllFree(front, IsColon) && Outside(image, front) && "" !in front
    requires Outside(image, Split(session, IsColon))
    requires key != XDG_DATA_DIRS && key !in REBUILT_SEARCH_PATHS
    ensures image.Change(key, Join(front + dirs + [session], ':')) == Some(Listed(front + Words(session, IsColon)))
  {
    JoinedEntries(image, front, dirs, session);
  }

  /** A value that lies wholly in the image is removed. */
  lemma OverwrittenGoes(image: Image, key: string, dirs: seq<string>)
    requires dirs != [] && AllFree(dirs, IsColon) && Inside(image, dirs)
    ensures image.Change(key, Join(dirs, ':')) == Some(None)
  {
    SplitOfJoin(dirs, ':', IsColon);
    KeptAre(image, dirs);
    assert image.Contains(dirs[0]);
  }

  /** The entries found are the whole value exactly when nothing stands before them and the value has
      no empty entry. */
  lemma ListedIsWholeIff(before: seq<string>, value: string)
    requires AllFree(before, IsColon) && "" !in before
    ensures Listed(before + Words(value, IsColon)) == Some(value) <==> before == [] && "" !in Split(value, IsColon)
  {
    var words := Words(value, IsColon);
    WordsAreWhole(value, IsColon);
    if Listed(before + words) == Some(value) {
      SplitOfJoin(before + words, ':', IsColon);
      NonEmptyKeeps(before + words);
      assert |before + words| == |words|;
    }
    if before == [] && "" !in Split(value, IsColon) {
      NonEmptyKeeps(Split(value, IsColon));
      JoinOfSplit(value, ':', IsColon);
      assert before + words == words;
    }
  }

  /** What stays of the hook's own directory in front of a session's `XDG_DATA_DIRS`. */
  function HookStays(session: string): seq<string> {
    var entries := Words(session, IsColon);
    if entries == [] || Mentions(entries, HOOK_DATA_DIR) then [] else [HOOK_DATA_DIR]
  }

  /** The hook's `/usr/share` goes with the image's directories exactly when the session has it
      again, or had no value. */
  lemma UndoesTheHook(image: Image, dirs: seq<string>, session: string)
    requires dirs != [] && AllFree(dirs, IsColon) && Inside(image, dirs)
    requires Outside(image, Split(session, IsColon)) && !image.Contains(HOOK_DATA_DIR)
    ensures image.Change(XDG_DATA_DIRS, Join(dirs + [HOOK_DATA_DIR + ":" + session], ':'))
         == Some(Listed(HookStays(session) + Words(session, IsColon)))
  {
    var value := HOOK_DATA_DIR + ":" + session;
    HookEntries(session);
    DirsGo(image, dirs, value);
    HookChanges(image, Join(dirs + [value], ':'), Words(session, IsColon));
    StaysOrGoes(session);
  }

  lemma DirsGo(image: Image, dirs: seq<string>, value: string)
    requires dirs != [] && AllFree(dirs, IsColon) && Inside(image, dirs)
    requires Outside(image, Split(value, IsColon))
    ensures var joined := Join(dirs + [value], ':');
      && image.Kept(Split(joined, IsColon)) == Words(value, IsColon) && !Outside(image, Split(joined, IsColon))
  {
    JoinedEntries(image, [], dirs, value);
    assert [] + dirs == dirs && [] + Words(value, IsColon) == Words(value, IsColon);
  }

  lemma StaysOrGoes(session: string)
    ensures var entries := Words(session, IsColon);
      HookStays(session) + entries ==
        if entries == [] || Mentions(entries, HOOK_DATA_DIR) then entries else [HOOK_DATA_DIR] + entries
  {
  }

  lemma HookEntries(session: string)
    ensures Split(HOOK_DATA_DIR + ":" + session, IsColon) == [HOOK_DATA_DIR] + Split(session, IsColon)
    ensures Words(HOOK_DATA_DIR + ":" + session, IsColon) == [HOOK_DATA_DIR] + Words(session, IsColon)
  {
    SplitOfOne(HOOK_DATA_DIR, IsColon);
    SplitAtSeparator(HOOK_DATA_DIR, ':', session, IsColon);
    assert HOOK_DATA_DIR + ":" + session == HOOK_DATA_DIR + [':'] + session;
    NonEmptyConcat([HOOK_DATA_DIR], Split(session, IsColon));
    NonEmptyKeeps([HOOK_DATA_DIR]);
  }

  lemma HookChanges(image: Image, value: string, entries: seq<string>)
    requires !Outside(image, Split(value, IsColon))
    requires image.Kept(Split(value, IsColon)) == [HOOK_DATA_DIR] + entries
    ensures image.Change(XDG_DATA_DIRS, value) == Some(Listed(
      if entries == [] || Mentions(entries, HOOK_DATA_DIR) then entries else [HOOK_DATA_DIR] + entries))
  {
    FirstMayGo(HOOK_DATA_DIR, entries);
  }

  lemma FirstMayGo(dir: string, entries: seq<string>)
    ensures WithoutFirst([dir] + entries, dir) ==
      if entries == [] || Mentions(entries, dir) then entries else [dir] + entries
  {
    assert ([dir] + entries)[1..] == entries;
  }

  lemma KeptAreFree(image: Image, value: string, es: seq<string>)
    requires forall e :: e in es ==> e in image.Kept(Split(value, IsColon))
    ensures AllFree(es, IsColon) && Outside(image, es) && "" !in es
  {
    KeptAre(image, Split(value, IsColon));
    SplitIsFree(value, IsColon);
  }

  /** A changed value has no entry in the image and no empty one, and is changed no further. */
  lemma NothingOfTheImageSurvives(image: Image, key: string, value: string)
    ensures var change := image.Change(key, value);
      && (change.None? <==> Outside(image, Split(value, IsColon)))
      && (change.Some? && change.value.Some? ==>
            var entries := Split(change.value.value, IsColon);
            && Outside(image, entries) && "" !in entries
            && image.Change(key, change.value.value).None?)
  {
    var change := image.Change(key, value);
    if change.Some? && change.value.Some? {
      var kept := image.Kept(Split(value, IsColon));
      var es := if change.value == Listed(kept) then kept else kept[1..];
      assert change.value == Listed(es);
      KeptAreFree(image, value, es);
      SplitOfJoin(es, ':', IsColon);
    }
  }

  // ---- a whole command ----

  /** Restoring again finds nothing to do. */
  lemma RestoringTwiceIsRestoringOnce(image: Image, own: Settings, inherited: map<string, string>, after: Settings)
    requires IsRestored(image, own, inherited, after)
    ensures IsRestored(image, after, inherited, after)
  {
    forall key ensures Setting(after, key) == Restored(image, after, inherited, key) {
      assert Setting(after, key) == Restored(image, own, inherited, key);
      var value := Seen(own, inherited, key);
      if value.Some? {
        NothingOfTheImageSurvives(image, key, value.value);
      }
    }
  }

  /** What a launcher does to a session's environment. `joined` are the search paths whose value it
      sets to its directories and the session's value, empty or not; `overwritten` those it points
      into the image, whatever the session had; `made` its own values and the paths it rebuilds.
      `front` is what the application puts first on a path of its own accord. */
  datatype Launcher = Launcher(joined: map<string, seq<string>>, overwritten: map<string, seq<string>>,
                               made: map<string, string>, front: map<string, seq<string>>)

  function Front(l: Launcher, key: string): seq<string> { if key in l.front then l.front[key] else [] }

  function JoinedValue(l: Launcher, session: map<string, string>, key: string): string
    requires key in l.joined
  {
    var value := if key in session then session[key] else "";
    if key == XDG_DATA_DIRS then Join(l.joined[key] + [HOOK_DATA_DIR + ":" + value], ':')
    else Join(Front(l, key) + l.joined[key] + [value], ':')
  }

  function Launched(l: Launcher, session: map<string, string>): map<string, string> {
    map key | key in l.joined.Keys + l.overwritten.Keys + l.made.Keys + session.Keys ::
      if key in l.made then l.made[key]
      else if key in l.overwritten then Join(l.overwritten[key], ':')
      else if key in l.joined then JoinedValue(l, session, key)
      else session[key]
  }

  ghost predicate AreDirs(image: Image, dirs: seq<string>) {
    dirs != [] && AllFree(dirs, IsColon) && Inside(image, dirs)
  }

  /** The launcher of this image: its search paths point into it, and it rebuilds the two it does. */
  ghost predicate LaunchesFrom(image: Image, l: Launcher) {
    && (forall key :: key in l.joined ==> key in IMAGE_SEARCH_PATHS && AreDirs(image, l.joined[key]))
    && (forall key :: key in l.overwritten ==> key in IMAGE_SEARCH_PATHS && AreDirs(image, l.overwritten[key]))
    && (forall key :: key in l.made ==>
          key in LAUNCHER_VALUES || (key in REBUILT_SEARCH_PATHS && !Outside(image, Split(l.made[key], IsColon))))
    && (forall key :: key in l.front ==>
          key != XDG_DATA_DIRS && AllFree(l.front[key], IsColon) && Outside(image, l.front[key]) && "" !in l.front[key])
  }

  /** A session whose search paths know nothing of the image. */
  ghost predicate SessionIsOutside(image: Image, session: map<string, string>) {
    forall key :: key in session && key in SEARCH_KEYS ==> Outside(image, Split(session[key], IsColon))
  }

  /** What stands before the session's entries in a search path that comes undone. */
  function StaysBefore(l: Launcher, session: map<string, string>, key: string): seq<string> {
    if key == XDG_DATA_DIRS then HookStays(if key in session then session[key] else "") else Front(l, key)
  }

  lemma JoinedComesUndone(image: Image, l: Launcher, session: map<string, string>, key: string)
    requires LaunchesFrom(image, l) && SessionIsOutside(image, session) && key in l.joined
    requires !image.Contains("") && !image.Contains(HOOK_DATA_DIR)
    ensures image.Change(key, JoinedValue(l, session, key)) == Some(Listed(
      StaysBefore(l, session, key) + Words(if key in session then session[key] else "", IsColon)))
  {
    var value := if key in session then session[key] else "";
    if key !in session { EmptyValue(image); }
    if key == XDG_DATA_DIRS {
      UndoesTheHook(image, l.joined[key], value);
    } else {
      KeysAreApart(key);
      UndoesTheLauncher(image, key, Front(l, key), l.joined[key], value);
    }
  }

  /** What a program finds that is started by a command which sets nothing: no value the launcher made
      up or overwrote, the session's entries of each search path the launcher joined, and every other
      variable as the session had it. */
  lemma StartedProgramFinds(image: Image, l: Launcher, session: map<string, string>, after: Settings, key: string)
    requires LaunchesFrom(image, l) && SessionIsOutside(image, session)
    requires !image.Contains("") && !image.Contains(HOOK_DATA_DIR)
    requires IsRestored(image, map[], Launched(l, session), after)
    ensures Seen(after, Launched(l, session), key) ==
      if key in LAUNCHER_VALUES || key in l.made || key in l.overwritten then None
      else if key in l.joined then
        Listed(StaysBefore(l, session, key) + Words(if key in session then session[key] else "", IsColon))
      else if key in session then Some(session[key])
      else None
  {
    var launched := Launched(l, session);
    if key in LAUNCHER_VALUES || key in l.made {
      if key in launched {
        MadeUpGoes(image, launched, after, key);
      } else {
        NotThereStays(image, launched, after, key);
      }
    } else if key in l.overwritten {
      OverwrittenGoes(image, key, l.overwritten[key]);
      ChangedIsSeen(image, launched, after, key);
    } else if key in l.joined {
      JoinedComesUndone(image, l, session, key);
      ChangedIsSeen(image, launched, after, key);
    } else {
      UntouchedIsSeen(image, launched, after, key);
    }
  }

  /** End to end, and exactly: a session's variable reaches the program unchanged if and only if the
      launcher neither set it for itself nor overwrote it and, where it joined its directories to it,
      the value has no empty entry, `/usr/share` does not stay before it, and the application put
      nothing before it. */
  lemma SessionComesBackIff(image: Image, l: Launcher, session: map<string, string>, after: Settings, key: string)
    requires LaunchesFrom(image, l) && SessionIsOutside(image, session) && key in session
    requires !image.Contains("") && !image.Contains(HOOK_DATA_DIR)
    requires IsRestored(image, map[], Launched(l, session), after)
    ensures Seen(after, Launched(l, session), key) == Some(session[key]) <==>
      && key !in LAUNCHER_VALUES && key !in l.made && key !in l.overwritten
      && (key in l.joined ==>
            && "" !in Split(session[key], IsColon)
            && (if key == XDG_DATA_DIRS then Mentions(Words(session[key], IsColon), HOOK_DATA_DIR)
                else Front(l, key) == []))
  {
    StartedProgramFinds(image, l, session, after, key);
    if key in l.joined {
      JoinedComesBackIff(image, l, session, key);
    }
  }

  lemma JoinedComesBackIff(image: Image, l: Launcher, session: map<string, string>, key: string)
    requires LaunchesFrom(image, l) && key in session && key in l.joined
    ensures Listed(StaysBefore(l, session, key) + Words(session[key], IsColon)) == Some(session[key]) <==>
      && "" !in Split(session[key], IsColon)
      && (if key == XDG_DATA_DIRS then Mentions(Words(session[key], IsColon), HOOK_DATA_DIR) else Front(l, key) == [])
  {
    assert Free(HOOK_DATA_DIR, IsColon);
    ListedIsWholeIff(StaysBefore(l, session, key), session[key]);
    HookStaysIff(session[key]);
  }

  lemma HookStaysIff(value: string)
    ensures "" !in Split(value, IsColon) ==>
      (HookStays(value) == [] <==> Mentions(Words(value, IsColon), HOOK_DATA_DIR))
  {
    if "" !in Split(value, IsColon) {
      NonEmptyKeeps(Split(value, IsColon));
    }
  }

  lemma MadeUpGoes(image: Image, launched: map<string, string>, after: Settings, key: string)
    requires IsRestored(image, map[], launched, after) && key in launched
    requires key in LAUNCHER_VALUES || (key in REBUILT_SEARCH_PATHS && !Outside(image, Split(launched[key], IsColon)))
    ensures Seen(after, launched, key) == None
  {
    assert Setting(after, key) == Restored(image, map[], launched, key);
  }

  lemma NotThereStays(image: Image, launched: map<string, string>, after: Settings, key: string)
    requires IsRestored(image, map[], launched, after) && key !in launched
    ensures Seen(after, launched, key) == None
  {
    assert Setting(after, key) == Restored(image, map[], launched, key);
  }

  lemma ChangedIsSeen(image: Image, launched: map<string, string>, after: Settings, key: string)
    requires IsRestored(image, map[], launched, after) && key in launched
    requires key in IMAGE_SEARCH_PATHS && key !in LAUNCHER_VALUES && image.Change(key, launched[key]).Some?
    ensures Seen(after, launched, key) == image.Change(key, launched[key]).value
  {
    assert Setting(after, key) == Restored(image, map[], launched, key);
  }

  lemma UntouchedIsSeen(image: Image, launched: map<string, string>, after: Settings, key: string)
    requires IsRestored(image, map[], launched, after) && key !in LAUNCHER_VALUES
    requires key in launched && key in SEARCH_KEYS ==> Outside(image, Split(launched[key], IsColon))
    ensures Seen(after, launched, key) == if key in launched then Some(launched[key]) else None
  {
    assert Setting(after, key) == Restored(image, map[], launched, key);
    if key in launched && key in SEARCH_KEYS { NothingOfTheImageSurvives(image, key, launched[key]); }
  }

  lemma EmptyValue(image: Image)
    requires !image.Contains("")
    ensures Outside(image, Split("", IsColon)) && Words("", IsColon) == []
  {
    NonEmptyKeeps([""]);
    assert NonEmpty([""]) == [];
  }

  lemma KeysAreApart(key: string)
    requires key in IMAGE_SEARCH_PATHS
    ensures key !in REBUILT_SEARCH_PATHS
  {
  }

  // ---- a launcher that overwrites ----

  /** One name below the root. */
  lemma OneName(name: string)
    requires name != "" && name != "." && Free(name, IsSlash)
    ensures Components("/" + name) == ["/", name]
  {
    assert "" + ['/'] + name == "/" + name;
    SplitAtSeparator("", '/', name, IsSlash);
    SplitOfOne("", IsSlash);
    SplitOfOne(name, IsSlash);
    NonEmptyConcat([""], [name]);
    NonEmptyKeeps([""]);
    NonEmptyKeeps([name]);
    assert NonEmpty([""]) == [] && [] + [name] == [name];
    FilterKeeps([name], (p: string) => p != ".");
  }

  const AN_IMAGE := Image(["/i"])
  const OVERWRITES := Launcher(map[], map["PYTHONHOME" := ["/i/usr"]], map[], map[])
  const A_SESSION: map<string, string> := map["PYTHONHOME" := "/p"]

  lemma OtherPathsAreOutside(path: string)
    requires |Components(path)| < 2 || Components(path)[1] != "i"
    ensures !AN_IMAGE.Contains(path)
  {
    OneName("i");
    assert "/" + "i" == "/i";
    assert Components("/i") == ["/", "i"];
    forall root | root in AN_IMAGE.roots ensures !(Components(root) <= Components(path)) {
      assert root == "/i" && Components(root)[1] == "i";
    }
  }

  lemma NoPathIsOutside()
    ensures !AN_IMAGE.Contains("")
  {
    NonEmptyKeeps([""]);
    assert NonEmpty([""]) == [];
    assert Components("") == [];
    OtherPathsAreOutside("");
  }

  lemma BelowAnotherNameIsOutside(path: string, name: string, rest: string)
    requires path == "/" + name + "/" + rest && name != "" && name != "." && name != "i" && Free(name, IsSlash)
    ensures !AN_IMAGE.Contains(path)
  {
    OneName(name);
    ComponentsBelow("/" + name, rest);
    OtherPathsAreOutside(path);
  }

  lemma SessionsPathIsOutside()
    ensures SessionIsOutside(AN_IMAGE, A_SESSION)
  {
    OneName("p");
    assert "/" + "p" == "/p" && Free("/p", IsColon);
    SplitOfOne("/p", IsColon);
    OtherPathsAreOutside("/p");
  }

  lemma OverwritesFromTheImage()
    ensures LaunchesFrom(AN_IMAGE, OVERWRITES)
  {
    ItsDirsAreInside();
    PythonHomeIsASearchPath();
  }

  lemma ItsDirsAreInside()
    ensures AreDirs(AN_IMAGE, ["/i/usr"])
  {
    InsideTheImage("/i/usr", "usr");
    assert Free("/i/usr", IsColon);
  }

  lemma PythonHomeIsASearchPath()
    ensures "PYTHONHOME" in IMAGE_SEARCH_PATHS
  {
    assert IMAGE_SEARCH_PATHS[2] == "PYTHONHOME";
  }

  lemma InsideTheImage(path: string, rest: string)
    requires path == "/i" + "/" + rest
    ensures AN_IMAGE.Contains(path)
  {
    BelowTheRootIsInside(AN_IMAGE, "/i", rest);
  }

  /** A session's own `PYTHONHOME` does not reach the program. */
  lemma OverwrittenValueIsLost(after: Settings)
    requires IsRestored(AN_IMAGE, map[], Launched(OVERWRITES, A_SESSION), after)
    ensures LaunchesFrom(AN_IMAGE, OVERWRITES) && SessionIsOutside(AN_IMAGE, A_SESSION)
    ensures Seen(after, Launched(OVERWRITES, A_SESSION), "PYTHONHOME") == None
  {
    OverwritesFromTheImage();
    SessionsPathIsOutside();
    NoPathIsOutside();
    BelowAnotherNameIsOutside(HOOK_DATA_DIR, "usr", "share");
    StartedProgramFinds(AN_IMAGE, OVERWRITES, A_SESSION, after, "PYTHONHOME");
  }
}
