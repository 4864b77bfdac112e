/** Who owns the rendering variables in the environment, across restarts that inherit it. */
module RenderingOverride {
  import opened Splitting
  import opened Texts

  type Env = map<string, string>

  const OWNED_ENV := "HOUHUB_WEBVIEW_RENDERING_OVERRIDE"
  const WEBVIEW2_ARGS_ENV := "WEBVIEW2_ADDITIONAL_BROWSER_ARGUMENTS"
  const DISABLE_GPU := "--disable-gpu"
  const WEBVIEW2_DISABLE_GPU_ARGS: seq<string> := [DISABLE_GPU]
  const WEBKIT_DMABUF := "WEBKIT_DISABLE_DMABUF_RENDERER"
  const WEBKIT_COMPOSITING := "WEBKIT_DISABLE_COMPOSITING_MODE"
  const WEBKITGTK_DISABLE_ENVS: seq<string> := [WEBKIT_DMABUF, WEBKIT_COMPOSITING]

  predicate IsComma(c: char) { c == ',' }

  predicate IsSpace(c: char) { IsWhite(c as int) }

  // ---- what one launch does ----

  function VarOr(env: Env, key: string, default: string): string {
    if key in env then env[key] else default
  }

  /** What an earlier launch of ours set, as the inherited marker lists it. */
  function Inherited(env: Env): seq<string> {
    Words(VarOr(env, OWNED_ENV, ""), IsComma)
  }

  function Publish(env: Env, owned: seq<string>): Env {
    if owned == [] then env - {OWNED_ENV} else env[OWNED_ENV := Join(owned, ',')]
  }

  /** Those of `keys` that a launch takes: ours already, or nobody's. */
  function Taken(env: Env, inherited: seq<string>, keys: seq<string>): seq<string> {
    if keys == [] then []
    else
      var last := keys[|keys|-1];
      Taken(env, inherited, keys[..|keys|-1]) + if last in inherited || last !in env then [last] else []
  }

  function SetAll(env: Env, keys: seq<string>): Env {
    map k | k in env.Keys + (set x | x in keys) :: if k in keys then "1" else env[k]
  }

  function LaunchLinux(env: Env, disable: bool): Env {
    var inherited := Inherited(env);
    if disable then
      var owned := Taken(env, inherited, WEBKITGTK_DISABLE_ENVS);
      Publish(SetAll(env, owned), owned)
    else if inherited == [] then env
    else env - (set k | k in WEBKITGTK_DISABLE_ENVS && k in inherited) - {OWNED_ENV}
  }

  function Tokens(env: Env): seq<string> {
    Words(VarOr(env, WEBVIEW2_ARGS_ENV, ""), IsSpace)
  }

  function WithArgs(tokens: seq<string>, args: seq<string>): seq<string> {
    if args == [] then tokens
    else
      var sofar := WithArgs(tokens, args[..|args|-1]);
      var last := args[|args|-1];
      if last in sofar then sofar else sofar + [last]
  }

  function Without(tokens: seq<string>, args: seq<string>): seq<string> {
    Filter(tokens, t => t !in args)
  }

  function SetArgs(env: Env, tokens: seq<string>): Env {
    if tokens == [] then env - {WEBVIEW2_ARGS_ENV} else env[WEBVIEW2_ARGS_ENV := Join(tokens, ' ')]
  }

  function LaunchWindows(env: Env, disable: bool): Env {
    var inherited := Inherited(env);
    var ours := WEBVIEW2_ARGS_ENV in inherited;
    var tokens := Tokens(env);
    if disable then
      var all := WithArgs(tokens, WEBVIEW2_DISABLE_GPU_ARGS);
      var added := all != tokens;
      Publish(if added then env[WEBVIEW2_ARGS_ENV := Join(all, ' ')] else env,
              if added || ours then [WEBVIEW2_ARGS_ENV] else [])
    else if inherited == [] then env
    else (if ours then SetArgs(env, Without(tokens, WEBVIEW2_DISABLE_GPU_ARGS)) else env) - {OWNED_ENV}
  }

  datatype Target = Linux | Windows

  function Launch(target: Target, env: Env, disable: bool): Env {
    if target.Linux? then LaunchLinux(env, disable) else LaunchWindows(env, disable)
  }

  /** The process at the start of `run`, still single-threaded, with the environment it inherited. */
  class Process {
    const target: Target
    var env: Env

    constructor (target: Target, env: Env)
      ensures this.target == target && this.env == env
    {
      this.target := target;
      this.env := env;
    }

    method ApplyWebviewRenderingOverride(disableHardwareAcceleration: bool)
      modifies this
      ensures env == Launch(target, old(env), disableHardwareAcceleration)
    {
      var inherited := Inherited(env);
      if !disableHardwareAcceleration {
        WithdrawWebviewRenderingOverride(inherited);
        return;
      }
      var owned;
      match target {
        case Windows => owned := AppendWebview2Args(inherited);
        case Linux => owned := SetWebkitEnvs(inherited);
      }
      env := if owned == [] then env - {OWNED_ENV} else env[OWNED_ENV := Join(owned, ',')];
    }

    method AppendWebview2Args(inherited: seq<string>) returns (owned: seq<string>)
      modifies this
      ensures var all := WithArgs(Tokens(old(env)), WEBVIEW2_DISABLE_GPU_ARGS);
        var added := all != Tokens(old(env));
        && env == (if added then old(env)[WEBVIEW2_ARGS_ENV := Join(all, ' ')] else old(env))
        && owned == (if added || WEBVIEW2_ARGS_ENV in inherited then [WEBVIEW2_ARGS_ENV] else [])
    {
      var ours := WEBVIEW2_ARGS_ENV in inherited;
      var tokens := Tokens(env);
      var added := false;
      for i := 0 to |WEBVIEW2_DISABLE_GPU_ARGS|
        invariant tokens == WithArgs(Tokens(env), WEBVIEW2_DISABLE_GPU_ARGS[..i])
        invariant added == (tokens != Tokens(env)) && |tokens| >= |Tokens(env)|
      {
        var arg := WEBVIEW2_DISABLE_GPU_ARGS[i];
        assert WEBVIEW2_DISABLE_GPU_ARGS[..i+1] == WEBVIEW2_DISABLE_GPU_ARGS[..i] + [arg];
        if arg !in tokens {
          tokens, added := tokens + [arg], true;
        }
      }
      assert WEBVIEW2_DISABLE_GPU_ARGS[..|WEBVIEW2_DISABLE_GPU_ARGS|] == WEBVIEW2_DISABLE_GPU_ARGS;
      if added {
        env := env[WEBVIEW2_ARGS_ENV := Join(tokens, ' ')];
      }
      owned := if added || ours then [WEBVIEW2_ARGS_ENV] else [];
    }

    method SetWebkitEnvs(inherited: seq<string>) returns (owned: seq<string>)
      modifies this
      ensures owned == Taken(old(env), inherited, WEBKITGTK_DISABLE_ENVS)
      ensures env == SetAll(old(env), owned)
    {
      owned := [];
      for i := 0 to |WEBKITGTK_DISABLE_ENVS|
        invariant owned == Taken(old(env), inherited, WEBKITGTK_DISABLE_ENVS[..i])
        invariant env == SetAll(old(env), owned)
        invariant forall k :: k in owned ==> k in WEBKITGTK_DISABLE_ENVS[..i]
      {
        var key := WEBKITGTK_DISABLE_ENVS[i];
        assert WEBKITGTK_DISABLE_ENVS[..i+1] == WEBKITGTK_DISABLE_ENVS[..i] + [key];
        WebkitKeysAreDistinct(i);
        if key !in inherited && key in env {
          continue;
        }
        SetOneMore(old(env), owned, key);
        env := env[key := "1"];
        owned := owned + [key];
      }
      assert WEBKITGTK_DISABLE_ENVS[..|WEBKITGTK_DISABLE_ENVS|] == WEBKITGTK_DISABLE_ENVS;
    }

    method WithdrawWebviewRenderingOverride(inherited: seq<string>)
      requires inherited == Inherited(env)
      modifies this
      ensures env == Launch(target, old(env), false)
    {
      if inherited == [] { return; }
      match target {
        case Windows =>
          if WEBVIEW2_ARGS_ENV in inherited {
            var remaining := Without(Tokens(env), WEBVIEW2_DISABLE_GPU_ARGS);
            if remaining == [] {
              env := env - {WEBVIEW2_ARGS_ENV};
            } else {
              env := env[WEBVIEW2_ARGS_ENV := Join(remaining, ' ')];
            }
          }
        case Linux =>
          for i := 0 to |WEBKITGTK_DISABLE_ENVS|
            invariant env == old(env) - (set k | k in WEBKITGTK_DISABLE_ENVS[..i] && k in inherited)
          {
            var key := WEBKITGTK_DISABLE_ENVS[i];
            assert WEBKITGTK_DISABLE_ENVS[..i+1] == WEBKITGTK_DISABLE_ENVS[..i] + [key];
            if key in inherited {
              env := env - {key};
            }
          }
          assert WEBKITGTK_DISABLE_ENVS[..|WEBKITGTK_DISABLE_ENVS|] == WEBKITGTK_DISABLE_ENVS;
      }
      env := env - {OWNED_ENV};
    }
  }

  lemma SetOneMore(env: Env, keys: seq<string>, key: string)
    ensures SetAll(env, keys)[key := "1"] == SetAll(env, keys + [key])
  {
  }

  lemma WebkitKeysAreDistinct(i: nat)
    requires i < |WEBKITGTK_DISABLE_ENVS|
    ensures WEBKITGTK_DISABLE_ENVS[i] !in WEBKITGTK_DISABLE_ENVS[..i]
  {
    assert |WEBKIT_DMABUF| != |WEBKIT_COMPOSITING|;
  }

  /** Launch after launch, each inheriting the environment of the one before. */
  function Launches(target: Target, env: Env, toggles: seq<bool>): Env
    decreases |toggles|
  {
    if toggles == [] then env
    else Launch(target, Launches(target, env, toggles[..|toggles|-1]), toggles[|toggles|-1])
  }

  lemma InheritedIsPublished(env: Env, owned: seq<string>)
    requires AllFree(owned, IsComma) && "" !in owned
    ensures Inherited(Publish(env, owned)) == owned
  {
    WordsOfJoin(owned, ',', IsComma);
    if owned == [] {
      assert Join([], ',') == "";
    }
  }

  // ---- Linux: only what the user left unset is taken, and all of it is given back ----

  function Unset(user: Env): seq<string> {
    Taken(user, [], WEBKITGTK_DISABLE_ENVS)
  }

  function Overridden(user: Env): Env {
    Publish(SetAll(user, Unset(user)), Unset(user))
  }

  lemma NamesAreDistinct()
    ensures OWNED_ENV !in WEBKITGTK_DISABLE_ENVS && WEBVIEW2_ARGS_ENV != OWNED_ENV
    ensures AllFree(WEBKITGTK_DISABLE_ENVS, IsComma) && "" !in WEBKITGTK_DISABLE_ENVS
    ensures AllFree([WEBVIEW2_ARGS_ENV], IsComma) && "" !in [WEBVIEW2_ARGS_ENV]
  {
    assert OWNED_ENV[0] != WEBKIT_DMABUF[0] && OWNED_ENV[0] != WEBKIT_COMPOSITING[0];
    assert OWNED_ENV[0] != WEBVIEW2_ARGS_ENV[0];
  }

  lemma {:induction false} TakenIff(env: Env, inherited: seq<string>, keys: seq<string>)
    ensures forall k :: k in Taken(env, inherited, keys) <==> k in keys && (k in inherited || k !in env)
  {
    if keys != [] {
      TakenIff(env, inherited, keys[..|keys|-1]);
      assert keys == keys[..|keys|-1] + [keys[|keys|-1]];
    }
  }

  lemma {:induction false} TakenAlike(e: Env, i: seq<string>, f: Env, j: seq<string>, keys: seq<string>)
    requires forall k :: k in keys ==> ((k in i || k !in e) <==> (k in j || k !in f))
    ensures Taken(e, i, keys) == Taken(f, j, keys)
  {
    if keys != [] {
      assert keys[|keys|-1] in keys;
      TakenAlike(e, i, f, j, keys[..|keys|-1]);
    }
  }

  lemma OverriddenVars(user: Env)
    requires OWNED_ENV !in user
    ensures var owned := Unset(user);
      var now := Overridden(user);
      && Inherited(now) == owned && Taken(now, owned, WEBKITGTK_DISABLE_ENVS) == owned
      && SetAll(user, owned).Keys == user.Keys + (set k | k in owned) && OWNED_ENV !in SetAll(user, owned)
      && (forall k :: k in owned <==> k in WEBKITGTK_DISABLE_ENVS && k !in user)
  {
    var owned := Unset(user);
    NamesAreDistinct();
    TakenIff(user, [], WEBKITGTK_DISABLE_ENVS);
    InheritedIsPublished(SetAll(user, owned), owned);
    TakenAlike(Overridden(user), owned, user, [], WEBKITGTK_DISABLE_ENVS);
  }

  lemma SetAgain(user: Env, owned: seq<string>)
    requires OWNED_ENV !in user && OWNED_ENV !in owned
    ensures var now := Publish(SetAll(user, owned), owned);
      Publish(SetAll(now, owned), owned) == now
  {
    assert OWNED_ENV !in SetAll(user, owned);
  }

  lemma OverriddenStaysOn(user: Env)
    requires OWNED_ENV !in user
    ensures LaunchLinux(Overridden(user), true) == Overridden(user)
  {
    var owned := Unset(user);
    var now := Overridden(user);
    OverriddenVars(user);
    SetAgain(user, owned);
  }

  lemma OverriddenGoesOff(user: Env)
    requires OWNED_ENV !in user
    ensures LaunchLinux(Overridden(user), false) == user
  {
    var owned := Unset(user);
    OverriddenVars(user);
    if owned == [] {
      assert SetAll(user, []) == user;
    }
  }

  lemma FirstLaunchLinux(user: Env, disable: bool)
    requires OWNED_ENV !in user
    ensures LaunchLinux(user, disable) == if disable then Overridden(user) else user
  {
    InheritedIsPublished(user, []);
    assert user - {OWNED_ENV} == user;
  }

  lemma {:induction false} LinuxForgetsTheToggles(user: Env, toggles: seq<bool>)
    requires OWNED_ENV !in user
    ensures Launches(Linux, user, toggles) ==
      if toggles != [] && toggles[|toggles|-1] then Overridden(user) else user
  {
    if toggles != [] {
      var before := toggles[..|toggles|-1];
      LinuxForgetsTheToggles(user, before);
      FirstLaunchLinux(user, toggles[|toggles|-1]);
      OverriddenStaysOn(user);
      OverriddenGoesOff(user);
    }
  }

  /** However often the toggle was turned, a launch with it off has the user's environment to the
      letter, and one with it on adds just the variables the user had not set, and the marker. */
  lemma LinuxGivesBackWhatItTook(user: Env, toggles: seq<bool>)
    requires OWNED_ENV !in user && toggles != []
    ensures var env := Launches(Linux, user, toggles);
      && (!toggles[|toggles|-1] ==> env == user)
      && (toggles[|toggles|-1] ==>
            && (forall k :: k != OWNED_ENV ==> (k in env <==> k in user || k in WEBKITGTK_DISABLE_ENVS))
            && (forall k :: k != OWNED_ENV && k in env ==> env[k] == if k in user then user[k] else "1")
            && (OWNED_ENV in env <==> exists k :: k in WEBKITGTK_DISABLE_ENVS && k !in user))
  {
    LinuxForgetsTheToggles(user, toggles);
    OverriddenAddsTheUnset(user);
  }

  lemma OverriddenAddsTheUnset(user: Env)
    requires OWNED_ENV !in user
    ensures var env := Overridden(user);
      && (forall k :: k != OWNED_ENV ==> (k in env <==> k in user || k in WEBKITGTK_DISABLE_ENVS))
      && (forall k :: k != OWNED_ENV && k in env ==> env[k] == if k in user then user[k] else "1")
      && (OWNED_ENV in env <==> exists k :: k in WEBKITGTK_DISABLE_ENVS && k !in user)
  {
    TakenIff(user, [], WEBKITGTK_DISABLE_ENVS);
    NamesAreDistinct();
    if k :| k in WEBKITGTK_DISABLE_ENVS && k !in user {
      assert k in Unset(user);
    }
    if Unset(user) != [] {
      assert Unset(user)[0] in Unset(user);
    }
  }

  // ---- Windows: one flag in the user's command line ----

  /** The command line as its tokens, one space between them. */
  function Tidied(user: Env): Env {
    SetArgs(user, Tokens(user))
  }

  function Flagged(user: Env): Env {
    user[WEBVIEW2_ARGS_ENV := Join(Tokens(user) + [DISABLE_GPU], ' ')][OWNED_ENV := WEBVIEW2_ARGS_ENV]
  }

  lemma TokensOfSetArgs(env: Env, tokens: seq<string>)
    requires AllFree(tokens, IsSpace) && "" !in tokens
    ensures Tokens(SetArgs(env, tokens)) == tokens
  {
    WordsOfJoin(tokens, ' ', IsSpace);
    if tokens == [] {
      assert Join([], ' ') == "";
    }
  }

  lemma FlagIsAWord(user: Env)
    ensures AllFree(Tokens(user), IsSpace) && "" !in Tokens(user)
    ensures AllFree(Tokens(user) + [DISABLE_GPU], IsSpace) && "" !in Tokens(user) + [DISABLE_GPU]
  {
    WordsAreWhole(VarOr(user, WEBVIEW2_ARGS_ENV, ""), IsSpace);
    assert Free(DISABLE_GPU, IsSpace);
  }

  lemma WithoutTheAdded(tokens: seq<string>, flag: string)
    requires flag !in tokens
    ensures Without(tokens + [flag], [flag]) == tokens
  {
    var keep := t => t !in [flag];
    assert Without(tokens + [flag], [flag]) == Filter(tokens + [flag], keep);
    FilterConcat(tokens, [flag], keep);
    FilterKeeps(tokens, keep);
    FilterKeeps([flag], keep);
  }

  lemma WithTheFlag(tokens: seq<string>)
    ensures WithArgs(tokens, WEBVIEW2_DISABLE_GPU_ARGS) ==
      if DISABLE_GPU in tokens then tokens else tokens + [DISABLE_GPU]
  {
    assert WEBVIEW2_DISABLE_GPU_ARGS[..0] == [];
    assert WithArgs(tokens, []) == tokens;
  }

  lemma FirstLaunchWindows(user: Env, disable: bool)
    requires OWNED_ENV !in user
    ensures LaunchWindows(user, disable) == if disable && DISABLE_GPU !in Tokens(user) then Flagged(user) else user
  {
    InheritedIsPublished(user, []);
    assert user - {OWNED_ENV} == user;
    WithTheFlag(Tokens(user));
    assert Join([WEBVIEW2_ARGS_ENV], ',') == WEBVIEW2_ARGS_ENV;
  }

  lemma TokensOfFlagged(user: Env)
    ensures Tokens(Flagged(user)) == Tokens(user) + [DISABLE_GPU]
    ensures Inherited(Flagged(user)) == [WEBVIEW2_ARGS_ENV]
  {
    NamesAreDistinct();
    FlagIsAWord(user);
    TokensOfSetArgs(user, Tokens(user) + [DISABLE_GPU]);
    InheritedIsPublished(SetArgs(user, Tokens(user) + [DISABLE_GPU]), [WEBVIEW2_ARGS_ENV]);
    assert Join([WEBVIEW2_ARGS_ENV], ',') == WEBVIEW2_ARGS_ENV;
  }

  lemma KeepsTheFlag(env: Env)
    requires Inherited(env) == [WEBVIEW2_ARGS_ENV] && DISABLE_GPU in Tokens(env)
    ensures LaunchWindows(env, true) == env[OWNED_ENV := WEBVIEW2_ARGS_ENV]
  {
    WithTheFlag(Tokens(env));
    assert Join([WEBVIEW2_ARGS_ENV], ',') == WEBVIEW2_ARGS_ENV;
  }

  lemma FlaggedStaysOn(user: Env)
    ensures LaunchWindows(Flagged(user), true) == Flagged(user)
  {
    TokensOfFlagged(user);
    KeepsTheFlag(Flagged(user));
  }

  lemma WithdrawsTheFlag(env: Env, tokens: seq<string>)
    requires Inherited(env) == [WEBVIEW2_ARGS_ENV] && Tokens(env) == tokens + [DISABLE_GPU] && DISABLE_GPU !in tokens
    ensures LaunchWindows(env, false) == SetArgs(env, tokens) - {OWNED_ENV}
  {
    WithoutTheAdded(tokens, DISABLE_GPU);
  }

  lemma SettingArgsAgain(user: Env, args: string, marker: string, tokens: seq<string>)
    requires OWNED_ENV !in user
    ensures SetArgs(user[WEBVIEW2_ARGS_ENV := args][OWNED_ENV := marker], tokens) - {OWNED_ENV} == SetArgs(user, tokens)
  {
    NamesAreDistinct();
  }

  lemma FlaggedGoesOff(user: Env)
    requires OWNED_ENV !in user && DISABLE_GPU !in Tokens(user)
    ensures LaunchWindows(Flagged(user), false) == Tidied(user)
  {
    TokensOfFlagged(user);
    WithdrawsTheFlag(Flagged(user), Tokens(user));
    SettingArgsAgain(user, Join(Tokens(user) + [DISABLE_GPU], ' '), WEBVIEW2_ARGS_ENV, Tokens(user));
  }

  lemma TidiedIsTheUsers(user: Env)
    requires OWNED_ENV !in user
    ensures OWNED_ENV !in Tidied(user) && Tokens(Tidied(user)) == Tokens(user)
    ensures Flagged(Tidied(user)) == Flagged(user)
  {
    NamesAreDistinct();
    FlagIsAWord(user);
    TokensOfSetArgs(user, Tokens(user));
  }

  ghost predicate OnlyTheArgsDiffer(a: Env, b: Env) {
    forall k :: k != OWNED_ENV && k != WEBVIEW2_ARGS_ENV ==> (k in a <==> k in b) && (k in a ==> a[k] == b[k])
  }

  lemma OthersStay(user: Env, tokens: seq<string>, args: string, marker: string)
    ensures OnlyTheArgsDiffer(SetArgs(user, tokens), user)
    ensures OnlyTheArgsDiffer(user[WEBVIEW2_ARGS_ENV := args][OWNED_ENV := marker], user)
  {
  }

  lemma {:induction false} WindowsForgetsTheToggles(user: Env, toggles: seq<bool>)
    requires OWNED_ENV !in user
    ensures Launches(Windows, user, toggles) ==
      if DISABLE_GPU in Tokens(user) || true !in toggles then user
      else if toggles[|toggles|-1] then Flagged(user) else Tidied(user)
  {
    if toggles != [] {
      var before, last := toggles[..|toggles|-1], toggles[|toggles|-1];
      assert toggles == before + [last];
      WindowsForgetsTheToggles(user, before);
      FirstLaunchWindows(user, last);
      TidiedIsTheUsers(user);
      FirstLaunchWindows(Tidied(user), last);
      FlaggedStaysOn(user);
      if DISABLE_GPU !in Tokens(user) {
        FlaggedGoesOff(user);
      }
    }
  }

  /** However often the toggle was turned, a launch with it off has the user's own command-line
      tokens in order, one with it on has the flag behind them unless the user gave it; a user who
      gave it never loses it, and no other variable changes. */
  lemma WindowsGivesBackWhatItTook(user: Env, toggles: seq<bool>)
    requires OWNED_ENV !in user && toggles != []
    ensures var env := Launches(Windows, user, toggles);
      var on := toggles[|toggles|-1];
      && Tokens(env) == Tokens(user) + (if on && DISABLE_GPU !in Tokens(user) then [DISABLE_GPU] else [])
      && (OWNED_ENV in env <==> on && DISABLE_GPU !in Tokens(user))
      && OnlyTheArgsDiffer(env, user)
      && (DISABLE_GPU in Tokens(user) || true !in toggles ==> env == user)
  {
    WindowsForgetsTheToggles(user, toggles);
    if DISABLE_GPU !in Tokens(user) && true in toggles {
      OthersStay(user, Tokens(user), Join(Tokens(user) + [DISABLE_GPU], ' '), WEBVIEW2_ARGS_ENV);
      TidiedIsTheUsers(user);
      TokensOfFlagged(user);
    }
  }
}
