/**
 * Locating the wkhtmltopdf executable (and the optional xvfb-run wrapper), and the
 * process-wide cache that remembers the result. The operating system is an oracle:
 * the directory of the running program, `exec.LookPath` and `os.Getenv`.
 */
module Locator {
  import opened Wrappers
  import opened Text

  const MainCommand := "wkhtmltopdf"
  const MainPathEnv := "WKHTMLTOPDF_PATH"
  const WrapperCommand := "xvfb-run"
  const WrapperPathEnv := "WKHTMLTOPDF_WRAPPER_PATH"

  /** What `exec.LookPath` returns for one candidate: a path and an optional error. */
  datatype LookPathResult = LookPathResult(path: string, err: Option<string>) {
    /** The source accepts a lookup only when it has no error and a non-empty path. */
    predicate Hit()
      ensures Hit() ==> path != "" && err == None
    {
      err.None? && path != ""
    }
  }

  /**
   * The host as the locator sees it: the absolute directory of the running program
   * (or the error computing it), `exec.LookPath`, and `os.Getenv`.
   */
  datatype Host = Host(
    exeDir: Result<string>,
    lookPath: string -> LookPathResult,
    getenv: string -> string)

  /** `filepath.Join(dir, name)` for the non-empty directories the locator joins. */
  function JoinPath(dir: string, name: string): (r: string)
    ensures |r| == |dir| + 1 + |name|
    ensures r[..|dir|] == dir && r[|dir|] == '/' && r[|dir| + 1..] == name
  {
    dir + "/" + name
  }

  /** The places tried, in order: next to the program, on PATH, and (when set) the env directory. */
  function Candidates(exeDir: string, command: string, envDir: string): (r: seq<string>)
    ensures |r| == (if envDir == "" then 2 else 3)
    ensures r[0] == JoinPath(exeDir, command) && r[1] == command
    ensures envDir != "" ==> r[2] == JoinPath(envDir, command)
  {
    [JoinPath(exeDir, command), command] + (if envDir == "" then [] else [JoinPath(envDir, command)])
  }

  /** Reference search: the path of the first candidate whose lookup is a hit. */
  function FirstHit(lookPath: string -> LookPathResult, candidates: seq<string>): (r: Option<string>)
    ensures r.None? <==> forall i :: 0 <= i < |candidates| ==> !lookPath(candidates[i]).Hit()
    ensures r.Some? ==>
      exists i :: 0 <= i < |candidates| && lookPath(candidates[i]).Hit() && lookPath(candidates[i]).path == r.value
        && forall j :: 0 <= j < i ==> !lookPath(candidates[j]).Hit()
    decreases |candidates|
  {
    if |candidates| == 0 then None
    else if lookPath(candidates[0]).Hit() then Some(lookPath(candidates[0]).path)
    else
      var rest := FirstHit(lookPath, candidates[1..]);
      assert forall i :: 1 <= i < |candidates| ==> candidates[i] == candidates[1..][i - 1];
      rest
  }

  /**
   * `findCommandPath`: a chain of early returns. Errors arise only from the program's
   * own directory or when no candidate hits and the env var is unset; an empty path
   * with no error comes back only when the env var names a directory that misses.
   */
  function FindCommandPath(host: Host, command: string, env: string): (r: Result<string>)
    ensures r.Err? ==> host.exeDir.Err? || (host.getenv(env) == "" && r.message == command + " not found")
    ensures host.exeDir.Err? ==> r == Err(host.exeDir.message)
    ensures r == Ok("") ==> host.exeDir.Ok? && host.getenv(env) != ""
  {
    match host.exeDir
    case Err(e) => Err(e)
    case Ok(exeDir) =>
      var adjacent := host.lookPath(JoinPath(exeDir, command));
      if adjacent.Hit() then Ok(adjacent.path)
      else
        var onPath := host.lookPath(command);
        if onPath.Hit() then Ok(onPath.path)
        else
          var dir := host.getenv(env);
          if dir == "" then Err(command + " not found")
          else
            var inDir := host.lookPath(JoinPath(dir, command));
            if inDir.Hit() then Ok(inDir.path) else Ok("")
  }

  /** `findCommandPath` is the first hit among the candidates, tried in their fixed order. */
  lemma {:induction false} FindCommandPathSearchOrder(host: Host, command: string, env: string)
    requires host.exeDir.Ok?
    ensures var cands := Candidates(host.exeDir.value, command, host.getenv(env));
      FindCommandPath(host, command, env) ==
        match FirstHit(host.lookPath, cands)
        case Some(p) => Ok(p)
        case None => if host.getenv(env) == "" then Err(command + " not found") else Ok("")
  {
    var cands := Candidates(host.exeDir.value, command, host.getenv(env));
    assert cands[1..][1..] == cands[2..];
    if |cands| == 3 {
      assert cands[2..][1..] == [];
    }
  }

  /** The precedence the locator promises, read off the search order. */
  lemma SearchPrecedence(host: Host, command: string, env: string)
    requires host.exeDir.Ok?
    ensures var adjacent := host.lookPath(JoinPath(host.exeDir.value, command));
      adjacent.Hit() ==> FindCommandPath(host, command, env) == Ok(adjacent.path)
    ensures var adjacent := host.lookPath(JoinPath(host.exeDir.value, command));
      var onPath := host.lookPath(command);
      !adjacent.Hit() && onPath.Hit() ==> FindCommandPath(host, command, env) == Ok(onPath.path)
    ensures var adjacent := host.lookPath(JoinPath(host.exeDir.value, command));
      var onPath := host.lookPath(command);
      var dir := host.getenv(env);
      var inDir := host.lookPath(JoinPath(dir, command));
      !adjacent.Hit() && !onPath.Hit() && dir != "" && inDir.Hit() ==>
        FindCommandPath(host, command, env) == Ok(inDir.path)
    ensures var cands := Candidates(host.exeDir.value, command, host.getenv(env));
      (forall i :: 0 <= i < |cands| ==> !host.lookPath(cands[i]).Hit()) ==>
        FindCommandPath(host, command, env) ==
          if host.getenv(env) == "" then Err(command + " not found") else Ok("")
  {
    FindCommandPathSearchOrder(host, command, env);
  }

  /** The wrapper is optional: a failed wrapper lookup is an empty wrapper path. */
  function WrapperPath(host: Host): (r: string)
    ensures FindCommandPath(host, WrapperCommand, WrapperPathEnv).Err? ==> r == ""
    ensures FindCommandPath(host, WrapperCommand, WrapperPathEnv).Ok? ==>
      r == FindCommandPath(host, WrapperCommand, WrapperPathEnv).value
    ensures r != "" ==> FindCommandPath(host, WrapperCommand, WrapperPathEnv) == Ok(r)
  {
    match FindCommandPath(host, WrapperCommand, WrapperPathEnv)
    case Ok(p) => p
    case Err(_) => ""
  }

  /** The command string: "wrapper main" when a wrapper was found, else the main path alone. */
  function ComposeCommand(wrapPath: string, mainPath: string): (r: string)
    ensures wrapPath == "" ==> r == mainPath
    ensures wrapPath != "" ==> r == Join([wrapPath, mainPath], " ")
  {
    if wrapPath != "" then wrapPath + " " + mainPath else mainPath
  }

  /** When neither path holds a space, splitting the command on spaces recovers both paths. */
  lemma ComposeCommandSplits(wrapPath: string, mainPath: string)
    requires wrapPath != "" && ' ' !in wrapPath && ' ' !in mainPath
    ensures SplitOnSpace(ComposeCommand(wrapPath, mainPath)) == [wrapPath, mainPath]
  {
    JoinSplitRoundTrip([wrapPath, mainPath]);
  }

  /**
   * The path `initCommand` settles on, given the cached path: the cache when it is set,
   * otherwise the main lookup's error or the composed command.
   */
  function ResolveCommand(cached: string, host: Host): (r: Result<string>)
    ensures cached != "" ==> r == Ok(cached)
    ensures r.Err? ==> cached == "" && FindCommandPath(host, MainCommand, MainPathEnv) == r
    ensures r.Ok? && cached == "" ==>
      FindCommandPath(host, MainCommand, MainPathEnv).Ok? &&
      r.value == ComposeCommand(WrapperPath(host), FindCommandPath(host, MainCommand, MainPathEnv).value)
  {
    if cached != "" then Ok(cached)
    else
      match FindCommandPath(host, MainCommand, MainPathEnv)
      case Err(e) => Err(e)
      case Ok(mainPath) => Ok(ComposeCommand(WrapperPath(host), mainPath))
  }

  /** A set cache is used as is: the host is never consulted. */
  lemma CachedPathSkipsSearch(cached: string, host1: Host, host2: Host)
    requires cached != ""
    ensures ResolveCommand(cached, host1) == ResolveCommand(cached, host2) == Ok(cached)
  {
  }

  /** With an empty cache, the main lookup's error is returned unchanged and nothing else fails. */
  lemma MainLookupErrorUnchanged(host: Host)
    ensures ResolveCommand("", host).Err? <==> FindCommandPath(host, MainCommand, MainPathEnv).Err?
    ensures ResolveCommand("", host).Err? ==>
      ResolveCommand("", host).message == FindCommandPath(host, MainCommand, MainPathEnv).message
  {
  }

  /** Once a non-empty path is resolved and cached, later resolutions return it on any host. */
  lemma ResolvedPathIsReused(host: Host, later: Host)
    requires ResolveCommand("", host).Ok? && ResolveCommand("", host).value != ""
    ensures ResolveCommand(ResolveCommand("", host).value, later) == ResolveCommand("", host)
  {
  }

  /**
   * The empty-path quirk: when the env directory is set but misses and no wrapper is found,
   * resolution succeeds with an empty path, which leaves the cache empty.
   */
  lemma EmptyResolution(host: Host)
    requires host.exeDir.Ok?
    requires FindCommandPath(host, MainCommand, MainPathEnv) == Ok("")
    requires WrapperPath(host) == ""
    ensures ResolveCommand("", host) == Ok("")
    ensures host.getenv(MainPathEnv) != ""
  {
  }

  /** With an empty cache, a found main path and a found wrapper give "wrapper main". */
  lemma WrappedResolution(host: Host, m: string, w: string)
    requires FindCommandPath(host, MainCommand, MainPathEnv) == Ok(m)
    requires FindCommandPath(host, WrapperCommand, WrapperPathEnv) == Ok(w) && w != ""
    ensures ResolveCommand("", host) == Ok(w + " " + m)
  {
  }

  /**
   * The other side of the quirk: when the main lookup yields the empty path but a wrapper
   * is found, resolution succeeds with the wrapper and a trailing space. That value is
   * non-empty, so it is cached and reused for the rest of the process.
   */
  lemma EmptyMainWithWrapper(host: Host, later: Host)
    requires FindCommandPath(host, MainCommand, MainPathEnv) == Ok("")
    requires WrapperPath(host) != ""
    ensures ResolveCommand("", host) == Ok(WrapperPath(host) + " ")
    ensures ResolveCommand(WrapperPath(host) + " ", later) == ResolveCommand("", host)
  {
    var w := WrapperPath(host);
    assert ComposeCommand(w, "") == w + " " + "" == w + " ";
  }

  /** The mutex-guarded string of the source; the lock only serialises access and is not modelled. */
  class StringStore {
    var val: string

    constructor ()
      ensures val == ""
    {
      val := "";
    }

    method Get() returns (s: string)
      ensures s == val
    {
      s := val;
    }

    method Set(s: string)
      modifies this
      ensures val == s
    {
      val := s;
    }
  }

  /** The two process-wide stores: the main command path and the wrapper command. */
  class PathCache {
    const binPath: StringStore
    const wrapperCmd: StringStore

    predicate Valid() {
      binPath != wrapperCmd
    }

    constructor ()
      ensures Valid() && fresh(binPath) && fresh(wrapperCmd)
      ensures binPath.val == "" && wrapperCmd.val == ""
    {
      binPath := new StringStore();
      wrapperCmd := new StringStore();
    }

    /** `SetPath`: seeds the cache, so later initialisation does no search. */
    method SetPath(path: string)
      requires Valid()
      modifies binPath
      ensures binPath.val == path && wrapperCmd.val == old(wrapperCmd.val)
    {
      binPath.Set(path);
    }

    method GetPath() returns (path: string)
      ensures path == binPath.val
    {
      path := binPath.Get();
    }

    method SetWrapper(path: string)
      requires Valid()
      modifies wrapperCmd
      ensures wrapperCmd.val == path && binPath.val == old(binPath.val)
    {
      wrapperCmd.Set(path);
    }

    method GetWrapper() returns (path: string)
      ensures path == wrapperCmd.val
    {
      path := wrapperCmd.Get();
    }

    /** A path set and then read back is the one that was set. */
    method SetThenGetPath(path: string) returns (got: string)
      requires Valid()
      modifies binPath
      ensures got == path
    {
      SetPath(path);
      got := GetPath();
    }
  }
}
