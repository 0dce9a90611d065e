/** The file watcher (HotReloader): it classifies every written file by a fixed,
    first-match-wins list of rules and either respawns the child, asks it to reload over IPC,
    or only logs the change. File-system events, the IPC server and process handling are
    abstracted: what closeChild reports is a parameter, and the effects on the child are
    recorded in `effects`. */
module Watcher {
  import opened Wrappers
  import opened Strings
  import opened Glob
  import opened EnvFile
  import opened Configuration
  import opened Sequences

  /** The decision taken for one changed file. */
  datatype Action = Excluded | HardReload | SoftReload | EnvFileChanged | Unhandled

  /** An effect of the watcher on the child process. */
  datatype WatcherEffect =
    | SpawnRequested            // spawnChild was called
    | IpcReload(payload: string) // a `reload` message was written to the child

  /** The path the exclude rules and the reload payload use: the path relative to the root
      directory, or the absolute path when filepath.Rel failed. */
  function RulePath(filePath: string, rel: Option<string>): (p: string)
    ensures rel.Some? ==> p == rel.value
    ensures rel.None? ==> p == filePath
  {
    rel.GetOr(filePath)
  }

  predicate ExcludedBy(excludes: seq<string>, path: string) {
    exists i :: 0 <= i < |excludes| && HasPrefix(path, excludes[i])
  }

  predicate MatchesAny(globs: seq<string>, name: string) {
    exists i :: 0 <= i < |globs| && Match(globs[i], name)
  }

  /** The exclude list: `.git` first, then the configured paths. */
  function ExcludePaths(cfg: Config): (r: seq<string>)
    ensures |r| == |cfg.excludePaths| + 1 && r[0] == ".git" && r[1..] == cfg.excludePaths
  {
    [".git"] + cfg.excludePaths
  }

  /** The rule chain of processFileChange, first match wins: exclude prefixes on the rule
      path, then hard-reload globs, then soft-reload globs on the base name, then env-file
      names. */
  function Rule(excludes: seq<string>, hard: seq<string>, soft: seq<string>, envFiles: seq<string>,
                path: string, base: string): Action
  {
    if ExcludedBy(excludes, path) then Excluded
    else if MatchesAny(hard, base) then HardReload
    else if MatchesAny(soft, base) then SoftReload
    else if base in envFiles then EnvFileChanged
    else Unhandled
  }

  /** Each action is taken exactly when its own rule holds and no earlier rule does; in
      particular an excluded path is never reloaded, whatever globs it matches. */
  lemma RuleOrder(excludes: seq<string>, hard: seq<string>, soft: seq<string>, envFiles: seq<string>,
                  path: string, base: string)
    ensures var a := Rule(excludes, hard, soft, envFiles, path, base);
      && (a == Excluded <==> ExcludedBy(excludes, path))
      && (a == HardReload <==> !ExcludedBy(excludes, path) && MatchesAny(hard, base))
      && (a == SoftReload <==> !ExcludedBy(excludes, path) && !MatchesAny(hard, base) && MatchesAny(soft, base))
      && (a == EnvFileChanged <==>
            !ExcludedBy(excludes, path) && !MatchesAny(hard, base) && !MatchesAny(soft, base) && base in envFiles)
      && (a == Unhandled <==>
            !ExcludedBy(excludes, path) && !MatchesAny(hard, base) && !MatchesAny(soft, base) && base !in envFiles)
  {
  }

  /** processFileChange's loops: the first exclude prefix, hard glob, soft glob or env-file name
      that applies decides. */
  method ClassifyChange(excludes: seq<string>, hard: seq<string>, soft: seq<string>, envFiles: seq<string>,
                        filePath: string, rel: Option<string>)
    returns (action: Action, path: string)
    ensures path == RulePath(filePath, rel)
    ensures action == Rule(excludes, hard, soft, envFiles, path, Base(filePath))
  {
    path := RulePath(filePath, rel);
    for i := 0 to |excludes|
      invariant forall j :: 0 <= j < i ==> !HasPrefix(path, excludes[j])
    {
      if HasPrefix(path, excludes[i]) {
        assert ExcludedBy(excludes, path);
        return Excluded, path;
      }
    }
    assert !ExcludedBy(excludes, path);
    var base := Base(filePath);
    for i := 0 to |hard|
      invariant forall j :: 0 <= j < i ==> !Match(hard[j], base)
    {
      if Match(hard[i], base) {
        assert MatchesAny(hard, base);
        return HardReload, path;
      }
    }
    assert !MatchesAny(hard, base);
    for i := 0 to |soft|
      invariant forall j :: 0 <= j < i ==> !Match(soft[j], base)
    {
      if Match(soft[i], base) {
        assert !MatchesAny(hard, base) && MatchesAny(soft, base);
        return SoftReload, path;
      }
    }
    assert !MatchesAny(soft, base);
    for i := 0 to |envFiles|
      invariant base !in envFiles[..i]
    {
      if base == envFiles[i] {
        return EnvFileChanged, path;
      }
    }
    assert envFiles[..|envFiles|] == envFiles;
    return Unhandled, path;
  }

  class HotReloader {
    const config: Config
    const excludePaths: seq<string>
    var envVars: seq<string>
    var isRespawning: bool
    /** What the watcher has done to the child process, oldest first. */
    var effects: seq<WatcherEffect>

    constructor (cfg: Config, environ: seq<string>)
      ensures config == cfg && excludePaths == ExcludePaths(cfg) && envVars == environ
      ensures !isRespawning && effects == []
    {
      config := cfg;
      excludePaths := ExcludePaths(cfg);
      envVars := environ;
      isRespawning := false;
      effects := [];
    }

    /** New: the exclude list gets the configured paths after `.git`; an empty entrypoint is
        refused before any env file is read; the env files are then loaded in order and the
        first failure is reported. */
    static method New(cfg: Config, environ: seq<string>, files: map<string, EnvFileContent>)
      returns (r: Result<HotReloader>)
      ensures cfg.entrypoint == "" ==> r == Err("An entrypoint is required")
      ensures cfg.entrypoint != "" && LoadAll(cfg.envFiles, files).Err? ==>
        r == Err("loading env file: " + LoadAll(cfg.envFiles, files).error)
      ensures cfg.entrypoint != "" && LoadAll(cfg.envFiles, files).Ok? ==>
        r.Ok? && fresh(r.value) && r.value.config == cfg && r.value.excludePaths == ExcludePaths(cfg)
        && r.value.envVars == environ + LoadAll(cfg.envFiles, files).value
        && !r.value.isRespawning && r.value.effects == []
    {
      var reloader := new HotReloader(cfg, environ);
      if cfg.entrypoint == "" {
        return Err("An entrypoint is required");
      }
      var err := reloader.LoadEnvFiles(cfg.envFiles, files);
      if err.Some? {
        return Err("loading env file: " + err.value);
      }
      return Ok(reloader);
    }

    /** The env files of New, loaded in order until the first failure. */
    method LoadEnvFiles(names: seq<string>, files: map<string, EnvFileContent>) returns (err: Option<string>)
      modifies this`envVars
      ensures LoadAll(names, files).Ok? ==> err.None? && envVars == old(envVars) + LoadAll(names, files).value
      ensures LoadAll(names, files).Err? ==> err == Some(LoadAll(names, files).error)
    {
      for i := 0 to |names|
        invariant LoadAll(names[..i], files).Ok?
        invariant envVars == old(envVars) + LoadAll(names[..i], files).value
      {
        ghost var loaded := LoadAll(names[..i], files).value;
        err := LoadEnvFile(Lookup(files, names[i]));
        if err.Some? {
          LoadAllStops(names, files, i);
          return;
        }
        LoadAllStep(names, files, i);
        AppendAssoc(old(envVars), loaded, LoadOne(Lookup(files, names[i])).value);
      }
      assert names[..|names|] == names;
      return None;
    }

    /** loadEnvFile: appends the file's entries to the environment; a missing file is no error. */
    method LoadEnvFile(content: EnvFileContent) returns (err: Option<string>)
      modifies this`envVars
      ensures LoadOne(content).Ok? ==> err.None? && envVars == old(envVars) + LoadOne(content).value
      ensures LoadOne(content).Err? ==> err == Some(LoadOne(content).error)
    {
      match content
      case Missing =>
        assert LoadOne(content) == Ok([]);
        return None;
      case Unopenable(e) =>
        assert LoadOne(content) == Err(e);
        return Some(e);
      case Readable(lines, scanErr) =>
        for i := 0 to |lines|
          invariant envVars == old(envVars) + EnvLines(lines[..i])
        {
          var line := TrimSpace(lines[i]);
          EnvLinesStep(lines, i);
          if HasPrefix(line, "#") || |line| == 0 {
            assert EnvLines(lines[..i + 1]) == EnvLines(lines[..i]);
            continue;
          }
          assert EnvLines(lines[..i + 1]) == EnvLines(lines[..i]) + [line];
          envVars := envVars + [line];
        }
        assert lines[..|lines|] == lines;
        assert scanErr.None? ==> LoadOne(content) == Ok(EnvLines(lines));
        assert scanErr.Some? ==> LoadOne(content) == Err(scanErr.value);
        return scanErr;
    }

    /** respawnChild: marks the watcher as respawning, and spawns a new child only if closing
        the current one succeeded. */
    method RespawnChild(closeErr: Option<string>)
      modifies this`isRespawning, this`effects
      ensures isRespawning
      ensures closeErr.None? ==> effects == old(effects) + [SpawnRequested]
      ensures closeErr.Some? ==> effects == old(effects)
    {
      isRespawning := true;
      if closeErr.Some? {
        return;
      }
      effects := effects + [SpawnRequested];
    }

    /** processFileChange: classify the file, then respawn (hard reload or env file), write one
        `reload` message carrying the rule path (soft reload), or only log. The IPC server is
        not checked before the write: `hasIpcServer` says whether one was started (there is
        none before the first spawn, nor after a failed start), and without one the soft
        reload panics. */
    method ProcessFileChange(filePath: string, rel: Option<string>, closeErr: Option<string>, hasIpcServer: bool)
      returns (action: Action, panicked: bool)
      modifies this`isRespawning, this`effects
      ensures action == Rule(excludePaths, config.hardReload, config.softReload, config.envFiles, RulePath(filePath, rel), Base(filePath))
      ensures action == Excluded <==> ExcludedBy(excludePaths, RulePath(filePath, rel))
      ensures action == HardReload <==>
        !ExcludedBy(excludePaths, RulePath(filePath, rel)) && MatchesAny(config.hardReload, Base(filePath))
      ensures action in {HardReload, EnvFileChanged} ==>
        isRespawning && effects == old(effects) + (if closeErr.None? then [SpawnRequested] else [])
      ensures panicked <==> action == SoftReload && !hasIpcServer
      ensures action == SoftReload && !hasIpcServer ==> isRespawning == old(isRespawning) && effects == old(effects)
      ensures action == SoftReload && hasIpcServer ==>
        isRespawning == old(isRespawning) && effects == old(effects) + [IpcReload(RulePath(filePath, rel))]
      ensures action in {Excluded, Unhandled} ==> isRespawning == old(isRespawning) && effects == old(effects)
    {
      var path;
      panicked := false;
      action, path := ClassifyChange(excludePaths, config.hardReload, config.softReload, config.envFiles, filePath, rel);
      match action
      case HardReload =>
        RespawnChild(closeErr);
      case SoftReload =>
        if !hasIpcServer {
          return action, true;
        }
        effects := effects + [IpcReload(path)];
      case EnvFileChanged =>
        RespawnChild(closeErr);
      case Excluded =>
      case Unhandled =>
    }
  }
}
