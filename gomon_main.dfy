/** The command's own logic: the log formatter, which colours each line with an ECMA-48 SGR
    control sequence (section 8.3.117 of ECMA-48: ESC "[" parameter "m"), the merge of
    command-line flags into the loaded configuration, and the restart-event loop. */
module GomonMain {
  import opened Wrappers
  import opened Strings
  import opened Configuration
  import App

  // ---- log formatter ----

  /** The logging levels; any other level value is `OtherLevel`. */
  datatype Level = Panic | Fatal | Error | Warn | Info | Debug | Trace | OtherLevel(n: int)

  const Red := 31
  const Yellow := 33
  const Blue := 36
  const Gray := 37

  /** The SGR colour parameter of a level. */
  function LevelColor(l: Level): (c: int)
    ensures c == Gray <==> l.Debug? || l.Trace?
    ensures c == Yellow <==> l.Warn?
    ensures c == Red <==> l.Error? || l.Fatal? || l.Panic?
    ensures c == Blue <==> l.Info? || l.OtherLevel?
  {
    match l
    case Debug | Trace => Gray
    case Warn => Yellow
    case Error | Fatal | Panic => Red
    case Info => Blue
    case OtherLevel(_) => Blue
  }

  /** The escape character. */
  const Esc: char := 27 as char

  /** The select-graphic-rendition sequence that sets colour `c`. */
  function Sgr(c: int): string {
    [Esc, '['] + Itoa(c) + "m"
  }

  /** The formatted line: the colour sequence, the message without one trailing newline, and
      a newline. */
  function FormatLine(l: Level, message: string): (line: string)
    ensures |line| >= 4 && line[|line| - 1] == '\n'
  {
    Sgr(LevelColor(l)) + TrimSuffix(message, "\n") + "\n"
  }

  /** Reads a formatted line back into its colour and its message. */
  function ParseLine(line: string): (r: Option<(int, string)>)
    ensures r.Some? ==> |line| >= 6 && line[..2] == [Esc, '['] && line[4] == 'm' && line[|line| - 1] == '\n'
  {
    if |line| >= 6 && line[..2] == [Esc, '['] && line[4] == 'm' && line[|line| - 1] == '\n' then
      match Atoi(line[2..4])
      case Ok(c) => Some((c, line[5..|line| - 1]))
      case Err(_) => None
    else None
  }

  /** Every level's colour is written with two digits. */
  lemma ColorDigits(l: Level)
    ensures |Itoa(LevelColor(l))| == 2
  {
    var c := LevelColor(l);
    assert NatToDecimal(c) == NatToDecimal(c / 10) + [DigitChar(c % 10)];
  }

  /** A formatted line gives back the level's colour and the message with at most one
      trailing newline removed: the format is unambiguous. */
  lemma FormatParse(l: Level, message: string)
    ensures ParseLine(FormatLine(l, message)) == Some((LevelColor(l), TrimSuffix(message, "\n")))
  {
    var c := LevelColor(l);
    var m := TrimSuffix(message, "\n");
    var line := FormatLine(l, message);
    ColorDigits(l);
    assert line == [Esc, '['] + Itoa(c) + "m" + m + "\n";
    assert line[..2] == [Esc, '['];
    assert line[2..4] == Itoa(c);
    assert line[4] == 'm';
    assert line[5..|line| - 1] == m;
    AtoiItoa(c);
  }

  /** A message that ends in two newlines keeps one of them: only one is removed. */
  lemma OneNewlineRemoved(l: Level, body: string)
    ensures FormatLine(l, body + "\n\n") == Sgr(LevelColor(l)) + body + "\n" + "\n"
  {
    var m := body + "\n\n";
    assert HasSuffix(m, "\n") && m[..|m| - 1] == body + "\n";
  }

  /** A log entry whose message the formatter rewrites. */
  class LogEntry {
    const level: Level
    var message: string

    constructor (level: Level, message: string)
      ensures this.level == level && this.message == message
    {
      this.level := level;
      this.message := message;
    }

    /** Format: strips one trailing newline from the stored message, then returns the
        coloured line; it never fails. */
    method Format() returns (out: string, err: Option<string>)
      modifies this`message
      ensures message == TrimSuffix(old(message), "\n")
      ensures out == Sgr(LevelColor(level)) + message + "\n"
      ensures out == FormatLine(level, old(message))
      ensures err.None?
    {
      var color := LevelColor(level);
      message := TrimSuffix(message, "\n");
      out := [Esc, '['] + Itoa(color) + "m" + message;
      out := out + "\n";
      err := None;
    }
  }

  // ---- configuration merge ----

  /** The command line: the -dir flag, the working directory, the first positional argument,
      the -env flag and the -proxy-only flag. */
  datatype Flags = Flags(dir: string, cwd: string, positional: string, envFiles: string, proxyOnly: bool)

  /** The flags merged over the configuration the file provided. */
  function Merged(cfg: Config, f: Flags): (r: Config)
  {
    var args := Split(f.positional, ' ');
    var root := if f.dir == "" then f.cwd else f.dir;
    cfg.(rootDirectory := if cfg.rootDirectory == "" then root else cfg.rootDirectory,
         entrypoint := if args[0] != "" then args[0] else cfg.entrypoint,
         entrypointArgs := if |args| > 1 then args[1..] else cfg.entrypointArgs,
         envFiles := if f.envFiles != "" then Split(f.envFiles, ',') else cfg.envFiles,
         proxyOnly := f.proxyOnly)
  }

  /** loadConfig, after the file has been loaded: the fields are overridden one by one. */
  method LoadConfig(cfg: Config, f: Flags) returns (r: Config)
    ensures r == Merged(cfg, f)
  {
    var args := Split(f.positional, ' ');
    var entrypoint := args[0];
    var entrypointArgs := args[1..];
    var rootDirectory := f.dir;
    if rootDirectory == "" {
      rootDirectory := f.cwd;
    }
    var root, entry, entryArgs, envFiles := cfg.rootDirectory, cfg.entrypoint, cfg.entrypointArgs, cfg.envFiles;
    if root == "" {
      root := rootDirectory;
    }
    if entrypoint != "" {
      entry := entrypoint;
    }
    if |entrypointArgs| > 0 {
      entryArgs := entrypointArgs;
    }
    if f.envFiles != "" {
      envFiles := Split(f.envFiles, ',');
    }
    r := cfg.(rootDirectory := root, entrypoint := entry, entrypointArgs := entryArgs, envFiles := envFiles,
              proxyOnly := f.proxyOnly);
  }

  /** The configuration's root directory wins; the -dir flag, and failing that the working
      directory, is used only when the configuration leaves it empty. Only the root
      directory, the entrypoint and its arguments, the env files and proxy-only can change. */
  lemma MergedRoot(cfg: Config, f: Flags)
    ensures cfg.rootDirectory != "" ==> Merged(cfg, f).rootDirectory == cfg.rootDirectory
    ensures cfg.rootDirectory == "" && f.dir != "" ==> Merged(cfg, f).rootDirectory == f.dir
    ensures cfg.rootDirectory == "" && f.dir == "" ==> Merged(cfg, f).rootDirectory == f.cwd
    ensures Merged(cfg, f).(rootDirectory := cfg.rootDirectory, entrypoint := cfg.entrypoint,
      entrypointArgs := cfg.entrypointArgs, envFiles := cfg.envFiles, proxyOnly := cfg.proxyOnly) == cfg
    ensures Merged(cfg, f).proxyOnly == f.proxyOnly
  {
  }

  /** With no positional argument the configuration's entrypoint and arguments are kept. */
  lemma NoPositionalKeepsEntrypoint(cfg: Config, f: Flags)
    requires f.positional == ""
    ensures Merged(cfg, f).entrypoint == cfg.entrypoint
    ensures Merged(cfg, f).entrypointArgs == cfg.entrypointArgs
  {
    assert ' ' !in f.positional;
  }

  /** A positional argument made of space-separated words sets the entrypoint to the first
      word and, when there are more, the arguments to the rest. */
  lemma PositionalWords(cfg: Config, f: Flags, words: seq<string>)
    requires |words| >= 1 && words[0] != ""
    requires forall i :: 0 <= i < |words| ==> ' ' !in words[i]
    requires f.positional == Join(words, ' ')
    ensures Merged(cfg, f).entrypoint == words[0]
    ensures Merged(cfg, f).entrypointArgs == if |words| > 1 then words[1..] else cfg.entrypointArgs
  {
    SplitJoin(words, ' ');
  }

  /** A non-empty -env flag replaces the env files by its comma-separated fields, which join
      back to the flag; an empty one keeps the configuration's. */
  lemma EnvFilesFlag(cfg: Config, f: Flags)
    ensures f.envFiles == "" ==> Merged(cfg, f).envFiles == cfg.envFiles
    ensures f.envFiles != "" ==> Join(Merged(cfg, f).envFiles, ',') == f.envFiles
    ensures f.envFiles != "" ==> forall i :: 0 <= i < |Merged(cfg, f).envFiles| ==> ',' !in Merged(cfg, f).envFiles[i]
  {
    SplitFields(f.envFiles, ',');
  }

  /** Applying the same flags twice gives the same configuration as applying them once. */
  lemma MergedIdempotent(cfg: Config, f: Flags)
    ensures Merged(Merged(cfg, f), f) == Merged(cfg, f)
  {
  }

  // ---- restart loop ----

  /** The sinks an out-of-band task reports to from the command's restart loop: the
      database and the console writer only. */
  const OobSinks: seq<App.Component> := [App.Db, App.ConsoleWriter]

  /** The restart-event loop: like the application's, except that a task's notifications
      go to the database and the console writer only. The events up to the cancellation are
      handled in order; the effects are returned. */
  method RestartLoop(events: seq<App.RestartEvent>, hasChild: bool) returns (effects: seq<App.AppEffect>)
    ensures effects == App.RestartEffects(events, hasChild, OobSinks, App.FirstCancel(events))
  {
    effects := [];
    var i := 0;
    while i < |events| && !events[i].Cancelled?
      invariant i <= App.FirstCancel(events)
      invariant effects == App.RestartEffects(events, hasChild, OobSinks, i)
    {
      assert i < App.FirstCancel(events);
      effects := HandleEvent(events[i], hasChild, effects);
      i := i + 1;
    }
  }

  /** One event of the restart loop: a hard restart stops the stored child, a soft restart
      is forwarded (a failed send is warned about), and a task runs on the stored child. */
  method HandleEvent(e: App.RestartEvent, hasChild: bool, effects: seq<App.AppEffect>) returns (effects': seq<App.AppEffect>)
    requires !e.Cancelled?
    ensures effects' == effects + App.RestartStep(e, hasChild, OobSinks)
  {
    effects' := effects;
    match e {
      case HardRequest(hint) =>
        if hasChild {
          effects' := effects' + [App.ChildStopped];
        }
      case SoftRequest(hint, sendErr) =>
        effects' := effects' + [App.SoftRestartForwarded(hint)];
        if sendErr.Some? {
          effects' := effects' + [App.Warned("notifying child process: " + sendErr.value)];
        }
      case OobRequest(task) =>
        if hasChild {
          effects' := effects' + [App.OobRun(task, OobSinks)];
        }
    }
  }

  /** In the restart loop, every task run reports to the database and the console writer
      and to nothing else. */
  lemma {:induction false} TasksReportToLogs(events: seq<App.RestartEvent>, hasChild: bool, n: nat)
    requires n <= App.FirstCancel(events)
    ensures forall i :: 0 <= i < |App.RestartEffects(events, hasChild, OobSinks, n)| ==>
      (App.RestartEffects(events, hasChild, OobSinks, n)[i].OobRun? ==>
       App.RestartEffects(events, hasChild, OobSinks, n)[i].sinks == [App.Db, App.ConsoleWriter])
  {
    if n > 0 {
      TasksReportToLogs(events, hasChild, n - 1);
    }
  }
}
