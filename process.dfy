/** The child-process supervisor: it runs the configured Go program with `go run`, runs the
    prestart tasks before every spawn, relays restart requests, respawns the program with an
    exponential backoff when it exits on its own, and reports everything to its event sinks.
    Goroutines, timers and the operating system are abstracted: each goroutine body is a
    method of its own, what the operating system and the IPC library report are parameters,
    and every outward effect is appended to `trace`. */
module Process {
  import opened Wrappers
  import opened Strings
  import opened EnvFile
  import opened Configuration
  import opened Notification
  import opened Oob
  import opened Sequences
  import Console

  const ForceHardRestart: string := "__hard_reload"
  const ForceSoftRestart: string := "__soft_reload"

  // Durations are counted in nanoseconds, as time.Duration is.
  const InitialBackoff: nat := 50_000_000
  const MaxBackoff: nat := 5_000_000_000
  const DefaultKillTimeout: nat := 5_000_000_000
  /** The pause after the prestart tasks. */
  const PrestartSettle: nat := 1_000_000_000

  const IpcStatusDisconnected: string := "Disconnected"

  /** The child command as stored in `childCmd`: the command, and the process id once the
      operating system has started it (a nil `cmd.Process` before that). */
  datatype Child = Child(cmd: Command, pid: Option<int>)

  datatype Signal = SIGTERM | SIGKILL

  /** Messages the supervisor writes to the child over IPC. */
  datatype IpcOut = Reload(payload: string) | Pong | ShutdownMsg

  /** Messages read from the child over IPC. */
  datatype IpcIn = Reloaded(data: string) | Ping | StartupMsg | Internal(status: string) | UnknownMsg(msgType: int) | ReadFailed

  datatype Stream = StdoutStream | StderrStream

  /** An outward effect of the supervisor. */
  datatype Effect =
    | Notified(sink: nat, n: Notification)    // one event sink received a notification
    | TaskLaunched(cmd: Command)               // an out-of-band task was started
    | ConsoleWrite(stream: Stream, data: string)
    | Slept(ns: nat)
    | IpcServerStarted(channel: string)
    | IpcServerClosed
    | IpcWrite(msg: IpcOut)
    | Spawned(cmd: Command)                    // the child program was started
    | Signalled(pgid: int, sig: Signal)        // a signal sent to a process group
    | RunLaunched                              // startChild launched its goroutine
    | OuterRunDone                             // the supervisor's run ended with an expected shutdown
    | Warned(text: string)

  /** What closeChild learns from the operating system and the race it runs: the SIGTERM
      error, whether the child reported its exit before the kill timeout, whether a child is
      still stored when the timeout fires, and the SIGKILL error. */
  datatype CloseOutcome = CloseOutcome(termErr: Option<string>, exitedInTime: bool, stillStored: bool, killErr: Option<string>)

  /** Each sink, in registration order, receives `n` once. */
  function FanOut(sinks: seq<nat>, n: Notification): (r: seq<Effect>)
    ensures |r| == |sinks|
  {
    if sinks == [] then [] else FanOut(sinks[..|sinks| - 1], n) + [Notified(sinks[|sinks| - 1], n)]
  }

  /** The i-th effect of a fan-out is the notification of the i-th sink. */
  lemma {:induction false} FanOutOrder(sinks: seq<nat>, n: Notification)
    ensures forall i :: 0 <= i < |sinks| ==> FanOut(sinks, n)[i] == Notified(sinks[i], n)
  {
    if sinks != [] {
      FanOutOrder(sinks[..|sinks| - 1], n);
    }
  }

  /** The log notification a hard restart request emits first. */
  function HardRestartNotice(runId: int, path: string, now: int): Notification {
    Notification("", LogEvent, "***hard restart requested***",
      EventMetadata(LogEventRecord(0, runId, ForceHardRestart, "***hard restart requested (" + path + ")***", now)))
  }

  /** The log notification a soft restart request emits first. */
  function SoftRestartNotice(runId: int, now: int): Notification {
    Notification("", LogEvent, "***soft restart requested***",
      EventMetadata(LogEventRecord(0, runId, ForceSoftRestart, "***soft restart requested***", now)))
  }

  /** The notification announcing a new run. */
  function StartupNotice(runId: int, now: int): Notification {
    Notification("", Startup, "", RunMetadata(LogRun(runId, now)))
  }

  /** The signals closeChild sends: SIGTERM to the child's process group, then SIGKILL only
      when the graceful exit timed out with a child still stored. */
  function CloseSignals(child: Option<Child>, co: CloseOutcome): (r: seq<Effect>)
    ensures child.None? || child.value.pid.None? ==> r == []
    ensures r != [] ==> r[0] == Signalled(-child.value.pid.value, SIGTERM)
    ensures |r| <= 2
    ensures |r| == 2 <==> r != [] && co.termErr.None? && !co.exitedInTime && co.stillStored
    ensures |r| == 2 ==> r[1] == Signalled(-child.value.pid.value, SIGKILL)
  {
    if child.None? || child.value.pid.None? then []
    else
      var pgid := -child.value.pid.value;
      if co.termErr.Some? || co.exitedInTime || !co.stillStored then [Signalled(pgid, SIGTERM)]
      else [Signalled(pgid, SIGTERM), Signalled(pgid, SIGKILL)]
  }

  /** The error closeChild returns. Only a failed signal is an error, and a SIGKILL that
      finds the process already finished is not. */
  function CloseError(child: Option<Child>, co: CloseOutcome): (r: Option<string>)
    ensures r.Some? ==> |CloseSignals(child, co)| >= 1
    ensures r.Some? <==>
      child.Some? && child.value.pid.Some?
      && (co.termErr.Some?
          || (!co.exitedInTime && co.stillStored && co.killErr.Some? && co.killErr.value != "os: process already finished"))
  {
    if child.None? || child.value.pid.None? then None
    else if co.termErr.Some? then co.termErr
    else if co.exitedInTime || !co.stillStored then None
    else if co.killErr.Some? && co.killErr.value != "os: process already finished" then
      Some("killing child process: " + co.killErr.value)
    else None
  }

  /** The effects of RunOutOfBandTask: the launch, then the captured output. A task that
      fails after starting has both streams warned about, even when empty; one that succeeds
      has them copied to the console, each only when non-empty. */
  function TaskEffects(cmd: Command, o: TaskOutcome): (r: seq<Effect>)
    ensures o.startErr.Some? <==> r == []
    ensures r != [] ==> r[0] == TaskLaunched(cmd)
    ensures o.startErr.None? && o.waitErr.Some? ==>
      |r| == 3 && r[1] == Warned("stdout:\n" + o.stdout) && r[2] == Warned("stderr:\n" + o.stderr)
    ensures forall i :: 0 <= i < |r| && r[i].ConsoleWrite? ==> o.Succeeded()
  {
    if o.startErr.Some? then []
    else if o.waitErr.Some? then [TaskLaunched(cmd), Warned("stdout:\n" + o.stdout), Warned("stderr:\n" + o.stderr)]
    else [TaskLaunched(cmd)]
         + (if |o.stdout| > 0 then [ConsoleWrite(StdoutStream, o.stdout)] else [])
         + (if |o.stderr| > 0 then [ConsoleWrite(StderrStream, o.stderr)] else [])
  }

  /** The error RunOutOfBandTask returns. */
  function TaskError(o: TaskOutcome): (r: Option<string>)
    ensures r.None? <==> o.Succeeded()
  {
    if o.startErr.Some? then Some("starting task: " + o.startErr.value)
    else if o.waitErr.Some? then Some("oob task failed: " + o.waitErr.value)
    else None
  }

  /** The index of the first task that failed, or the number of tasks when none did. */
  function FirstFailure(outcomes: seq<TaskOutcome>): (k: nat)
    ensures k <= |outcomes|
    ensures forall i :: 0 <= i < k ==> outcomes[i].Succeeded()
    ensures k < |outcomes| ==> !outcomes[k].Succeeded()
  {
    if outcomes == [] then 0
    else if !outcomes[0].Succeeded() then 0
    else 1 + FirstFailure(outcomes[1..])
  }

  /** The effects of running the first n tasks one after the other, none of them stopping. */
  function RanEffects(tasks: seq<string>, outcomes: seq<TaskOutcome>, dir: string, env: seq<string>, n: nat): seq<Effect>
    requires n <= |tasks| == |outcomes|
  {
    if n == 0 then []
    else RanEffects(tasks, outcomes, dir, env, n - 1) + TaskEffects(TaskCommand(tasks[n - 1], dir, env), outcomes[n - 1])
  }

  /** Every launch among the effects of a run of tasks, in order. */
  function Launches(effects: seq<Effect>): seq<Command> {
    if effects == [] then []
    else Launches(effects[..|effects| - 1]) + (if effects[|effects| - 1].TaskLaunched? then [effects[|effects| - 1].cmd] else [])
  }

  lemma {:induction false} LaunchesAppend(a: seq<Effect>, b: seq<Effect>)
    ensures Launches(a + b) == Launches(a) + Launches(b)
    decreases |b|
  {
    if b == [] {
      assert a + b == a;
    } else {
      assert (a + b)[..|a + b| - 1] == a + b[..|b| - 1];
      LaunchesAppend(a, b[..|b| - 1]);
    }
  }

  /** The commands of a list of task lines, in list order. */
  function TaskCommands(tasks: seq<string>, dir: string, env: seq<string>): (r: seq<Command>)
    ensures |r| == |tasks|
  {
    if tasks == [] then [] else TaskCommands(tasks[..|tasks| - 1], dir, env) + [TaskCommand(tasks[|tasks| - 1], dir, env)]
  }

  /** One task is launched exactly when it could be started. */
  lemma LaunchesOfTask(c: Command, o: TaskOutcome)
    ensures Launches(TaskEffects(c, o)) == if o.startErr.None? then [c] else []
  {
    if o.startErr.None? {
      var out1 := if |o.stdout| > 0 then [ConsoleWrite(StdoutStream, o.stdout)] else [];
      var out2 := if |o.stderr| > 0 then [ConsoleWrite(StderrStream, o.stderr)] else [];
      var t := TaskEffects(c, o);
      assert Launches([TaskLaunched(c)]) == [c] by {
        assert [TaskLaunched(c)][..0] == [];
      }
      if o.waitErr.Some? {
        var warned := [Warned("stdout:\n" + o.stdout), Warned("stderr:\n" + o.stderr)];
        assert t == [TaskLaunched(c)] + warned;
        LaunchesAppend([TaskLaunched(c)], warned);
        assert warned[..1] == [warned[0]] && [warned[0]][..0] == [];
      } else {
        assert t == [TaskLaunched(c)] + out1 + out2;
        LaunchesAppend([TaskLaunched(c)] + out1, out2);
        LaunchesAppend([TaskLaunched(c)], out1);
        assert Launches(out1) == [] by {
          if out1 != [] { assert out1[..0] == []; }
        }
        assert Launches(out2) == [] by {
          if out2 != [] { assert out2[..0] == []; }
        }
      }
    }
  }

  /** When every task succeeds, they are launched exactly in list order. */
  lemma {:induction false} RanEffectsLaunchInOrder(tasks: seq<string>, outcomes: seq<TaskOutcome>, dir: string, env: seq<string>, n: nat)
    requires n <= |tasks| == |outcomes|
    requires forall i :: 0 <= i < n ==> outcomes[i].Succeeded()
    ensures Launches(RanEffects(tasks, outcomes, dir, env, n)) == TaskCommands(tasks[..n], dir, env)
  {
    if n > 0 {
      var c := TaskCommand(tasks[n - 1], dir, env);
      var prev := RanEffects(tasks, outcomes, dir, env, n - 1);
      var t := TaskEffects(c, outcomes[n - 1]);
      assert RanEffects(tasks, outcomes, dir, env, n) == prev + t;
      assert TaskCommands(tasks[..n], dir, env) == TaskCommands(tasks[..n - 1], dir, env) + [c] by {
        assert tasks[..n][..n - 1] == tasks[..n - 1];
      }
      assert Launches(t) == [c] by {
        LaunchesOfTask(c, outcomes[n - 1]);
      }
      RanEffectsLaunchInOrder(tasks, outcomes, dir, env, n - 1);
      LaunchesAppend(prev, t);
    }
  }

  /** The number of prestart tasks that run: all of them, or those up to and including the
      first that fails. */
  function PrestartRan(outcomes: seq<TaskOutcome>): (n: nat)
    ensures n <= |outcomes|
  {
    var k := FirstFailure(outcomes);
    if k == |outcomes| then k else k + 1
  }

  /** The effects of executePrestart: the prestart effects that run, then the settling pause when all
      of them succeeded. */
  function PrestartEffects(tasks: seq<string>, outcomes: seq<TaskOutcome>, dir: string, env: seq<string>): seq<Effect>
    requires |tasks| == |outcomes|
  {
    RanEffects(tasks, outcomes, dir, env, PrestartRan(outcomes))
    + (if FirstFailure(outcomes) == |outcomes| then [Slept(PrestartSettle)] else [])
  }

  /** The warnings written when the child exits. */
  function ExitWarnings(exitCode: int, waitErr: Option<string>): (r: seq<Effect>)
    ensures |r| <= 2
  {
    (if AbnormalExit(waitErr) then [Warned("child process exited abnormally: " + waitErr.value)] else [])
    + (if exitCode > 0 then [Warned("child process exited with non-zero status: " + Itoa(exitCode))] else [])
  }

  /** The command startChild spawns: `go run <entrypoint> <args...>` in the root directory,
      with the IPC channel variable placed before the inherited environment. */
  function SpawnCommand(entrypoint: string, entrypointArgs: seq<string>, dir: string, channel: string, envVars: seq<string>): (c: Command)
    ensures c.path == "go" && c.dir == dir
    ensures |c.args| == 2 + |entrypointArgs| && c.args[0] == "run" && c.args[1] == entrypoint && c.args[2..] == entrypointArgs
    ensures |c.env| == 1 + |envVars| && c.env[0] == "GOMON_IPC_CHANNEL=" + channel && c.env[1..] == envVars
  {
    Command("go", ["run", entrypoint] + entrypointArgs, dir, ["GOMON_IPC_CHANNEL=" + channel] + envVars)
  }

  /** Waiting before a respawn: the backoff, clamped to the maximum. */
  function Clamp(backoff: nat): (w: nat)
    ensures w <= MaxBackoff && w <= backoff
  {
    if backoff > MaxBackoff then MaxBackoff else backoff
  }

  /** The warnings logged before a respawn: the unexpected exit always, and the backoff
      reaching its maximum exactly when the wait is clamped. */
  function RespawnWarnings(backoff: nat): (r: seq<Effect>)
    ensures 1 <= |r| && r[0] == Warned("child process exited unexpectedly, restarting")
    ensures |r| == 2 <==> Clamp(backoff) < backoff
  {
    [Warned("child process exited unexpectedly, restarting")]
    + (if backoff > MaxBackoff then [Warned("child process restarted too many times, max backoff reached")] else [])
  }

  /** The backoff after k consecutive unexpected exits since the last (re)start. */
  function BackoffAfter(k: nat): nat {
    if k == 0 then InitialBackoff else 2 * Clamp(BackoffAfter(k - 1))
  }

  function Pow2(k: nat): (p: nat)
    ensures p >= 1
  {
    if k == 0 then 1 else 2 * Pow2(k - 1)
  }

  function Min(a: nat, b: nat): nat {
    if a <= b then a else b
  }

  /** After the k-th consecutive unexpected exit (counting from 0) the supervisor waits
      min(50ms * 2^k, 5s) before respawning; the wait stays at 5s however often the program
      crashes, and the backoff itself never exceeds 10s. */
  lemma {:induction false} WaitBeforeRespawn(k: nat)
    ensures Clamp(BackoffAfter(k)) == Min(InitialBackoff * Pow2(k), MaxBackoff)
    ensures BackoffAfter(k) <= 2 * MaxBackoff
  {
    if k > 0 {
      WaitBeforeRespawn(k - 1);
      assert InitialBackoff * Pow2(k) == 2 * (InitialBackoff * Pow2(k - 1));
    }
  }

  /** An abnormal exit as the source tests it: the condition can never hold, because no
      message equals both signal texts. */
  predicate AbnormalExitAsWritten(msg: string) {
    !(msg != "signal: terminated" || msg != "signal: killed")
  }

  lemma AbnormalExitAsWrittenNeverHolds(msg: string)
    ensures !AbnormalExitAsWritten(msg)
  {
    if msg == "signal: terminated" {
      assert msg[8] == 't' && "signal: killed"[8] == 'k';
    }
  }

  /** The evidently intended test: the child ended with an error other than the two signals
      the supervisor itself sends. */
  predicate AbnormalExit(waitErr: Option<string>) {
    waitErr.Some? && waitErr.value != "signal: terminated" && waitErr.value != "signal: killed"
  }

  /** With the intended test, every exit error other than the two signals is warned about
      first, with its text; any other exit only gets the status warning, if any. */
  lemma AbnormalExitWarnsOnCrash(exitCode: int, waitErr: Option<string>)
    ensures AbnormalExit(waitErr) ==> ExitWarnings(exitCode, waitErr)[0] == Warned("child process exited abnormally: " + waitErr.value)
    ensures !AbnormalExit(waitErr) ==>
      ExitWarnings(exitCode, waitErr) == (if exitCode > 0 then [Warned("child process exited with non-zero status: " + Itoa(exitCode))] else [])
    ensures AbnormalExit(Some("exit status 2"))
    ensures !AbnormalExit(Some("signal: terminated")) && !AbnormalExit(Some("signal: killed")) && !AbnormalExit(None)
  {
  }

  /** The effects of one IPC message read from the child. */
  function IpcEffects(sinks: seq<nat>, msg: IpcIn): (r: seq<Effect>)
    ensures msg.Reloaded? ==> r == FanOut(sinks, Notification("", NotificationType.SoftRestart, msg.data, NoMetadata))
    ensures msg.StartupMsg? ==> r == FanOut(sinks, Plain(NotificationType.HardRestart, ""))
    ensures msg.Ping? ==> r == [IpcWrite(Pong)]
    ensures msg.Internal? || msg.UnknownMsg? || msg.ReadFailed? ==> r == []
  {
    match msg
    case Reloaded(data) => FanOut(sinks, Notification("", NotificationType.SoftRestart, data, NoMetadata))
    case Ping => [IpcWrite(Pong)]
    case StartupMsg => FanOut(sinks, Plain(NotificationType.HardRestart, ""))
    case _ => []
  }

  /** The number of messages the IPC reader handles: up to and including the first
      "Disconnected" status, or all of them. */
  function ServedCount(msgs: seq<IpcIn>): (n: nat)
    ensures n <= |msgs|
    ensures forall i :: 0 <= i < n - 1 ==> msgs[i] != Internal(IpcStatusDisconnected)
    ensures n < |msgs| ==> n > 0 && msgs[n - 1] == Internal(IpcStatusDisconnected)
  {
    if msgs == [] then 0
    else if msgs[0] == Internal(IpcStatusDisconnected) then 1
    else 1 + ServedCount(msgs[1..])
  }

  function ServeEffects(sinks: seq<nat>, msgs: seq<IpcIn>): seq<Effect> {
    if msgs == [] then [] else ServeEffects(sinks, msgs[..|msgs| - 1]) + IpcEffects(sinks, msgs[|msgs| - 1])
  }

  class ChildProcess {
    const rootDirectory: string
    const entrypoint: string
    const entrypointArgs: seq<string>
    const prestart: seq<string>
    const killTimeout: nat
    var envVars: seq<string>
    var currentRunId: int
    var childCmd: Option<Child>
    var isStarting: bool
    var isStarted: bool
    var isExpectingShutdown: bool
    var isClosed: bool
    var backoff: nat
    /** The channel of the running IPC server, if any. */
    var ipcServer: Option<string>
    var eventSinks: seq<nat>
    /** The outward effects so far, oldest first. */
    var trace: seq<Effect>

    /** The backoff is bounded: it is clamped before every doubling. */
    predicate Valid()
      reads this
    {
      backoff <= 2 * MaxBackoff
    }

    constructor (cfg: Config, environ: seq<string>, sinks: seq<nat>)
      ensures rootDirectory == cfg.rootDirectory && entrypoint == cfg.entrypoint
      ensures entrypointArgs == cfg.entrypointArgs && prestart == cfg.prestart
      ensures killTimeout == DefaultKillTimeout && envVars == environ && eventSinks == sinks
      ensures currentRunId == 0 && childCmd.None? && backoff == 0 && ipcServer.None? && trace == []
      ensures !isStarting && !isStarted && !isExpectingShutdown && !isClosed
      ensures Valid()
    {
      rootDirectory := cfg.rootDirectory;
      entrypoint := cfg.entrypoint;
      entrypointArgs := cfg.entrypointArgs;
      prestart := cfg.prestart;
      killTimeout := DefaultKillTimeout;
      envVars := environ;
      currentRunId := 0;
      childCmd := None;
      isStarting := false;
      isStarted := false;
      isExpectingShutdown := false;
      isClosed := false;
      backoff := 0;
      ipcServer := None;
      eventSinks := sinks;
      trace := [];
    }

    /** New: the sinks given as options are registered; an empty entrypoint is refused before
        any env file is read; the env files are then loaded in order, the first failure
        reported. */
    static method New(cfg: Config, environ: seq<string>, sinks: seq<nat>, files: map<string, EnvFileContent>)
      returns (r: Result<ChildProcess>)
      ensures cfg.entrypoint == "" ==> r == Err("an entrypoint is required")
      ensures cfg.entrypoint != "" && LoadAll(cfg.envFiles, files).Err? ==>
        r == Err("loading env file: " + LoadAll(cfg.envFiles, files).error)
      ensures cfg.entrypoint != "" && LoadAll(cfg.envFiles, files).Ok? ==>
        r.Ok? && fresh(r.value) && r.value.Valid()
        && r.value.entrypoint == cfg.entrypoint && r.value.eventSinks == sinks
        && r.value.envVars == environ + LoadAll(cfg.envFiles, files).value
        && r.value.childCmd.None? && r.value.trace == []
    {
      var proc := new ChildProcess(cfg, environ, sinks);
      if proc.entrypoint == "" {
        return Err("an entrypoint is required");
      }
      var err := proc.LoadEnvFiles(cfg.envFiles, files);
      if err.Some? {
        return Err("loading env file: " + err.value);
      }
      return Ok(proc);
    }

    /** The env files of New, loaded in order until the first failure. */
    method LoadEnvFiles(names: seq<string>, files: map<string, EnvFileContent>) returns (err: Option<string>)
      modifies this`envVars
      ensures LoadAll(names, files).Ok? ==> err.None? && envVars == old(envVars) + LoadAll(names, files).value
      ensures LoadAll(names, files).Err? ==> err == Some(LoadAll(names, files).error)
    {
      for i := 0 to |names|
        invariant LoadAll(names[..i], files).Ok?
        invariant envVars == old(envVars) + LoadAll(names[..i], files).value
      {
        ghost var loaded := LoadAll(names[..i], files).value;
        err := LoadEnvFile(Lookup(files, names[i]));
        if err.Some? {
          LoadAllStops(names, files, i);
          return;
        }
        LoadAllStep(names, files, i);
        AppendAssoc(old(envVars), loaded, LoadOne(Lookup(files, names[i])).value);
      }
      assert names[..|names|] == names;
      return None;
    }

    /** loadEnvFile: appends the file's entries to the environment; a missing file is no error. */
    method LoadEnvFile(content: EnvFileContent) returns (err: Option<string>)
      modifies this`envVars
      ensures LoadOne(content).Ok? ==> err.None? && envVars == old(envVars) + LoadOne(content).value
      ensures LoadOne(content).Err? ==> err == Some(LoadOne(content).error)
    {
      match content
      case Missing =>
        assert LoadOne(content) == Ok([]);
        return None;
      case Unopenable(e) =>
        assert LoadOne(content) == Err(e);
        return Some(e);
      case Readable(lines, scanErr) =>
        for i := 0 to |lines|
          invariant envVars == old(envVars) + EnvLines(lines[..i])
        {
          var line := TrimSpace(lines[i]);
          EnvLinesStep(lines, i);
          if HasPrefix(line, "#") || |line| == 0 {
            assert EnvLines(lines[..i + 1]) == EnvLines(lines[..i]);
            continue;
          }
          assert EnvLines(lines[..i + 1]) == EnvLines(lines[..i]) + [line];
          envVars := envVars + [line];
        }
        assert lines[..|lines|] == lines;
        assert scanErr.None? ==> LoadOne(content) == Ok(EnvLines(lines));
        assert scanErr.Some? ==> LoadOne(content) == Err(scanErr.value);
        return scanErr;
    }

    method AddEventSink(sink: nat)
      modifies this`eventSinks
      ensures eventSinks == old(eventSinks) + [sink]
    {
      eventSinks := eventSinks + [sink];
    }

    /** notifyEventSinks: every sink, in registration order, receives the notification once. */
    method NotifyEventSinks(n: Notification)
      modifies this`trace
      ensures trace == old(trace) + FanOut(eventSinks, n)
    {
      for i := 0 to |eventSinks|
        invariant trace == old(trace) + FanOut(eventSinks[..i], n)
      {
        assert eventSinks[..i + 1][..i] == eventSinks[..i];
        trace := trace + [Notified(eventSinks[i], n)];
      }
      assert eventSinks[..|eventSinks|] == eventSinks;
    }

    /** Start: the backoff starts at 50ms and the first run is launched. Waiting for the run
        to end is not modelled. */
    method Start() returns (err: Option<string>)
      requires Valid()
      modifies this`backoff, this`isStarting, this`isStarted, this`trace
      ensures Valid() && err.None? && backoff == InitialBackoff
      ensures isExpectingShutdown ==> unchanged(this`isStarting, this`isStarted) && trace == old(trace)
      ensures !isExpectingShutdown ==> isStarting && !isStarted && trace == old(trace) + [RunLaunched]
    {
      backoff := InitialBackoff;
      StartChild();
      return None;
    }

    /** startChild: does nothing while a shutdown is expected; otherwise marks the child as
        starting (and not started) and launches the run goroutine. */
    method StartChild()
      modifies this`isStarting, this`isStarted, this`trace
      ensures isExpectingShutdown ==> unchanged(this`isStarting, this`isStarted) && trace == old(trace)
      ensures !isExpectingShutdown ==> isStarting && !isStarted && trace == old(trace) + [RunLaunched]
    {
      if isExpectingShutdown {
        return;
      }
      isStarting := true;
      isStarted := false;
      trace := trace + [RunLaunched];
    }

    /** HardRestart: always reports the request first. While a start is in progress nothing
        else happens. Otherwise the child is closed; if that fails the error is wrapped and
        nothing is restarted, else the backoff is reset, the shutdown is no longer expected,
        and the child is started again. */
    method HardRestart(path: string, now: int, co: CloseOutcome) returns (err: Option<string>)
      requires Valid()
      modifies this`trace, this`isExpectingShutdown, this`backoff, this`isStarting, this`isStarted
      ensures Valid()
      ensures |trace| >= |old(trace)| + |eventSinks|
      ensures trace[..|old(trace)| + |eventSinks|] == old(trace) + FanOut(eventSinks, HardRestartNotice(currentRunId, path, now))
      ensures old(isStarting) ==>
        err.None? && trace == old(trace) + FanOut(eventSinks, HardRestartNotice(currentRunId, path, now))
        && unchanged(this`isExpectingShutdown, this`backoff, this`isStarting, this`isStarted)
      ensures !old(isStarting) && CloseError(childCmd, co).Some? ==>
        err == Some("terminating child process: " + CloseError(childCmd, co).value)
        && trace == old(trace) + FanOut(eventSinks, HardRestartNotice(currentRunId, path, now)) + CloseSignals(childCmd, co)
        && isExpectingShutdown && unchanged(this`backoff, this`isStarting, this`isStarted)
      ensures !old(isStarting) && CloseError(childCmd, co).None? ==>
        err.None? && backoff == InitialBackoff && !isExpectingShutdown && isStarting && !isStarted
        && trace == old(trace) + FanOut(eventSinks, HardRestartNotice(currentRunId, path, now))
                   + CloseSignals(childCmd, co) + [RunLaunched]
    {
      NotifyEventSinks(HardRestartNotice(currentRunId, path, now));
      ghost var notified := trace;
      if isStarting {
        return None;
      }
      var e := CloseChild(co);
      if e.Some? {
        PrefixOfAppend(notified, CloseSignals(childCmd, co));
        return Some("terminating child process: " + e.value);
      }
      backoff := InitialBackoff;
      isExpectingShutdown := false;
      StartChild();
      assert trace[..|notified|] == notified by {
        AppendAssoc(notified, CloseSignals(childCmd, co), [RunLaunched]);
        PrefixOfAppend(notified, CloseSignals(childCmd, co) + [RunLaunched]);
      }
      return None;
    }

    /** SoftRestart: always reports the request first. While a start is in progress nothing
        else happens; otherwise one `reload` message carrying the path is written to the child.
        The IPC server is not checked first, so without one (before the first start) the write
        panics. A failed write is only logged, so the result is always nil. */
    method SoftRestart(path: string, now: int) returns (err: Option<string>, panicked: bool)
      modifies this`trace
      ensures err.None?
      ensures panicked <==> !isStarting && ipcServer.None?
      ensures isStarting || ipcServer.None? ==> trace == old(trace) + FanOut(eventSinks, SoftRestartNotice(currentRunId, now))
      ensures !isStarting && ipcServer.Some? ==>
        trace == old(trace) + FanOut(eventSinks, SoftRestartNotice(currentRunId, now)) + [IpcWrite(Reload(path))]
    {
      NotifyEventSinks(SoftRestartNotice(currentRunId, now));
      if isStarting {
        return None, false;
      }
      if ipcServer.None? {
        return None, true;
      }
      trace := trace + [IpcWrite(Reload(path))];
      return None, false;
    }

    /** RunOutOfBandTask: runs a task line in the root directory with the supervisor's
        environment; its output reaches the console only when it succeeds, and is warned
        about when it fails after starting. */
    method RunOutOfBandTask(task: string, o: TaskOutcome) returns (err: Option<string>)
      modifies this`trace
      ensures err == TaskError(o)
      ensures trace == old(trace) + TaskEffects(TaskCommand(task, rootDirectory, envVars), o)
    {
      var args := Split(task, ' ');
      var cmd := Command(args[0], args[1..], rootDirectory, envVars);
      if o.startErr.Some? {
        return Some("starting task: " + o.startErr.value);
      }
      trace := trace + [TaskLaunched(cmd)];
      if o.waitErr.Some? {
        trace := trace + [Warned("stdout:\n" + o.stdout), Warned("stderr:\n" + o.stderr)];
        return Some("oob task failed: " + o.waitErr.value);
      }
      if |o.stdout| > 0 {
        trace := trace + [ConsoleWrite(StdoutStream, o.stdout)];
      }
      if |o.stderr| > 0 {
        trace := trace + [ConsoleWrite(StderrStream, o.stderr)];
      }
      return None;
    }

    /** executePrestart: runs the prestart tasks in list order and stops at the first that
        fails, returning its error wrapped; after all succeed it pauses for a second. */
    method ExecutePrestart(outcomes: seq<TaskOutcome>) returns (err: Option<string>)
      requires |outcomes| == |prestart|
      modifies this`trace
      ensures err.None? <==> FirstFailure(outcomes) == |outcomes|
      ensures err.Some? ==> err == Some("running prestart task: " + TaskError(outcomes[FirstFailure(outcomes)]).value)
      ensures trace == old(trace) + PrestartEffects(prestart, outcomes, rootDirectory, envVars)
    {
      ghost var ran := RanEffects(prestart, outcomes, rootDirectory, envVars, PrestartRan(outcomes));
      var failed := RunPrestartTasks(outcomes);
      if failed < |prestart| {
        assert PrestartEffects(prestart, outcomes, rootDirectory, envVars) == ran + [];
        return Some("running prestart task: " + TaskError(outcomes[failed]).value);
      }
      trace := trace + [Slept(PrestartSettle)];
      assert trace == old(trace) + PrestartEffects(prestart, outcomes, rootDirectory, envVars) by {
        AppendAssoc(old(trace), ran, [Slept(PrestartSettle)]);
      }
      return None;
    }

    /** The loop of executePrestart: the index of the first failing entry, or the list's length. */
    method RunPrestartTasks(outcomes: seq<TaskOutcome>) returns (failed: nat)
      requires |outcomes| == |prestart|
      modifies this`trace
      ensures failed == FirstFailure(outcomes)
      ensures trace == old(trace) + RanEffects(prestart, outcomes, rootDirectory, envVars, PrestartRan(outcomes))
    {
      for i := 0 to |prestart|
        invariant i <= FirstFailure(outcomes)
        invariant trace == old(trace) + RanEffects(prestart, outcomes, rootDirectory, envVars, i)
      {
        ghost var ran := RanEffects(prestart, outcomes, rootDirectory, envVars, i);
        ghost var task := TaskEffects(TaskCommand(prestart[i], rootDirectory, envVars), outcomes[i]);
        var e := RunOutOfBandTask(prestart[i], outcomes[i]);
        assert trace == old(trace) + RanEffects(prestart, outcomes, rootDirectory, envVars, i + 1) by {
          AppendAssoc(old(trace), ran, task);
        }
        if e.Some? {
          return i;
        }
        assert i < FirstFailure(outcomes);
      }
      return |prestart|;
    }

    /** dispatchStartupEvent: a run row is inserted. A failed insert leaves no result to read
        the id from, and the call panics with nothing else done. Otherwise the new run's id
        becomes current (a failure to read it is only logged) and a Startup notification
        carrying the run is sent to every sink. */
    method DispatchStartupEvent(now: int, insert: Console.RunInsert) returns (panicked: bool)
      modifies this`currentRunId, this`trace
      ensures insert.RunInsertFailed? ==> panicked && currentRunId == old(currentRunId) && trace == old(trace)
      ensures insert.RunInserted? ==>
        !panicked && currentRunId == insert.id && trace == old(trace) + FanOut(eventSinks, StartupNotice(insert.id, now))
    {
      if insert.RunInsertFailed? {
        return true;
      }
      currentRunId := insert.id;
      NotifyEventSinks(StartupNotice(insert.id, now));
      return false;
    }

    /** startIPCServer: starts the server on `channel`, or reports its failure wrapped. */
    method StartIpcServer(channel: string, startErr: Option<string>) returns (err: Option<string>)
      modifies this`ipcServer, this`trace
      ensures startErr.Some? ==> err == Some("ipc server: " + startErr.value) && ipcServer.None? && trace == old(trace)
      ensures startErr.None? ==> err.None? && ipcServer == Some(channel) && trace == old(trace) + [IpcServerStarted(channel)]
    {
      if startErr.Some? {
        ipcServer := None;
        return Some("ipc server: " + startErr.value);
      }
      ipcServer := Some(channel);
      trace := trace + [IpcServerStarted(channel)];
      return None;
    }

    /** The run goroutine of startChild up to the spawn: it records the new run (panicking
        when the run row cannot be inserted) and runs the prestart tasks; a failed task ends
        the run, otherwise the child is launched. */
    method RunChild(now: int, insert: Console.RunInsert, outcomes: seq<TaskOutcome>, channel: string, ipcErr: Option<string>,
                    spawnErr: Option<string>, pid: int)
      returns (spawned: bool, panicked: bool)
      requires |outcomes| == |prestart|
      modifies this`currentRunId, this`trace, this`ipcServer, this`childCmd, this`isStarting
      ensures panicked <==> insert.RunInsertFailed?
      ensures panicked ==> !spawned && unchanged(this`currentRunId, this`trace, this`ipcServer, this`childCmd, this`isStarting)
      ensures !panicked ==> currentRunId == insert.id
      ensures !panicked && FirstFailure(outcomes) < |outcomes| ==>
        !spawned && unchanged(this`ipcServer, this`childCmd, this`isStarting)
        && trace == old(trace) + FanOut(eventSinks, StartupNotice(insert.id, now)) + PrestartEffects(prestart, outcomes, rootDirectory, envVars)
      ensures !panicked && FirstFailure(outcomes) == |outcomes| ==>
        Launched(old(trace) + FanOut(eventSinks, StartupNotice(insert.id, now)) + PrestartEffects(prestart, outcomes, rootDirectory, envVars),
                 old(childCmd), old(isStarting), channel, ipcErr, spawnErr, pid, spawned)
    {
      panicked := DispatchStartupEvent(now, insert);
      if panicked {
        return false, true;
      }
      var err := ExecutePrestart(outcomes);
      if err.Some? {
        return false, false;
      }
      spawned := LaunchChild(channel, ipcErr, spawnErr, pid);
    }

    /** The state after launchChild ran on the trace `before`, a stored command `stored` and
        the starting flag `starting`: the IPC server runs unless it failed to start; the child
        is spawned only when the server runs and no command is stored; the command is stored
        before it is started, and only a successful start clears the starting flag. */
    ghost predicate Launched(before: seq<Effect>, stored: Option<Child>, starting: bool, channel: string,
                             ipcErr: Option<string>, spawnErr: Option<string>, pid: int, spawned: bool)
      reads this
    {
      var cmd := SpawnCommand(entrypoint, entrypointArgs, rootDirectory, channel, envVars);
      && ipcServer == (if ipcErr.None? then Some(channel) else None)
      && (spawned <==> ipcErr.None? && stored.None? && spawnErr.None?)
      && (ipcErr.None? && stored.None? ==> childCmd == Some(Child(cmd, if spawnErr.None? then Some(pid) else None)))
      && (ipcErr.Some? || stored.Some? ==> childCmd == stored)
      && isStarting == (starting && !spawned)
      && trace == before + (if ipcErr.None? then [IpcServerStarted(channel)] else []) + (if spawned then [Spawned(cmd)] else [])
    }

    /** The part of the run goroutine from the IPC server to the spawn. */
    method LaunchChild(channel: string, ipcErr: Option<string>, spawnErr: Option<string>, pid: int) returns (spawned: bool)
      modifies this`trace, this`ipcServer, this`childCmd, this`isStarting
      ensures Launched(old(trace), old(childCmd), old(isStarting), channel, ipcErr, spawnErr, pid, spawned)
    {
      var err := StartIpcServer(channel, ipcErr);
      if err.Some? {
        return false;
      }
      if childCmd.Some? {
        return false;
      }
      var cmd := Spawn(channel);
      childCmd := Some(Child(cmd, None));
      if spawnErr.Some? {
        return false;
      }
      childCmd := Some(Child(cmd, Some(pid)));
      trace := trace + [Spawned(cmd)];
      isStarting := false;
      return true;
    }

    /** The child command startChild builds; the arguments are appended only when there are any. */
    method Spawn(channel: string) returns (cmd: Command)
      ensures cmd == SpawnCommand(entrypoint, entrypointArgs, rootDirectory, channel, envVars)
    {
      var args := ["run", entrypoint];
      if |entrypointArgs| > 0 {
        args := args + entrypointArgs;
      }
      var env := ["GOMON_IPC_CHANNEL=" + channel];
      env := env + envVars;
      return Command("go", args, rootDirectory, env);
    }

    /** The run goroutine after the child exits: an abnormal exit and a non-zero status are
        warned about, a Shutdown notification goes to every sink, and the command is cleared.
        An unexpected exit is warned about (and so is a backoff over its maximum), waits
        for the clamped backoff, starts the child again and doubles
        the backoff; there is no limit on the number of respawns. An expected exit ends the run. */
    method ChildExited(exitCode: int, waitErr: Option<string>)
      requires Valid()
      modifies this`trace, this`childCmd, this`backoff, this`isStarting, this`isStarted
      ensures Valid()
      ensures childCmd.None?
      ensures isExpectingShutdown ==>
        trace == old(trace) + ExitWarnings(exitCode, waitErr) + FanOut(eventSinks, Plain(Shutdown, "")) + [OuterRunDone]
        && unchanged(this`backoff, this`isStarting, this`isStarted)
      ensures !isExpectingShutdown ==>
        trace == old(trace) + ExitWarnings(exitCode, waitErr) + FanOut(eventSinks, Plain(Shutdown, ""))
                 + RespawnWarnings(old(backoff)) + [Slept(Clamp(old(backoff)))] + [RunLaunched]
        && backoff == 2 * Clamp(old(backoff)) && isStarting && !isStarted
    {
      WarnOnExit(exitCode, waitErr);
      NotifyEventSinks(Plain(Shutdown, ""));
      assert trace == old(trace) + ExitWarnings(exitCode, waitErr) + FanOut(eventSinks, Plain(Shutdown, ""));
      childCmd := None;
      if !isExpectingShutdown {
        Respawn();
      } else {
        trace := trace + [OuterRunDone];
      }
    }

    /** The respawn after an unexpected exit: it is warned about, the backoff is clamped
        (with a second warning when it had to be) and waited for, the child is started
        again, and the backoff doubles. */
    method Respawn()
      requires Valid() && !isExpectingShutdown
      modifies this`trace, this`backoff, this`isStarting, this`isStarted
      ensures Valid()
      ensures trace == old(trace) + RespawnWarnings(old(backoff)) + [Slept(Clamp(old(backoff)))] + [RunLaunched]
      ensures backoff == 2 * Clamp(old(backoff)) && isStarting && !isStarted
    {
      trace := trace + [Warned("child process exited unexpectedly, restarting")];
      if backoff > MaxBackoff {
        trace := trace + [Warned("child process restarted too many times, max backoff reached")];
        backoff := MaxBackoff;
      }
      trace := trace + [Slept(backoff)];
      StartChild();
      backoff := backoff * 2;
    }

    method WarnOnExit(exitCode: int, waitErr: Option<string>)
      modifies this`trace
      ensures trace == old(trace) + ExitWarnings(exitCode, waitErr)
    {
      if waitErr.Some? && waitErr.value != "signal: terminated" && waitErr.value != "signal: killed" {
        trace := trace + [Warned("child process exited abnormally: " + waitErr.value)];
      }
      if exitCode > 0 {
        trace := trace + [Warned("child process exited with non-zero status: " + Itoa(exitCode))];
      }
    }

    /** closeChild: a shutdown is expected from now on. Without a stored child or process
        nothing is signalled; otherwise the child's process group gets SIGTERM and, if it has
        not exited when the kill timeout fires and a child is still stored, SIGKILL. */
    method CloseChild(co: CloseOutcome) returns (err: Option<string>)
      modifies this`isExpectingShutdown, this`trace
      ensures isExpectingShutdown
      ensures err == CloseError(childCmd, co)
      ensures trace == old(trace) + CloseSignals(childCmd, co)
    {
      isExpectingShutdown := true;
      if childCmd.None? {
        return None;
      }
      var child := childCmd.value;
      if child.pid.None? {
        return None;
      }
      trace := trace + [Signalled(-child.pid.value, SIGTERM)];
      if co.termErr.Some? {
        return co.termErr;
      }
      if co.exitedInTime {
        return None;
      }
      if co.stillStored {
        trace := trace + [Signalled(-child.pid.value, SIGKILL)];
        if co.killErr.Some? && co.killErr.value != "os: process already finished" {
          return Some("killing child process: " + co.killErr.value);
        }
      }
      return None;
    }

    /** Close: tells a connected child to shut down, closes the IPC server, then closes the
        child, wrapping its error. The closed flag it tests is never set, so every call does
        all of this again. */
    method Close(co: CloseOutcome) returns (err: Option<string>)
      modifies this`isExpectingShutdown, this`trace
      ensures isClosed ==> err.None? && trace == old(trace) && isExpectingShutdown == old(isExpectingShutdown)
      ensures !isClosed ==>
        isExpectingShutdown
        && trace == old(trace) + (if ipcServer.Some? then [IpcWrite(ShutdownMsg), IpcServerClosed] else []) + CloseSignals(childCmd, co)
        && (err.Some? <==> CloseError(childCmd, co).Some?)
        && (err.Some? ==> err.value == "terminating child process: " + CloseError(childCmd, co).value)
    {
      if isClosed {
        return None;
      }
      if ipcServer.Some? {
        trace := trace + [IpcWrite(ShutdownMsg), IpcServerClosed];
      }
      var e := CloseChild(co);
      if e.Some? {
        return Some("terminating child process: " + e.value);
      }
      return None;
    }

    /** Close as evidently intended: the first call closes the process and marks it closed,
        so every later call does nothing. */
    method CloseOnce(co: CloseOutcome) returns (err: Option<string>)
      modifies this`isClosed, this`isExpectingShutdown, this`trace
      ensures isClosed
      ensures old(isClosed) ==> err.None? && trace == old(trace) && isExpectingShutdown == old(isExpectingShutdown)
      ensures !old(isClosed) ==>
        isExpectingShutdown
        && trace == old(trace) + (if ipcServer.Some? then [IpcWrite(ShutdownMsg), IpcServerClosed] else []) + CloseSignals(childCmd, co)
        && (err.Some? <==> CloseError(childCmd, co).Some?)
        && (err.Some? ==> err.value == "terminating child process: " + CloseError(childCmd, co).value)
    {
      err := Close(co);
      isClosed := true;
    }

    /** The IPC reader's dispatch for one message: a reload acknowledgement becomes a
        SoftRestart notification carrying its data, a ping is answered with a pong, a startup
        message marks the child started and becomes a HardRestart notification, and a
        "Disconnected" status stops the reader. */
    method HandleIpcMessage(msg: IpcIn) returns (keepReading: bool)
      modifies this`trace, this`isStarted
      ensures trace == old(trace) + IpcEffects(eventSinks, msg)
      ensures isStarted == (old(isStarted) || msg.StartupMsg?)
      ensures !keepReading <==> msg == Internal(IpcStatusDisconnected)
    {
      match msg {
        case Reloaded(data) =>
          NotifyEventSinks(Notification("", NotificationType.SoftRestart, data, NoMetadata));
        case Ping =>
          trace := trace + [IpcWrite(Pong)];
        case StartupMsg =>
          isStarted := true;
          NotifyEventSinks(Plain(NotificationType.HardRestart, ""));
        case Internal(status) =>
          if status == IpcStatusDisconnected {
            return false;
          }
        case UnknownMsg(_) =>
        case ReadFailed =>
      }
      return true;
    }

    /** The IPC reader loop: messages are handled in order until the "Disconnected" status. */
    method ServeIpc(msgs: seq<IpcIn>) returns (served: nat)
      modifies this`trace, this`isStarted
      ensures served == ServedCount(msgs)
      ensures trace == old(trace) + ServeEffects(eventSinks, msgs[..served])
      ensures isStarted == (old(isStarted) || StartupMsg in msgs[..served])
    {
      served := 0;
      while served < |msgs|
        invariant served <= FirstDisconnect(msgs)
        invariant trace == old(trace) + ServeEffects(eventSinks, msgs[..served])
        invariant isStarted == (old(isStarted) || StartupMsg in msgs[..served])
      {
        var keep := ServeOne(msgs, served, old(trace), old(isStarted));
        served := served + 1;
        if !keep {
          ServedCountAt(msgs, served - 1);
          return;
        }
        assert served - 1 < FirstDisconnect(msgs);
      }
      ServedCountAll(msgs);
    }

    /** One message of the reader loop, handled after those before it. */
    method ServeOne(msgs: seq<IpcIn>, i: nat, ghost trace0: seq<Effect>, ghost started0: bool) returns (keep: bool)
      requires i < |msgs|
      requires trace == trace0 + ServeEffects(eventSinks, msgs[..i])
      requires isStarted == (started0 || StartupMsg in msgs[..i])
      modifies this`trace, this`isStarted
      ensures trace == trace0 + ServeEffects(eventSinks, msgs[..i + 1])
      ensures isStarted == (started0 || StartupMsg in msgs[..i + 1])
      ensures !keep <==> msgs[i] == Internal(IpcStatusDisconnected)
    {
      ServeStep(eventSinks, msgs, i);
      ghost var effects := IpcEffects(eventSinks, msgs[i]);
      keep := HandleIpcMessage(msgs[i]);
      assert trace == trace0 + ServeEffects(eventSinks, msgs[..i]) + effects;
      AppendAssoc(trace0, ServeEffects(eventSinks, msgs[..i]), effects);
    }
  }

  /** The number of messages before the first "Disconnected" status, or all of them. */
  function FirstDisconnect(msgs: seq<IpcIn>): (k: nat)
    ensures k <= |msgs|
    ensures forall i :: 0 <= i < k ==> msgs[i] != Internal(IpcStatusDisconnected)
    ensures k < |msgs| ==> msgs[k] == Internal(IpcStatusDisconnected)
  {
    if msgs == [] || msgs[0] == Internal(IpcStatusDisconnected) then 0 else 1 + FirstDisconnect(msgs[1..])
  }

  /** Close as written, called twice on a process whose IPC server runs and which has no
      child: the shutdown message is written and the server closed a second time. */
  method CloseTwiceAsWritten(cfg: Config, co: CloseOutcome) returns (c: ChildProcess)
    ensures !c.isClosed
    ensures c.trace == [IpcServerStarted("gomon"), IpcWrite(ShutdownMsg), IpcServerClosed, IpcWrite(ShutdownMsg), IpcServerClosed]
  {
    c := new ChildProcess(cfg, [], []);
    var started := c.StartIpcServer("gomon", None);
    var first := c.Close(co);
    var second := c.Close(co);
  }

  /** The same two calls with the corrected Close: the second one adds nothing. */
  method CloseTwiceCorrected(cfg: Config, co: CloseOutcome) returns (c: ChildProcess)
    ensures c.isClosed
    ensures c.trace == [IpcServerStarted("gomon"), IpcWrite(ShutdownMsg), IpcServerClosed]
  {
    c := new ChildProcess(cfg, [], []);
    var started := c.StartIpcServer("gomon", None);
    var first := c.CloseOnce(co);
    var second := c.CloseOnce(co);
  }

  /** A spawn that fails after its command was stored leaves the start in progress for
      good: the command stays stored without a pid, and a later hard restart is only
      reported. */
  method SpawnFailureKeepsStarting(cfg: Config, co: CloseOutcome, now: int) returns (c: ChildProcess, spawned: bool, err: Option<string>)
    ensures !spawned && err.None?
    ensures c.isStarting && c.childCmd.Some? && c.childCmd.value.pid.None?
    ensures c.trace == [RunLaunched, IpcServerStarted("gomon")]
  {
    c := new ChildProcess(cfg, [], []);
    c.StartChild();
    spawned := c.LaunchChild("gomon", None, Some("exec: \"go\": executable file not found in $PATH"), 0);
    err := c.HardRestart("main.go", now, co);
  }

  /** The reader's effects and its startup flag grow by one message at a time. */
  lemma ServeStep(sinks: seq<nat>, msgs: seq<IpcIn>, i: nat)
    requires i < |msgs|
    ensures ServeEffects(sinks, msgs[..i + 1]) == ServeEffects(sinks, msgs[..i]) + IpcEffects(sinks, msgs[i])
    ensures (StartupMsg in msgs[..i + 1]) == (StartupMsg in msgs[..i] || msgs[i] == StartupMsg)
  {
    assert msgs[..i + 1][..i] == msgs[..i];
    assert msgs[..i + 1] == msgs[..i] + [msgs[i]];
  }

  lemma {:induction false} ServedCountAt(msgs: seq<IpcIn>, i: nat)
    requires i < |msgs| && msgs[i] == Internal(IpcStatusDisconnected)
    requires forall j :: 0 <= j < i ==> msgs[j] != Internal(IpcStatusDisconnected)
    ensures ServedCount(msgs) == i + 1
  {
    if i > 0 {
      ServedCountAt(msgs[1..], i - 1);
    }
  }

  lemma {:induction false} ServedCountAll(msgs: seq<IpcIn>)
    requires forall j :: 0 <= j < |msgs| ==> msgs[j] != Internal(IpcStatusDisconnected)
    ensures ServedCount(msgs) == |msgs|
  {
    if msgs != [] {
      ServedCountAll(msgs[1..]);
    }
  }
}
