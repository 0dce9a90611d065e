/** Out-of-band tasks: a shell-less command line run in the project directory, whose start,
    standard output and standard error are reported as notifications. The operating system is
    abstracted: whether the command starts, how it ends and what it prints are parameters. */
module Oob {
  import opened Wrappers
  import opened Strings
  import opened Notification

  /** A command handed to the operating system (exec.Cmd): program, arguments, working
      directory and environment. */
  datatype Command = Command(path: string, args: seq<string>, dir: string, env: seq<string>)

  /** How a launched task went: the start error, the wait error, and the bytes it printed. */
  datatype TaskOutcome = TaskOutcome(startErr: Option<string>, waitErr: Option<string>, stdout: string, stderr: string)
  {
    predicate Succeeded() { startErr.None? && waitErr.None? }
  }

  /** The command for a task line: the line split on single spaces, the first field naming the
      program and the rest its arguments. */
  function TaskCommand(task: string, dir: string, env: seq<string>): (c: Command)
    ensures c.dir == dir && c.env == env
  {
    var fields := Split(task, ' ');
    Command(fields[0], fields[1..], dir, env)
  }

  /** The program and arguments of a task command hold no space, and joined back with single
      spaces they give back the line: nothing of the line is lost or reordered. */
  lemma TaskCommandFields(task: string, dir: string, env: seq<string>)
    ensures var c := TaskCommand(task, dir, env);
      ' ' !in c.path && (forall i :: 0 <= i < |c.args| ==> ' ' !in c.args[i])
      && Join([c.path] + c.args, ' ') == task
  {
    var fields := Split(task, ' ');
    SplitFields(task, ' ');
    assert [fields[0]] + fields[1..] == fields;
    forall i | 0 <= i < |fields[1..]|
      ensures ' ' !in fields[1..][i]
    {
      assert fields[1..][i] == fields[i + 1];
    }
  }

  class OutOfBandTask {
    const rootDirectory: string
    const task: string
    const envVars: seq<string>

    constructor (rootDirectory: string, task: string, envVars: seq<string>)
      ensures this.rootDirectory == rootDirectory && this.task == task && this.envVars == envVars
    {
      this.rootDirectory := rootDirectory;
      this.task := task;
      this.envVars := envVars;
    }

    /** Run: reports the start first; if the command cannot start that is the only
        report and a "starting task" error is returned; otherwise the captured standard output
        and then standard error are reported, each only when non-empty and even when the command
        failed, and the wait error is returned last. Every report carries `childProcessId`. */
    method Run(childProcessId: string, outcome: TaskOutcome) returns (cmd: Command, callbacks: seq<Notification>, err: Option<string>)
      ensures cmd == TaskCommand(task, rootDirectory, envVars)
      ensures |callbacks| >= 1
      ensures callbacks[0] == Notification(childProcessId, OOBTaskStartup, "running task: " + task, NoMetadata)
      ensures forall i :: 0 <= i < |callbacks| ==> callbacks[i].childProcessId == childProcessId
      ensures outcome.startErr.Some? ==> |callbacks| == 1 && err == Some("starting task: " + outcome.startErr.value)
      ensures outcome.startErr.None? ==>
        callbacks[1..] == (if |outcome.stdout| > 0 then [Notification(childProcessId, OOBTaskStdOut, outcome.stdout, NoMetadata)] else [])
                        + (if |outcome.stderr| > 0 then [Notification(childProcessId, OOBTaskStdErr, outcome.stderr, NoMetadata)] else [])
      ensures outcome.startErr.None? ==>
        (err.None? <==> outcome.waitErr.None?)
        && (outcome.waitErr.Some? ==> err == Some("running oob task: " + outcome.waitErr.value))
    {
      callbacks := [Notification(childProcessId, OOBTaskStartup, "running task: " + task, NoMetadata)];
      var args := Split(task, ' ');
      cmd := Command(args[0], args[1..], rootDirectory, envVars);
      if outcome.startErr.Some? {
        return cmd, callbacks, Some("starting task: " + outcome.startErr.value);
      }
      if |outcome.stdout| > 0 {
        callbacks := callbacks + [Notification(childProcessId, OOBTaskStdOut, outcome.stdout, NoMetadata)];
      }
      if |outcome.stderr| > 0 {
        callbacks := callbacks + [Notification(childProcessId, OOBTaskStdErr, outcome.stderr, NoMetadata)];
      }
      if outcome.waitErr.Some? {
        return cmd, callbacks, Some("running oob task: " + outcome.waitErr.value);
      }
      return cmd, callbacks, None;
    }
  }
}
