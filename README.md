# gomon, modelled in Dafny

gomon is a development-time supervisor for Go programs. It runs the configured entrypoint with
`go run`, watches the project directory, and restarts the child on a change. A hard restart
respawns the process; a soft restart asks the child to reload over IPC. It also runs out-of-band
tasks and prestart tasks. A reverse proxy injects a live-reload script into HTML pages. The child's
output and gomon's own notifications are stored in SQLite and shown in a web UI.

This project models that core:

- the child-process supervisor: start, hard and soft restart, close, the respawn backoff, the IPC
  reader, prestart and out-of-band tasks, env files;
- the POSIX and Windows `Stop` state machines;
- the file watcher's first-match-wins rule chain;
- the IPC notifier;
- the application shell's routing of notifications, restart events and signals, and its close order;
- the command's log formatter and flag merging;
- the proxy's `<head>` injection;
- the console streams and the console capture;
- the notification store's queries;
- the web UI's event monitor and search.

Every operation is a function over values, or a method on a class whose fields the Go code updates.
What the operating system, the network, the clock or a library reports is a parameter. Outward
effects (signals sent, notifications delivered, rows inserted, events published) are appended to a
trace field, so that contracts can say exactly what happened and in what order.

Modules:

| module | models |
|---|---|
| `Process` | `ChildProcess` |
| `ProcessPosix`, `ProcessWindows` | `Stop` |
| `Oob` | `OutOfBandTask` |
| `EnvFile` | the env-file reader |
| `Watcher` | `HotReloader` |
| `Notifier` | the IPC notifier |
| `Notification` | the notification record |
| `App` | the application shell |
| `GomonMain` | `main.go` |
| `Proxy` | the reverse proxy |
| `Console` | the console streams |
| `Capture` | the console capture |
| `Database` | the notification store |
| `WebUiServer` | the web UI server |

Five modules are shared helpers:

| module | what it provides |
|---|---|
| `SqlQuery` | the search builder the three search handlers share |
| `Grouping` | the grouping loop's specification |
| `Strings` | the parts of Go's `strings`, `strconv` and `path/filepath` the code relies on |
| `Glob` | the matcher |
| `Configuration` | the configuration record |

## Model

| member | source | states |
|---|---|---|
| Notification.NotificationType.Code | internal/notification/notification.go:12-32 | each kind is stored as its iota code, at most 16 |
| Notification.CodeInjective | internal/notification/notification.go:14-32 | distinct kinds have distinct codes |
| Notification.Plain | internal/notification/notification.go:34-40 | a notification built from a kind and a message has no child id and no metadata |
| Configuration.UiPort | internal/webui/server.go:81-83 | an enabled UI never listens on port 0 (4001 replaces 0); otherwise the configured port is kept |
| EnvFile.EnvLines | internal/process/process.go:490-496 | every entry is a kept line: non-empty and not starting with `#` |
| EnvFile.EnvLinesAppend | internal/process/process.go:489-496 | reading two stretches of a file gives their entries in file order |
| EnvFile.EnvLinesComplete | internal/process/process.go:490-496 | every line that is neither blank nor a comment once trimmed becomes an entry |
| EnvFile.EnvLinesSound | internal/process/process.go:490-496 | every entry is a trimmed line of the file |
| EnvFile.LoadOne | internal/process/process.go:477-503 | a missing file adds nothing without error; an unopenable file or a scanner error is an error; otherwise the kept lines are added |
| EnvFile.LoadAll | internal/process/process.go:127-132 | loading a list succeeds exactly when every file loads |
| EnvFile.LoadAllStep | internal/process/process.go:127-132 | a successful file after a successful prefix adds its entries after the prefix's |
| EnvFile.LoadAllStops | internal/process/process.go:127-132 | the first failing file's error is the error of the whole list |
| Strings.TrimSuffix | main.go:68 | with the suffix present, the result followed by the suffix is the input; otherwise the input is unchanged |
| Strings.TrimLeftCuts | internal/process/process.go:491 | the part removed is the longest all-space prefix |
| Strings.TrimRightCuts | internal/process/process.go:491 | the part removed is the longest all-space suffix |
| Strings.TrimSpaceTrims | internal/process/process.go:491 | only spaces are removed, from both ends, and neither end of the result is a space |
| Strings.TrimLeft | internal/process/process.go:491 | never longer than its input |
| Strings.TrimRight | internal/process/process.go:491 | never longer than its input |
| Strings.TrimSpace | internal/process/process.go:491 | never longer than its input; what it removes is stated by TrimSpaceTrims |
| Strings.Split | main.go:342 | a split always has at least one field |
| Strings.SplitFields | main.go:342 | no field holds the separator, and joining the fields with it gives back the input |
| Strings.SplitCount | internal/console/streams.go:142 | there is one more field than there are separators |
| Strings.SplitJoin | main.go:381 | splitting a join of separator-free fields gives the fields back |
| Strings.Base | internal/watcher/watcher.go:267 | the base name is never empty |
| Strings.LastElementSuffix | internal/watcher/watcher.go:286 | the last element is the longest slash-free suffix |
| Strings.BaseName | internal/watcher/watcher.go:286 | a base name is ".", "/" or slash-free, and a slash-free path is its own base name |
| Strings.Itoa | internal/webui/server.go:182 | a decimal numeral is produced, with a leading `-` exactly for negative numbers |
| Strings.DecimalRoundTrip | internal/webui/server.go:182 | the digits written for a natural number read back as that number |
| Strings.Atoi | internal/capture/capture.go:287 | only a signed decimal numeral parses, and only to a 64-bit value; anything else is an error |
| Strings.AtoiItoa | internal/capture/capture.go:287 | every 64-bit integer written by Itoa is read back by Atoi |
| Glob.LiteralMatch | internal/watcher/watcher.go:267 | a pattern without wildcards matches exactly itself |
| Glob.StarSuffixMatch | internal/watcher/watcher.go:267 | `*suffix` matches exactly the names that end in the suffix with no separator before it |
| Glob.Match | internal/watcher/watcher.go:267 | neither wildcard crosses a separator: a pattern without one matches only names without one |
| Oob.TaskCommand | internal/process/oob.go:59-65 | the command runs in the root directory with the supervisor's environment |
| Oob.TaskCommandFields | internal/process/oob.go:59-60 | program and arguments hold no space, and joined with single spaces they give the line back |
| Oob.OutOfBandTask.Run | internal/process/oob.go:45-99 | the start is reported first; a start failure adds no other report and is the error; otherwise the non-empty stdout, then the non-empty stderr, is reported, even on failure, and a wait failure is the error; every report carries the child id |
| Oob.OutOfBandTask.constructor | internal/process/oob.go:37-43 | an out-of-band task keeps its root directory, command line and environment |
| Process.FanOutOrder | internal/process/process.go:424-428 | the i-th delivery of a fan-out goes to the i-th registered sink, each sink exactly once |
| Process.CloseSignals | internal/process/process.go:376-411 | without a stored child or pid no signal is sent; otherwise SIGTERM to the process group first, and SIGKILL only when the terminate succeeded, the child did not exit in time and is still stored |
| Process.CloseError | internal/process/process.go:376-411 | an error is returned only for a signal that was sent and failed |
| Process.TaskEffects | internal/process/process.go:233-264 | nothing happens when the command cannot start; otherwise the launch comes first; a failure after starting warns with both captured streams, even empty ones; only a success copies output to the console |
| Process.TaskError | internal/process/process.go:233-264 | an error is reported exactly when it failed to start or to finish |
| Process.FirstFailure | internal/process/process.go:413-422 | every entry before the reported index succeeded, and the one at it failed |
| Process.TaskCommands | internal/process/process.go:413-422 | one command per task line |
| Process.LaunchesOfTask | internal/process/process.go:247-250 | a task is launched exactly when it could be started |
| Process.RanEffectsLaunchInOrder | internal/process/process.go:413-422 | when every task succeeds, they are launched exactly in list order |
| Process.PrestartRan | internal/process/process.go:413-422 | no more tasks run than are listed |
| Process.ExitWarnings | internal/process/process.go:325-333 | an abnormal exit (by the corrected test) warns with the error, then a positive status warns with the code |
| Process.SpawnCommand | internal/process/process.go:300-315 | the child is `go run <entrypoint> <args...>` in the root directory, with the IPC channel variable first in its environment |
| Process.Clamp | internal/process/process.go:338-346 | the wait never exceeds the maximum backoff or the current backoff |
| Process.WaitBeforeRespawn | internal/process/process.go:54-55 | after the k-th consecutive unexpected exit the wait is min(50ms·2^k, 5s), and the stored backoff never exceeds 10s |
| Process.AbnormalExitAsWrittenNeverHolds | internal/process/process.go:326 | the abnormal-exit test as written holds for no message |
| Process.AbnormalExitWarnsOnCrash | internal/process/process.go:325-333 | with the intended test, any exit error other than the two shutdown signals is warned about first, with its text; any other exit gets only the non-zero-status warning, if any |
| Process.AbnormalExitAsWritten | internal/process/process.go:326 | the abnormal-exit test exactly as written |
| Process.AbnormalExit | internal/process/process.go:326 | the intended test: an exit error other than "signal: terminated" and "signal: killed" |
| Process.IpcEffects | internal/process/process.go:445-470 | a reload acknowledgement is fanned out as SoftRestart, Startup as HardRestart; Ping answers Pong; other messages do nothing |
| Process.ServedCount | internal/process/process.go:440-472 | the reader handles messages up to and including the first "Disconnected" status |
| Process.FirstDisconnect | internal/process/process.go:461-466 | no earlier message is the "Disconnected" status |
| Process.ServedCountAt | internal/process/process.go:461-466 | a first "Disconnected" at i stops the reader after i + 1 messages |
| Process.ServedCountAll | internal/process/process.go:440-472 | without a "Disconnected" status every message is handled |
| Process.ChildProcess.constructor | internal/process/process.go:96-121 | the supervisor starts from the configuration with a 5s kill timeout, no child, no run and no backoff |
| Process.ChildProcess.New | internal/process/process.go:96-135 | an empty entrypoint is refused before any env file is read; the first failing env file is reported; otherwise the env files' entries follow the environment |
| Process.ChildProcess.LoadEnvFiles | internal/process/process.go:127-132 | the environment grows by every file's entries, in order, or the first failure is returned |
| Process.ChildProcess.LoadEnvFile | internal/process/process.go:477-503 | the environment grows by the file's entries, or the file's error is returned |
| Process.ChildProcess.AddEventSink | internal/process/process.go:169-171 | the sink is registered last |
| Process.ChildProcess.NotifyEventSinks | internal/process/process.go:424-428 | every sink receives the notification once, in registration order |
| Process.ChildProcess.Start | internal/process/process.go:137-145 | the backoff starts at 50ms and a run is launched unless a shutdown is expected |
| Process.ChildProcess.StartChild | internal/process/process.go:266-277 | nothing happens while a shutdown is expected; otherwise the child is marked starting and a run launched |
| Process.ChildProcess.HardRestart | internal/process/process.go:173-204 | the request is always reported first; during a start nothing else happens; a close error is returned; otherwise the child is closed and a new run launched with the backoff reset |
| Process.ChildProcess.SoftRestart | internal/process/process.go:206-231 | the request is always reported; unless a start is in progress, one reload carrying the path is written to the child, and without an IPC server that write panics |
| Process.ChildProcess.RunOutOfBandTask | internal/process/process.go:233-264 | the line's command runs in the root directory; its effects (output warned about on failure, copied on success) and error follow its outcome |
| Process.ChildProcess.ExecutePrestart | internal/process/process.go:413-422 | tasks run in order up to the first failure, whose error is wrapped; success adds the settling pause |
| Process.ChildProcess.RunPrestartTasks | internal/process/process.go:414-419 | the loop stops at the first failing task and leaves the effects of those run |
| Process.ChildProcess.DispatchStartupEvent | internal/process/process.go:353-374 | a failed run insert panics with nothing else done; otherwise the inserted run becomes current and every sink is told of it |
| Process.ChildProcess.StartIpcServer | internal/process/process.go:286-291 | a start failure is wrapped and leaves no server; otherwise the server runs on the channel |
| Process.ChildProcess.RunChild | internal/process/process.go:277-321 | a failed run insert panics before anything else; otherwise the run is recorded, a failing prestart task ends the run before the child is spawned, and else the launch proceeds |
| Process.ChildProcess.LaunchChild | internal/process/process.go:286-323 | an IPC failure or an already stored child stops the launch; a spawn failure keeps the command stored without a pid and the start in progress; otherwise the command is stored with its pid and the start ends |
| Process.ChildProcess.Spawn | internal/process/process.go:300-315 | the command built is the spawn command of the configuration |
| Process.ChildProcess.ChildExited | internal/process/process.go:325-346 | the exit warnings and a Shutdown notice are written and the child forgotten; an expected shutdown ends the loop; otherwise the restart is warned about (twice when the backoff is clamped), the clamped backoff slept, a new run launched and the backoff doubled |
| Process.ChildProcess.Respawn | internal/process/process.go:337-346 | the restart is warned about, with a second warning when the backoff is over its maximum; the clamped backoff is slept, a new run launched and the backoff doubled |
| Process.RespawnWarnings | internal/process/process.go:337-342 | the restart warning comes first, and the max-backoff warning is added exactly when the wait is clamped |
| Process.ChildProcess.WarnOnExit | internal/process/process.go:325-333 | the exit warnings are written |
| Process.ChildProcess.CloseChild | internal/process/process.go:376-411 | a shutdown is expected from then on; the signals and error are those of the close outcome |
| Process.ChildProcess.Close | internal/process/process.go:147-167 | not idempotent: the closed flag it tests is never set, so every call tells a connected child to shut down, closes the IPC server, then closes the child and wraps its error |
| Process.ChildProcess.CloseOnce | internal/process/process.go:147-150 | the corrected Close: afterwards the process is closed, and a call on a closed process does nothing |
| Process.CloseTwiceAsWritten | internal/process/process.go:147-158 | two Closes as written write the shutdown message and close the IPC server twice |
| Process.CloseTwiceCorrected | internal/process/process.go:147-158 | with the corrected Close the second call adds nothing |
| Process.SpawnFailureKeepsStarting | internal/process/process.go:315-321 | a spawn failure leaves the command stored without a pid and the start in progress, so a later hard restart is only reported |
| Process.ChildProcess.HandleIpcMessage | internal/process/process.go:445-470 | one message's effects; the child counts as started after Startup; only "Disconnected" stops the reader |
| Process.ChildProcess.ServeIpc | internal/process/process.go:440-472 | messages are handled in order up to the first "Disconnected"; the child is started exactly when a Startup was among them |
| Process.ChildProcess.ServeOne | internal/process/process.go:445-470 | one more message extends the effects by that message's |
| ProcessPosix.PosixChild.Stop | internal/process/process_posix.go:29-55 | outside Started it fails with nothing else changed; a started child moves to Stopping, its terminate channel is closed once, and no channel is ever closed twice |
| ProcessPosix.PosixChild.CloseTerm | internal/process/process_posix.go:37-38 | the terminate channel is closed exactly once |
| ProcessPosix.PosixChild.CloseKill | internal/process/process_posix.go:50-51 | the kill channel is closed exactly once |
| ProcessPosix.PosixChild.constructor | internal/process/process_posix.go:29-38 | Stop starts from any process state, with both channels open and nothing recorded |
| ProcessPosix.StopTwice | internal/process/process_posix.go:33-35 | a second Stop after a successful one fails with "not running", whatever the races |
| ProcessWindows.WindowsChild.Stop | internal/process/process_windows.go:26-41 | outside Started it fails with nothing else changed; a started child is stopped, its kill channel closed once, under both locks |
| ProcessWindows.WindowsChild.constructor | internal/process/process_windows.go:26-35 | Stop starts from any process state, with the kill channel open and nothing recorded |
| Watcher.RulePath | internal/watcher/watcher.go:252-257 | the relative path is used when it exists, the absolute path otherwise |
| Watcher.ExcludePaths | internal/watcher/watcher.go:98-107 | `.git` comes first, then the configured exclusions in order |
| Watcher.RuleOrder | internal/watcher/watcher.go:259-296 | each action is taken exactly when its rule holds and no earlier rule does; an excluded path is never reloaded |
| Watcher.Rule | internal/watcher/watcher.go:259-296 | the rule chain, first match wins: exclude prefix on the rule path, then hard-reload glob, soft-reload glob and env-file name on the base name, else unhandled |
| Watcher.ClassifyChange | internal/watcher/watcher.go:251-296 | the loops take the action of the first rule that applies |
| Watcher.HotReloader.constructor | internal/watcher/watcher.go:93-107 | the configuration is kept and the exclusion list built, with nothing done to the child yet |
| Watcher.HotReloader.New | internal/watcher/watcher.go:93-128 | an empty entrypoint is refused; the first failing env file is reported; otherwise the env files' entries follow the environment |
| Watcher.HotReloader.LoadEnvFiles | internal/watcher/watcher.go:120-125 | the environment grows by every file's entries, in order, or the first failure is returned |
| Watcher.HotReloader.LoadEnvFile | internal/watcher/watcher.go:422-448 | the environment grows by the file's entries, or its error is returned |
| Watcher.HotReloader.RespawnChild | internal/watcher/watcher.go:373-382 | the watcher is marked respawning; a child is spawned only if closing the old one succeeded |
| Watcher.HotReloader.ProcessFileChange | internal/watcher/watcher.go:251-297 | the action is the rule chain's for the rule path and base name; an excluded file does nothing; a hard-reload glob or env file respawns; a soft-reload glob writes one reload carrying the rule path, and panics with nothing written when no IPC server was started (before the first spawn, or after a failed start); anything else only logs |
| Notifier.Notify | internal/notification/notifier.go:72-85 | a disconnected server writes nothing and refuses; a connected one writes the message once and wraps a write error |
| Notifier.HandleInboundMessage | internal/notification/notifier.go:87-102 | a soft-reload acknowledgement, and only it, reports a completed soft restart |
| Notifier.OnConnectionState | internal/notification/notifier.go:51-60 | a Connected state, and only it, reports that the child connected |
| Notifier.StartCallbacks | internal/notification/notifier.go:47-66 | one "child process connected" callback per Connected state |
| Notifier.Start | internal/notification/notifier.go:47-66 | the callbacks of the states served, and the listen error wrapped exactly when there is one |
| App.NotifyAll | internal/app/app.go:277-284 | each consumer receives the notification once, in a fixed order |
| App.FileChangeSend | internal/app/app.go:166-176 | restart and task requests from the watcher are forwarded with their message; other kinds send nothing |
| App.WebUiSend | internal/app/app.go:121-131 | restart requests from the UI carry the hint "webui", a shutdown request raises SIGTERM, other kinds send nothing |
| App.RestartStep | internal/app/app.go:232-257 | a hard restart stops the child, a task runs, each only when there is a child; a soft restart is forwarded to the notifier |
| App.FirstCancel | internal/app/app.go:232-257 | the loop handles every event before the cancellation |
| App.ForwardedStep | internal/app/app.go:244-249 | an event forwards a hint exactly when it is a soft restart |
| App.EverySoftRestartForwarded | internal/app/app.go:244-249 | every soft restart among the handled events is forwarded, in order, even after a send failed |
| App.NoChildNoAction | internal/app/app.go:236-243 | without a stored child the loop never stops a child and never runs a task |
| App.SignalsHandled | internal/app/app.go:259-275 | the signal loop handles signals up to and including the first SIGINT or SIGTERM |
| App.SignalSend | internal/app/app.go:263-272 | SIGHUP asks for a soft restart, SIGUSR1 for a hard one; the terminating signals send nothing |
| App.CloseSequenceClosesPresent | internal/app/app.go:139-163 | Close closes exactly the components that exist, with as many closings as components, so each once |
| App.CloseSequence | internal/app/app.go:145-162 | the closings in the fixed order database, proxy, watcher, notifier, console, web UI, each only when present |
| App.Application.Notify | internal/app/app.go:277-284 | every consumer receives the notification once, in order; no error |
| App.Application.OnFileChange | internal/app/app.go:166-176 | the routed send, then Notify |
| App.Application.OnWebUiEvent | internal/app/app.go:121-131 | the routed send, then Notify |
| App.Application.ProcessRestartEvents | internal/app/app.go:232-257 | events are handled in order until cancellation, with no error |
| App.Application.HandleRestartEvent | internal/app/app.go:236-254 | one event's effects are appended |
| App.Application.ProcessSignals | internal/app/app.go:259-275 | signals are handled up to the first terminating one, which ends the loop with "shutdown requested"; without one there is no error |
| App.Application.CloseIfPresent | internal/app/app.go:145-162 | a nil component is skipped |
| App.Application.Close | internal/app/app.go:139-163 | the child is stopped first, then each existing component is closed in the fixed order |
| App.Application.CloseComponents | internal/app/app.go:145-162 | the existing components are closed in the fixed order |
| App.Application.constructor | internal/app/app.go:85-95 | the shell starts with the components that were created, whether a child is stored, and nothing done |
| GomonMain.LevelColor | main.go:54-66 | debug and trace are grey, warn yellow, error, fatal and panic red, info and any other level blue |
| GomonMain.FormatLine | main.go:53-76 | a formatted line ends with a newline |
| GomonMain.ParseLine | main.go:70-74 | only a line shaped like a coloured line is read back |
| GomonMain.ColorDigits | main.go:43-48 | every level's colour has two digits |
| GomonMain.FormatParse | main.go:53-76 | a formatted line gives back the level's colour and the message without one trailing newline |
| GomonMain.OneNewlineRemoved | main.go:68 | only one trailing newline is removed |
| GomonMain.LogEntry.Format | main.go:53-76 | the stored message loses one trailing newline and the output is its coloured line |
| GomonMain.LoadConfig | main.go:342-386 | the flags are merged over the loaded configuration |
| GomonMain.MergedRoot | main.go:346-352 | the configuration's root directory wins, then the -dir flag, then the working directory; only the named fields change |
| GomonMain.NoPositionalKeepsEntrypoint | main.go:342-378 | without a positional argument the entrypoint and its arguments are kept |
| GomonMain.PositionalWords | main.go:342-378 | a positional argument sets the entrypoint to its first word and, when there are more, the arguments to the rest |
| GomonMain.EnvFilesFlag | main.go:380-382 | a non-empty -env replaces the env files by its comma-free fields, which join back to the flag |
| GomonMain.MergedIdempotent | main.go:342-386 | applying the same flags twice gives the same configuration |
| GomonMain.RestartLoop | main.go:291-320 | events are handled in order until cancellation; tasks report to the database and console |
| GomonMain.HandleEvent | main.go:293-315 | one event's effects are appended |
| GomonMain.TasksReportToLogs | main.go:307-315 | every task run by the command's loop reports to the database and the console writer only |
| Proxy.HeadTagIsAscii | internal/proxy/proxy.go:48 | the tag bytes are those of `<head>` |
| Proxy.FindHead | internal/proxy/proxy.go:186-226 | the position of the first exact `<head>`, or none when there is no match |
| Proxy.InjectAfterHead | internal/proxy/proxy.go:186-234 | a match is reported exactly when a `<head>` exists, and the output is the injected body |
| Proxy.Injected | internal/proxy/proxy.go:186-234 | the body through the first exact `<head>`, then the code, then the rest; the body unchanged without one |
| Proxy.SpliceAt | internal/proxy/proxy.go:203-221 | a first match at ix gives the injected body |
| Proxy.MatchesHeadAt | internal/proxy/proxy.go:196-201 | the inner comparison succeeds exactly when `<head>` starts at ix |
| Proxy.FirstHeadUnique | internal/proxy/proxy.go:186-226 | a tag with none before it is the one reported |
| Proxy.InjectedLength | internal/proxy/proxy.go:236-237 | with a match the body grows by exactly the code's length, otherwise not at all |
| Proxy.Uninject | internal/proxy/proxy.go:203-221 | cutting the code out of an injected body gives the original, and the code sits right after the tag |
| Proxy.HeadsDisjoint | internal/proxy/proxy.go:186-226 | two `<head>` tags never overlap |
| Proxy.LaterHeadsUntouched | internal/proxy/proxy.go:203-221 | only the first `<head>` is injected after; later ones survive, shifted by the code |
| Proxy.InexactHeadUntouched | internal/proxy/proxy.go:196-201 | an upper-case tag or one with attributes is not matched |
| Proxy.Response.constructor | internal/proxy/proxy.go:173-177 | a response has its type and body, and no length set yet |
| Proxy.NormalisedHostProps | internal/proxy/proxy.go:95-97 | the downstream URL starts with `http`, ends with the host, is idempotent, and leaves an `http` host unchanged |
| Proxy.NormalisedHost | internal/proxy/proxy.go:95-97 | `http://` is put in front of a host that does not start with `http` |
| Proxy.DefaultTimeoutIsNanoseconds | internal/proxy/proxy.go:99-101 | as written, the default stored is 5 nanoseconds, shorter than any configured whole-second timeout |
| Proxy.InitTimeout | internal/proxy/proxy.go:99-101 | a zero timeout becomes five seconds; any other is kept |
| Proxy.InitTimeoutSeconds | internal/proxy/proxy.go:99-101 | with the corrected default every timeout is at least one second |
| Proxy.Published | internal/proxy/proxy.go:152-166 | a message is published exactly for restart and IPC notifications while enabled, and it is the notification's message |
| Proxy.WebProxy.constructor | internal/proxy/proxy.go:61-70 | the proxy takes its settings, the timeout converted from seconds, with nothing published |
| Proxy.WebProxy.New | internal/proxy/proxy.go:61-76 | construction fails exactly when initProxy does, and a zero port of an enabled proxy becomes 4000 |
| Proxy.WebProxy.InitProxy | internal/proxy/proxy.go:81-129 | a disabled proxy without a port is left alone; otherwise port, URL and timeout are defaulted, a missing host or bad URL is an error, and success starts serving |
| Proxy.WebProxy.Notify | internal/proxy/proxy.go:152-166 | exactly the filtered message is published |
| Proxy.WebProxy.ProxyRequest | internal/proxy/proxy.go:173-240 | a non-HTML response or a read error leaves the response as it was; otherwise the body is the injected body and the length is set to it |
| Console.FanOutOrder | internal/console/streams.go:192-196 | every listener receives the event once, in registration order |
| Console.RemoveAbsent | internal/console/streams.go:77-84 | removing an absent listener leaves the list unchanged |
| Console.RemoveFirstAt | internal/console/streams.go:77-84 | removal splices out the first occurrence and keeps the others in order |
| Console.RemoveFirstCount | internal/console/streams.go:77-84 | exactly one occurrence is removed when there is one |
| Console.RemoveFirst | internal/console/streams.go:77-84 | the listener list without the first occurrence of the sink |
| Console.AddThenRemove | internal/console/streams.go:73-84 | adding a listener then removing it gives the original list |
| Console.FirstWriteFailure | internal/console/streams.go:142-160 | every line before the reported index was stored, and the one at it was not |
| Console.RowsShape | internal/console/streams.go:142-148 | one row per line, each with the run, the stream and the line |
| Console.RowsWritten | internal/console/streams.go:142-160 | no more rows than lines are written |
| Console.WriteError | internal/console/streams.go:131-167 | a write fails exactly when some line could not be stored |
| Console.RowsRoundTrip | internal/console/streams.go:142 | every line is stored, one row per newline plus one, and the rows' data joined with newlines is the output |
| Console.WriteStoresEveryLine | internal/console/streams.go:142-167 | when every insert succeeds, the rows are the output's lines, in order |
| Console.FailureStopsWrite | internal/console/streams.go:146-153 | a failing line ends the write with an error, storing nothing after it |
| Console.Streams.constructor | internal/console/streams.go:60-71 | no listener, no run, nothing stored |
| Console.Streams.AddEventSink | internal/console/streams.go:73-75 | the listener is registered last |
| Console.Streams.RemoveEventSink | internal/console/streams.go:77-84 | the first registration of the listener is removed |
| Console.Streams.Close | internal/console/streams.go:115-121 | the streams are closed without error; a second call closes the writer channels again and panics |
| Console.Streams.NotifyEventListeners | internal/console/streams.go:192-196 | every listener receives the event once, in order |
| Console.Streams.Write | internal/console/streams.go:131-167 | after Close nothing is stored; otherwise lines are stored up to the first failure and each stored line is passed to every listener |
| Console.Streams.StoreLine | internal/console/streams.go:143-163 | one stored line adds its row and its deliveries |
| Console.OnHardRestart | internal/console/streams.go:169-190 | a run row is stored and its id becomes current; a failed insert panics; listeners learn of the run |
| Capture.FirstFailingOption | internal/capture/capture.go:97-102 | the options before the reported index succeed, the one at it fails |
| Capture.SetupError | internal/capture/capture.go:119-140 | preparing the store succeeds exactly when the directory can be checked (and created when missing) and the store connected and migrated; each failure is wrapped |
| Capture.FirstInsertFailure | internal/capture/capture.go:209-238 | every line before the reported index was inserted, and the one at it failed |
| Capture.PushedAreStoredLines | internal/capture/capture.go:209-238 | each pushed event is the line of a stored position, with that row's id, the run, the stream and that line's own clock reading; when every line is stored, every line is pushed |
| Capture.CapturedRowsShape | internal/capture/capture.go:209-211 | the i-th row is the i-th line under the run and stream, stamped with the i-th clock reading |
| Capture.SelectedRun | internal/capture/capture.go:284-292 | an empty or `current` parameter selects the newest run, anything else is parsed |
| Capture.IndexResponse | internal/capture/capture.go:274-308 | a failed run query is 500; no run panics; a bad parameter is 400; otherwise the selected run's console page |
| Capture.IndexShowsNamedRun | internal/capture/capture.go:285-300 | a run named by its decimal id is the run shown |
| Capture.NonNumeralRejected | internal/capture/capture.go:285-292 | a parameter that is not a numeral is rejected with 400 |
| Capture.CaptureSearchByRun | internal/capture/capture.go:326-336 | the capture search always binds the run, even for "all", and its text uses exactly the names bound |
| Capture.ScanAll | internal/capture/capture.go:345-354 | scanning succeeds exactly when every row scans, and then yields every row in order |
| Capture.HandleSearch | internal/capture/capture.go:319-374 | a failed query or scan is 500; no events gives the "no events found" page; otherwise every event is listed |
| Capture.ConsoleCapture.constructor | internal/capture/capture.go:81-88 | the capture takes its settings, with nothing stored |
| Capture.ConsoleCapture.New | internal/capture/capture.go:81-143 | a disabled capture is returned as configured; otherwise the first failing option or store setup is the error |
| Capture.ConsoleCapture.Write | internal/capture/capture.go:208-240 | lines are stored, each with the clock read for its own insert, up to the first failed insert, which ends the write with 0 bytes and its error; otherwise the full length is reported |
| Capture.ConsoleCapture.CaptureLine | internal/capture/capture.go:209-238 | one inserted line adds its row, and its event when its id and row were read |
| Capture.ConsoleCapture.HandleRestart | internal/capture/capture.go:310-317 | 501 without a respawn channel; otherwise one restart request and 200 |
| Capture.Respawning | internal/capture/capture.go:242-272 | a run row is stored and its id becomes current; a failed insert panics; the log rows are untouched |
| Capture.WriteStoresEveryLine | internal/capture/capture.go:209-238 | when every insert succeeds, one row per line is stored, in order, each with its own clock reading |
| SqlQuery.Placeholders | internal/utils/database.go:105-122 | the names a query text refers to are exactly its parameter fragments |
| SqlQuery.NarrowingParams | internal/utils/database.go:113-121 | the stream is bound unless it is empty or "all", and the filter, wrapped in `%`, when it is not empty; nothing else changes |
| SqlQuery.AddNarrowing | internal/utils/database.go:113-121 | the narrowing clauses and their parameters are added |
| SqlQuery.NarrowingNames | internal/utils/database.go:113-121 | the narrowing clauses refer to exactly the names they bind |
| SqlQuery.ClauseNames | internal/utils/database.go:110-112 | a clause refers to its one parameter |
| SqlQuery.SearchSql | internal/utils/database.go:105-122 | a search selects from its table and ends with its ordering |
| SqlQuery.SearchParams | internal/utils/database.go:105-122 | the run id is bound unless every run is asked for, then the stream and filter as above |
| SqlQuery.BuildSearch | internal/utils/database.go:105-122 | the builder issues the search text and parameters |
| SqlQuery.SearchConsistent | internal/utils/database.go:105-122 | every name the search text refers to is bound, and every bound name is referred to |
| SqlQuery.SearchNames | internal/utils/database.go:105-122 | the names a search's text refers to |
| SqlQuery.RenderClause | internal/utils/database.go:110-112 | a clause renders as its text, a colon with the parameter's name, and a space |
| SqlQuery.RunFilterText | internal/utils/database.go:108-113 | the run clause renders as `1 = 1 ` when every run is asked for, otherwise as `column = :column ` |
| SqlQuery.NarrowingText | internal/utils/database.go:114-121 | the narrowing renders as ` AND event_type = :event_type ` when a stream other than "all" is named, then ` AND event_data LIKE :event_data ` when a filter is given |
| SqlQuery.SearchText | internal/utils/database.go:106-122 | the text sent to the database is the select from the table, the run clause, the narrowing clauses and the ordering, exactly as the builder concatenates them |
| SqlQuery.FirstScanError | internal/utils/database.go:130-136 | the rows before the reported index scanned, and the one at it did not |
| SqlQuery.Scanned | internal/capture/capture.go:345-354 | the values of the rows scanned, in order |
| Grouping.GroupIsGrouping | internal/utils/database.go:130-144 | the rows are split into maximal runs of one key each, in order, with no empty group |
| Grouping.PushKeepsGrouping | internal/utils/database.go:137-143 | adding a row keeps a grouping a grouping |
| Grouping.JoinKeepsGrouping | internal/utils/database.go:141-143 | a row with the last group's key joins it |
| Grouping.AppendGrouped | internal/utils/database.go:137-143 | the loop's step is the specified push, and its last key is the new row's |
| Database.FindRuns | internal/utils/database.go:84-92 | the runs query asks for Startup notifications; its rows or its error are returned |
| Database.FindNotifications | internal/utils/database.go:94-148 | an empty run id is resolved to the newest run; a failed lookup, query or scan is an error; otherwise the rows naming a child are grouped by child |
| Database.GroupRows | internal/utils/database.go:130-144 | the first failing row is an error; otherwise the rows naming a child, grouped by child |
| Database.GroupRow | internal/utils/database.go:131-143 | one row is skipped without a child id, otherwise grouped |
| Database.SearchGroups | internal/utils/database.go:130-144 | the groups split the kept rows into maximal runs of one child, and no row lacks a child id |
| Database.KeptNamed | internal/utils/database.go:137 | every kept row names a child process |
| WebUiServer.SearchSelect | internal/webui/server.go:344-365 | the run selector lists the runs with the newest as current (0 without runs), or wraps the error |
| WebUiServer.LogTargetNamesRun | internal/webui/server.go:181-185 | the target of a published line names its run, and reads back as it |
| WebUiServer.LogTargetsDistinct | internal/webui/server.go:181-185 | lines of different runs go to different targets |
| WebUiServer.RunEventMessages | internal/webui/server.go:198-238 | the new run's list is appended first; then the selector, or the runs error wrapped |
| WebUiServer.Dispatch | internal/webui/server.go:127-137 | Startup publishes the run, LogEvent the line, other kinds nothing; mismatched metadata panics |
| WebUiServer.FirstPanic | internal/webui/server.go:127-137 | the monitor handles every notification before the one that panics |
| WebUiServer.MessagesAreDispatched | internal/webui/server.go:127-137 | the messages of a notification are those its dispatch publishes |
| WebUiServer.OnlyRunsAndLinesPublish | internal/webui/server.go:127-137 | only Startup and LogEvent notifications publish, in order |
| WebUiServer.Relevant | internal/webui/server.go:129-135 | the relevant notifications are the Startup and LogEvent ones |
| WebUiServer.PublicationsUpTo | internal/webui/server.go:127-137 | what is published for the first n notifications depends only on them |
| WebUiServer.PublishUntilPanic | internal/webui/server.go:127-137 | the monitor publishes in order until the first panic |
| WebUiServer.GroupByRun | internal/webui/server.go:299-322 | a failed scan is 500, no rows the "no results" page, a first row with run -1 panics, and otherwise the rows grouped by run |
| WebUiServer.GroupEvent | internal/webui/server.go:300-312 | one row extends the grouping, except a first row with run -1, which panics |
| WebUiServer.SearchGroupsByRun | internal/webui/server.go:299-313 | the groups split the rows into maximal runs of one run each, in order |
| WebUiServer.EventSearchConsistent | internal/webui/server.go:272-289 | the search binds the run unless all runs are asked for, and its text uses exactly the names bound |
| WebUiServer.SearchAction | internal/webui/server.go:256-330 | an empty run id is resolved to the newest run, a failed lookup or query is 500, and otherwise the grouping's page |
| WebUiServer.Server.constructor | internal/webui/server.go:67-106 | an enabled server gets its servers and port 4001 for 0; a disabled one has none |
| WebUiServer.Server.Start | internal/webui/server.go:108-142 | the monitor runs exactly when the UI is enabled |
| WebUiServer.Server.Close | internal/webui/server.go:144-165 | a second Close does nothing; the first closes the channel and the servers, wrapping the HTTP error |
| WebUiServer.Server.Notify | internal/webui/server.go:167-172 | after Close a notification is dropped, otherwise handed to the monitor |
| WebUiServer.Server.MonitorEvents | internal/webui/server.go:127-137 | pending notifications are published in order up to the first panic |
| WebUiServer.Server.RestartAction | internal/webui/server.go:240-246 | a forced hard restart is requested and 200 returned |
| WebUiServer.Server.ExitAction | internal/webui/server.go:248-254 | a system shutdown is requested and 200 returned |

## Left out

- Goroutines, mutexes, WaitGroups and channels are not modelled as concurrency. Each loop is a method over the sequence of what it reads. A lock-guarded section is one method.
- Go's `select` races (exit versus kill timeout, terminate versus done) are parameters saying which side won.
- `time.Sleep` and `time.After` become recorded `Slept` effects or parameters; the clock becomes a `now` parameter, or one reading per line where the source reads it once per inserted line (internal/capture/capture.go:210).
- `os.Environ`, `os.Getwd`, `filepath.Abs` and `filepath.Rel` become parameters. `exec.Cmd` start, wait and output become a `TaskOutcome` or `CloseOutcome` parameter. Signals are recorded, not sent.
- The IPC library, the SSE and HTTP servers, templ rendering, SQLite and JSON marshalling are abstracted. Their results (errors, rows, scan outcomes) are parameters. Markup is a datatype naming what is rendered.
- Notification IDs (snowflake) and dates are not modelled.
- Glob.Match: handles `*` and `?` only, not the character classes and escapes of `filepath.Match`. It also does not report pattern syntax errors, which the watcher ignores anyway.
- The retry library that restarts a crashed child in the application (internal/app/app.go:207-230) and in the command (main.go:255-289) is not modelled; the supervisor's own backoff is.
- Strings.Base: models `filepath.Base` on slash-separated paths only (no Windows volume names).
- The watcher's options, close callback, `runIPCServer`, `spawnChild`, `closeChild`, `Run`, `watch` and `Close` are not modelled. They repeat the supervisor's process logic (modelled in `Process`) or are file-system event plumbing. Whether `spawnChild` has started an IPC server is the `hasIpcServer` input of `ProcessFileChange`. The abnormal-exit test at internal/watcher/watcher.go:355 is the same as the one in the first row under Findings.
- The console capture's and streams' `Start` (goroutine loops reading the channels) and the capture's `Close` are not modelled.
- The notification store's `Notify`, `Close` and schema creation are not modelled. They are single library calls with nothing decided.
- The proxy's `Start`, `Close` and `handleReload` (server lifecycle) are not modelled.
- The web UI's `searchSelectComponentHandler` and static file handlers are not modelled. The component they render is `SearchSelect`.
- The application's `New` (which only constructs the components) and its `Run*` methods are not modelled. The callbacks `New` and `MonitorFileChanges` install are modelled.
- The command's flag parsing and config-file discovery (main.go:332-366) are not modelled. The parsed flags are a `Flags` value, and the loaded configuration is an input.
- The configuration loader, the templates, the old process implementation, the dummy program and the process-state enum's string form are not part of this model.
- Process.ExitWarnings: uses the corrected abnormal-exit test (first row under Findings). As written, internal/process/process.go:326 never logs that warning.
- Process.ChildProcess.WarnOnExit: writes the warnings of Process.ExitWarnings, so it also uses the corrected test (first row under Findings).
- Process.ChildProcess.ChildExited: writes the warnings of Process.ExitWarnings, so it also uses the corrected test (first row under Findings).
- Proxy.WebProxy.InitProxy: stores the corrected five-second default (second row under Findings). As written, the default is 5 ns.
- WebUiServer.Server.Notify: on a disabled UI, Go's `Notify` blocks forever. It sends on an unbuffered channel that only the monitor reads, and `Start` does not run the monitor when the UI is disabled; the application calls `Notify` on every component (internal/app/app.go:277-284). The model queues the notification instead, because channels are not modelled.
- Process.ChildProcess.RunChild: the goroutine of startChild is split into RunChild, LaunchChild and ChildExited. Their combination is not stated as one contract.
- Integers are unbounded. Run ids, ports and byte counts are not wrapped at 64 bits, except where `strconv.Atoi` is specified to reject values outside the 64-bit range.

## Findings

| source | as written | input that shows it | evidently intended | confidence | as-written member | corrected member |
|---|---|---|---|---|---|---|
| internal/process/process.go:326 | the child's exit error is treated as abnormal only when `!(msg != "signal: terminated" \|\| msg != "signal: killed")`, which no message satisfies | a child exiting with "exit status 2" gets no abnormal-exit warning | warn when the error is neither of the two shutdown signals | not executed | Process.AbnormalExitAsWrittenNeverHolds | Process.AbnormalExitWarnsOnCrash |
| internal/proxy/proxy.go:99-101 | a zero downstream timeout is replaced by the untyped constant 5 stored in a `time.Duration` | a proxy configured without a timeout stores 5 ns in `downstreamTimeout`, a field nothing reads | a default of five seconds | not executed | Proxy.DefaultTimeoutIsNanoseconds | Proxy.InitTimeoutSeconds |
| internal/process/process.go:147-150 | `Close` returns early when `isClosed` is set, but nothing ever sets it | a second `Close` on a process whose IPC server runs writes the shutdown message again, closes the server again and runs `closeChild` again | mark the process closed, as the web UI's `Close` does (internal/webui/server.go:149), so a second call does nothing | not executed | Process.CloseTwiceAsWritten | Process.CloseTwiceCorrected |
