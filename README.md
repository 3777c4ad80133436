# IntelMQ bot orchestration, modelled in Dafny

This project models how IntelMQ's controller (`intelmqctl`) manages bots and queues, and it
proves properties of that model. It covers the process managers that start, stop, reload and
query one bot:

- the PID-file manager `IntelMQProcessManagerNG`;
- the supervisord manager `SupervisorProcessManager`;
- the legacy PID-file manager `IntelMQProcessManager`, with its command-line classifier
  `_interpret_commandline`.

It also covers the controller class `IntelMQProcessManager` of `intelmq/lib/controller.py`:
- the fleet operations `bots_status`, `bots_start`, `bots_stop`, `bots_restart` and
  `bots_reload`;
- the selectors `get_bots` and `get_queues`, and `queues_clear`;
- the configuration editors;
- its own PID-file and process helpers.

Files and modules:

- `common.dfy` (Common): the status words, the error outcomes (`Error`), `Option`, `Result`,
  and a backend's `Reply`. A `Reply` is a status, a raised error, or "still polling".
- `strings.dfy` (Strings): string order and sorting, which model Python's `sorted`; suffix
  test; decimal rendering of a pid.
- `config.dfy` (Config): the runtime configuration (bot id → module, enabled flag, group) and
  the pipeline configuration (bot id → source queue and destination queues).
- `host.dfy` (Host): the operating system as psutil shows it:
  - PID files and the process table;
  - a log of delivered signals;
  - the next pid;
  - what `which` resolves on PATH.
  - Class `Machine` holds this state and changes it in place.
- `identity.dfy` (Identity): the three ways the managers decide that a process is "the bot":
  - the legacy suffix classifier;
  - the NG exact check;
  - the controller's check.
- `local_spec.dfy` / `local_backend.dfy`: the NG backend. LocalSpec holds the specification
  functions and their lemmas. Class `LocalBackend.ProcessManagerNG` holds the methods, each
  proved equal to its specification function.
- `supervisor_spec.dfy` / `supervisor_backend.dfy`: the supervisord backend over an abstract
  daemon. The daemon has a program table, a log of stop and signal requests, and a flag that
  says whether it supports `signalProcess`.
- `legacy_spec.dfy` / `legacy_backend.dfy`: the legacy PID-file backend.
- `inventory.dfy` (Inventory): `get_bots`, `get_queues` and the decisions of `queues_clear`.
- `controller_spec.dfy` / `controller.dfy`: the controller's fleet operations. Each one is a
  fold over the bot list. The loops of class `Controller.IntelMQProcessManager` are proved
  against prefixes of those folds.

Behaviour is modelled as the code is written, including these points:

- `_get_bot_process` of the controller:
  - It accepts any process whose `argv[1]` is the bot's module path, without checking the
    bot id.
  - It decides that a process has finished before it looks at the command line.
  - For a PID file that names a dead pid, it removes the file named after the pid
    (`<pid>.pid`) rather than the bot's own. `StalePidFileRemovesAnotherBotsFile` shows the
    consequence: another bot's PID file is deleted.
  - When it finds no bot process it returns `psutil.Process()`, the controller's own process.
    `bots_stop` then calls `terminate()` on it and `bots_reload` sends it SIGHUP; the default
    action of either signal ends the controller. The model stops the operation there with the
    error `Terminated`, and the controller's process has exited.
    `StaleFileMakesStopTerminateController` shows an input where this happens: a stale PID file
    of bot "mail" that names the pid of a running bot "1234".
- The same function also reaps every process that can be reaped. So the `_process_finished`
  check that `bots_start`/`bots_stop` make for an "unknown" bot never succeeds, and an unknown
  bot always ends "failed" (`UnknownIsNeverReaped`).
- `bots_stop` skips a bot only while its status is "stopped" or "disabled". A bot named twice
  is therefore signalled on its second visit even when it never ran
  (`RepeatedUnknownBotIsSignalled`).
- `bots_reload`:
  - When a SIGHUP is refused, the handler calls the logger object itself, which raises
    TypeError.
  - Without a bot list, it collects every status and then fails iterating over `None`, which
    also raises TypeError.
- `get_bots`:
  - An unknown selector gives an empty list.
  - A group word wins over a bot with the same id.
- `queues_clear` leaves a queue whose clearing fails out of its result without reporting an
  error.
- The NG `bot_status` looks for a process before it looks at the enabled flag, so a disabled
  bot with a live process reads "running". The controller's own status reads "disabled" first.
- The supervisor backend:
  - `is_running` counts BACKOFF as running, but `bot_status` reports BACKOFF as "stopped".
  - `bot_start` on a STARTING or BACKOFF program neither removes nor replaces it, so the
    daemon's `addProgramToGroup` refuses the duplicate program and the fault propagates
    (`AlreadyAdded` in the model).
  - A daemon without `signalProcess` makes `bot_reload` abort.
- The legacy backend:
  - It never answers "starting", "stopping" or "reloading".
  - Its `bot_start` returns the integer 1 when the bot's process cannot be inspected.
- `edit_runtime_configuration` handles a failed write by calling an `abort` method that the
  controller does not define; this is modelled as AttributeError.
  `edit_pipeline_configuration` lets the PermissionError escape.
- The enabled test that the supervisor and legacy managers make through the controller
  (`_is_enabled`) is modelled as the bot's `enabled` flag, as `_bot_enabled` computes it.

Time and the environment are parameters of the operations that sleep or poll. Each parameter
says what changes while the caller waits:

| operation | parameter | what it gives |
|---|---|---|
| supervisor STARTING re-queries | `later` | what each re-query observes |
| supervisor program creation | `initial` | the state the daemon gives the new program |
| `bots_restart` | `gone` | which processes disappear in each of the ten rounds |
| legacy `bot_start` | `exits` | whether the child exits |
| legacy `bot_stop` | `polls` | what disappears in each round of its wait |
| legacy `bot_reload` | `gone` | what disappears during its sleep |
| `queues_clear` | `failing` | which queues the broker fails to clear |
| configuration editors | `writable` | whether the file can be written |

## Model

| member | source | states |
|---|---|---|
| Identity.InterpretCommandline | intelmq/lib/process_manager.py:356-391 | a verdict is a bool exactly when argv has the "<path>/<module> <id>" or "<path>/intelmqctl run <id>" shape, true exactly when the id matches; otherwise one of the two messages, chosen by argv length and quoting pid and argv |
| Identity.ExactMatchIsConfirmed | intelmq/lib/process_manager.py:356-391 | whenever `which` resolves to ".../<module>" and ".../intelmqctl", every command line the NG exact check accepts is confirmed by the legacy classifier |
| Identity.SuffixMatchIsLooser | intelmq/lib/process_manager.py:356-391 | the legacy classifier confirms a script at another path, which the NG check (intelmq/lib/process_manager.py:827-902) rejects |
| Identity.ControllerCheckIsLooser | intelmq/lib/controller.py:580-641 | the controller accepts every command line the NG check accepts, and also a process of the same module running another bot id |
| Config.Enabled | intelmq/lib/controller.py:653-654 | a bot is disabled exactly when its flag is explicitly false |
| Config.FlattenQueues | intelmq/lib/controller.py:557-559 | a queue is mentioned exactly when it is in the destination list, or in the value of some path of the destination map |
| Strings.SortedList | intelmq/lib/controller.py:563 | the elements of the set, each once, in ascending order |
| Strings.IntToString | intelmq/lib/controller.py:634-636 | the decimal rendering: non-empty, starting with "-" exactly for a negative number, all digits otherwise; different integers give different names (`IntToStringInjective`) |
| Strings.DigitsInjective | intelmq/lib/controller.py:634-636 | two numbers with the same decimal digits are equal |
| Strings.IntToStringInjective | intelmq/lib/controller.py:634-636 | `str` is injective on integers, so two different pids never name the same PID file |
| Host.PidOf | intelmq/lib/process_manager.py:805-825 | -1 when the PID file is absent or corrupt, and otherwise the integer it holds |
| Host.RemovePidFile | intelmq/lib/process_manager.py:909-912 | that file is gone and nothing else changes |
| Host.RemovePidFileIdempotent | intelmq/lib/controller.py:648-651 | removing a PID file twice is removing it once |
| Host.WritePidFile | intelmq/lib/process_manager.py:904-907 | the file now holds the pid; other files read as before |
| Host.Finish | intelmq/lib/process_manager.py:914-920 | true exactly for a terminated, reapable process, which is then reaped; otherwise nothing changes |
| Host.Popen | intelmq/lib/process_manager.py:723-747 | FileNotFoundError exactly when the module does not resolve; otherwise a fresh pid running "<interpreter> <resolved path> <bot id>" |
| Host.PopenKeepsPidsIssued | intelmq/lib/process_manager.py:723-747 | a spawned pid is new and pids stay below the next pid |
| Host.Kill | intelmq/lib/process_manager.py:749-771 | a signal is delivered exactly when the process permits it; AccessDenied changes nothing |
| Host.Vanish | intelmq/lib/controller.py:318-335 | processes that exit during a sleep leave the table; nothing else changes |
| Host.Exit | intelmq/lib/process_manager.py:191-221 | an exited child stays in the table as a zombie |
| Host.Machine.RemovePidfile | intelmq/lib/process_manager.py:909-912 | the machine's new state is `RemovePidFile` of the old one |
| Host.Machine.CreatePidfile | intelmq/lib/process_manager.py:904-907 | the machine's new state is `WritePidFile` of the old one |
| Host.Machine.ProcessFinished | intelmq/lib/process_manager.py:914-920 | the result and new state are `Finish` of the old state |
| Host.Machine.Spawn | intelmq/lib/process_manager.py:723-747 | the result and new state are `Popen` of the old state; pids stay issued in order |
| Host.Machine.Sleep | intelmq/lib/controller.py:318-335 | the new state is `Vanish` of the old one |
| Host.Machine.ExitProcess | intelmq/lib/process_manager.py:191-221 | the new state is `Exit` of the old one |
| Host.Machine.SendSignal | intelmq/lib/process_manager.py:749-788 | the result and new state are `Kill` of the old state |
| LocalSpec.BotProcess | intelmq/lib/process_manager.py:827-902 | a found process is the PID file's pid, alive, inspectable and exactly the bot's command line; the PID file is removed only when the process is missing, foreign or reaped; conversely a live, inspectable, unfinished process with the bot's command line is found (`BotProcessFindsLiveBot`) |
| LocalSpec.BotProcessFindsLiveBot | intelmq/lib/process_manager.py:827-902 | when the PID file names a live, inspectable, unfinished process whose command line is the bot's and the module resolves, that pid is returned and the machine is unchanged |
| LocalSpec.BotStatus | intelmq/lib/process_manager.py:790-803 | running or unknown exactly when a process is found; otherwise disabled or stopped by the enabled flag |
| LocalSpec.Launch | intelmq/lib/process_manager.py:731-747 | starting exactly when the module resolves, with the new pid in the bot's PID file; failed changes nothing; no signal |
| LocalSpec.BotStart | intelmq/lib/process_manager.py:723-747 | no signal is sent, and a pid is issued only when the answer is starting |
| LocalSpec.BotStop | intelmq/lib/process_manager.py:749-771 | nothing is spawned; at most one SIGTERM, to the pid in the PID file, and only when the answer is stopping |
| LocalSpec.BotReload | intelmq/lib/process_manager.py:773-788 | nothing is spawned; a SIGHUP to the pid in the PID file is sent exactly when the answer is reloading |
| LocalSpec.StatusDisabledIff | intelmq/lib/process_manager.py:790-803 | "disabled" exactly when no process is found and the bot is disabled; running or unknown exactly when one is found |
| LocalSpec.DisabledBotCanBeRunning | intelmq/lib/process_manager.py:790-803 | a disabled bot with a live process is reported running |
| LocalSpec.BotProcessStable | intelmq/lib/process_manager.py:827-902 | looking for a found process again finds the same one and changes nothing |
| LocalSpec.BotProcessCleanup | intelmq/lib/process_manager.py:827-902 | for each case (no process, foreign command line, reapable, uninspectable), whether the PID file and process are removed |
| LocalSpec.StartOutcomes | intelmq/lib/process_manager.py:723-747 | `bot_start` answers disabled, running, starting or failed, and never raises |
| LocalSpec.StartIdleWhenRunningOrDisabled | intelmq/lib/process_manager.py:723-747 | a running or disabled bot is left alone and nothing is spawned |
| LocalSpec.StartUnknownFails | intelmq/lib/process_manager.py:723-747 | an unknown bot fails to start and the machine is unchanged |
| LocalSpec.StartSpawnsOnlyStopped | intelmq/lib/process_manager.py:723-747 | only a stopped bot is spawned, exactly when its module resolves; the child's pid is recorded and it runs the resolved script |
| LocalSpec.StartThenStatusRunning | intelmq/lib/process_manager.py:723-803 | right after a successful start, the status is running |
| LocalSpec.StopOutcomes | intelmq/lib/process_manager.py:749-771 | `bot_stop` answers disabled, stopped, stopping or failed, and never raises |
| LocalSpec.StopSignalsOnlyRunning | intelmq/lib/process_manager.py:749-771 | SIGTERM goes out only for a running bot, and only to the pid in its PID file |
| LocalSpec.StartThenStop | intelmq/lib/process_manager.py:723-771 | stopping a freshly started bot sends SIGTERM to exactly that child and answers stopping |
| LocalSpec.ReloadOnlyRunning | intelmq/lib/process_manager.py:773-788 | only a running bot gets SIGHUP; it answers reloading exactly when the signal is delivered, and TypeError otherwise; any other status is returned unchanged |
| LocalBackend.ProcessManagerNG.constructor | intelmq/lib/process_manager.py:669-681 | the manager acts on the given machine and runtime configuration |
| LocalBackend.ProcessManagerNG.BotEnabled | intelmq/lib/process_manager.py:922-923 | enabled unless the flag is explicitly false |
| LocalBackend.ProcessManagerNG.GetBotPid | intelmq/lib/process_manager.py:805-825 | the pid is `PidOf` of the machine |
| LocalBackend.ProcessManagerNG.GetBotProcess | intelmq/lib/process_manager.py:827-902 | the result and new machine state are `LocalSpec.BotProcess` |
| LocalBackend.ProcessManagerNG.BotStatus | intelmq/lib/process_manager.py:790-803 | the result and new machine state are `LocalSpec.BotStatus` |
| LocalBackend.ProcessManagerNG.Launch | intelmq/lib/process_manager.py:731-747 | the result and new state are `LocalSpec.Launch`; pids stay issued in order |
| LocalBackend.ProcessManagerNG.BotStart | intelmq/lib/process_manager.py:723-747 | the result and new state are `LocalSpec.BotStart` |
| LocalBackend.ProcessManagerNG.BotStop | intelmq/lib/process_manager.py:749-771 | the result and new state are `LocalSpec.BotStop` |
| LocalBackend.ProcessManagerNG.BotReload | intelmq/lib/process_manager.py:773-788 | the result and new state are `LocalSpec.BotReload` |
| SupervisorSpec.ProcessName | intelmq/lib/process_manager.py:658-659 | the name is "intelmq:" followed by the bot id |
| SupervisorSpec.ProcessNameInjective | intelmq/lib/process_manager.py:658-659 | two bots never share a program name |
| SupervisorSpec.IsRunning | intelmq/lib/process_manager.py:437-442 | STARTING, RUNNING and BACKOFF count as running; STOPPED, STOPPING, EXITED, FATAL and UNKNOWN do not |
| SupervisorSpec.ProcessState | intelmq/lib/process_manager.py:591-597 | a state exactly when the program is registered; None stands for the BAD_NAME fault |
| SupervisorSpec.Observe | intelmq/lib/process_manager.py:552-577 | a re-query sees the program gone or in a new state, with the same command and stop signal; other programs are untouched |
| SupervisorSpec.Reported | intelmq/lib/process_manager.py:552-577 | disabled exactly for an absent program of a disabled bot, running exactly for RUNNING, stopping exactly for STOPPING, and otherwise stopped |
| SupervisorSpec.RemoveBot | intelmq/lib/process_manager.py:588-589 | the bot's program is gone and no other program changes |
| SupervisorSpec.CreateBot | intelmq/lib/process_manager.py:579-586 | the bot's program is registered with command "<module> <bot id>", stop signal INT and the given state; no other program changes |
| SupervisorSpec.BotStatus | intelmq/lib/process_manager.py:552-577 | the answer is one of disabled, stopped, running or stopping, or polling continues exactly while the program is STARTING; other programs are untouched |
| SupervisorSpec.BotStart | intelmq/lib/process_manager.py:484-498 | the answer is running, stopped, stopping, disabled, still polling, or the refused re-add (`AlreadyAdded`) exactly for a STARTING or BACKOFF program; no stop or signal request |
| SupervisorSpec.BotStop | intelmq/lib/process_manager.py:500-521 | the answer is stopped or disabled and the program is no longer registered |
| SupervisorSpec.BotReload | intelmq/lib/process_manager.py:523-550 | the answer is a status, still polling, or an abort, which only a daemon without signalProcess gives and which leaves the program table as it was |
| SupervisorSpec.StatusOfSettledState | intelmq/lib/process_manager.py:437-442 | RUNNING reads running, STOPPING reads stopping, and every other state reads stopped, including BACKOFF, which `is_running` counts as running |
| SupervisorSpec.StatusOfAbsentProgram | intelmq/lib/process_manager.py:552-577 | an unregistered bot reads stopped or disabled by its enabled flag |
| SupervisorSpec.StartWhenRunning | intelmq/lib/process_manager.py:484-498 | starting a RUNNING program changes nothing and answers running |
| SupervisorSpec.StartRegisters | intelmq/lib/process_manager.py:484-498 | starting an absent or stopped program registers it with command "<module> <bot id>" and stop signal INT; no other program and no request is touched |
| SupervisorSpec.ProgramKeepsDefinition | intelmq/lib/process_manager.py:552-577 | re-queries change a program's state, never its command or stop signal |
| SupervisorSpec.StartWhileStartingRaises | intelmq/lib/process_manager.py:484-498 | a STARTING or BACKOFF program is not removed, so adding it again is refused (`AlreadyAdded`) and nothing changes |
| SupervisorSpec.StopAndReloadSignalOnlyRunning | intelmq/lib/process_manager.py:500-550 | stopProcess and signalProcess(HUP) are requested exactly for a running program |
| SupervisorSpec.StopOutcomes | intelmq/lib/process_manager.py:500-521 | after a stop the program is unregistered, the answer is stopped or disabled, and other programs are untouched |
| SupervisorSpec.ReloadOutcomes | intelmq/lib/process_manager.py:523-550 | a stopped program is removed; a running one aborts on a daemon without signalProcess, and is otherwise reported after the signal |
| SupervisorBackend.SupervisorProcessManager.constructor | intelmq/lib/process_manager.py:448-451 | the manager starts from the given daemon with no requests logged |
| SupervisorBackend.SupervisorProcessManager.GetProcessState | intelmq/lib/process_manager.py:591-597 | the result is `SupervisorSpec.ProcessState` |
| SupervisorBackend.SupervisorProcessManager.CreateAndStartBot | intelmq/lib/process_manager.py:579-586 | the program table becomes `CreateBot` of the old one; the request log is unchanged |
| SupervisorBackend.SupervisorProcessManager.RemoveBot | intelmq/lib/process_manager.py:588-589 | the program table becomes `RemoveBot` of the old one; the request log is unchanged |
| SupervisorBackend.SupervisorProcessManager.BotStatus | intelmq/lib/process_manager.py:552-577 | the reply and new table are `SupervisorSpec.BotStatus` |
| SupervisorBackend.SupervisorProcessManager.BotStart | intelmq/lib/process_manager.py:484-498 | the reply and new daemon are `SupervisorSpec.BotStart` |
| SupervisorBackend.SupervisorProcessManager.BotStop | intelmq/lib/process_manager.py:500-521 | the reply and new daemon are `SupervisorSpec.BotStop` |
| SupervisorBackend.SupervisorProcessManager.BotReload | intelmq/lib/process_manager.py:523-550 | the reply and new daemon are `SupervisorSpec.BotReload` |
| LegacySpec.CheckPid | intelmq/lib/process_manager.py:340-349 | Some(pid) exactly when the PID file holds an integer |
| LegacySpec.PidFileTruthiness | intelmq/lib/process_manager.py:191-195 | `if pid:` holds exactly when the PID file holds an integer other than 0 and -1 |
| LegacySpec.Idle | intelmq/lib/process_manager.py:330-338 | without a process the answer is stopped, or disabled exactly for a disabled bot |
| LegacySpec.ChildStatus | intelmq/lib/process_manager.py:310-338 | the child just started reads running exactly when it has not terminated; otherwise stopped or disabled |
| LegacySpec.StatusProcess | intelmq/lib/process_manager.py:393-404 | a missing process is False, an uninspectable one an error, otherwise the classifier's verdict |
| LegacySpec.BotStatus | intelmq/lib/process_manager.py:310-338 | running exactly when a non-zero pid is confirmed by the classifier; at most the bot's PID file is removed |
| LegacySpec.Drain | intelmq/lib/process_manager.py:222-270 | the wait never turns an absent process into a present one, and touches no PID file or signal |
| LegacySpec.BotStart | intelmq/lib/process_manager.py:191-221 | the integer 1 comes back only with the machine unchanged; no signal is sent; a pid that is issued is written to the bot's PID file |
| LegacySpec.BotStop | intelmq/lib/process_manager.py:222-270 | nothing is spawned; at most one SIGTERM, to the pid in the PID file; at most the bot's own PID file is removed |
| LegacySpec.BotReload | intelmq/lib/process_manager.py:271-309 | nothing is spawned; at most one SIGHUP, to the pid in the PID file; at most the bot's own PID file is removed |
| LegacySpec.StartOutcomes | intelmq/lib/process_manager.py:191-221 | a running bot is left alone; an uninspectable one gives 1; otherwise a child is spawned exactly when the module resolves, its pid recorded, and the answer follows whether it exited |
| LegacySpec.SignalsOnlyConfirmedProcess | intelmq/lib/process_manager.py:222-309 | SIGTERM and SIGHUP go only to the pid in the PID file, and only when that process is confirmed running |
| LegacySpec.NoTransitionalAnswers | intelmq/lib/process_manager.py:191-309 | start, stop and reload never answer starting, stopping or reloading |
| LegacySpec.DrainWhileAlive | intelmq/lib/process_manager.py:222-270 | a process that never goes away is seen in every round |
| LegacySpec.StopWaitsForExit | intelmq/lib/process_manager.py:222-270 | a process that ignores SIGTERM is still reported running and keeps its PID file; one gone after the first sleep is reported stopped and its PID file removed |
| LegacyBackend.IntelMQProcessManager.constructor | intelmq/lib/process_manager.py:136-149 | the manager acts on the given machine and runtime configuration |
| LegacyBackend.IntelMQProcessManager.CheckPid | intelmq/lib/process_manager.py:340-349 | the result is `LegacySpec.CheckPid` |
| LegacyBackend.IntelMQProcessManager.StatusProcess | intelmq/lib/process_manager.py:393-404 | the result is `LegacySpec.StatusProcess` |
| LegacyBackend.IntelMQProcessManager.BotStatus | intelmq/lib/process_manager.py:310-338 | the result and new state are `LegacySpec.BotStatus` |
| LegacyBackend.IntelMQProcessManager.BotStart | intelmq/lib/process_manager.py:191-221 | the result and new state are `LegacySpec.BotStart` |
| LegacyBackend.IntelMQProcessManager.BotStop | intelmq/lib/process_manager.py:222-270 | the result and new state are `LegacySpec.BotStop`; the poll loop keeps the `Drain` invariant |
| LegacyBackend.IntelMQProcessManager.BotReload | intelmq/lib/process_manager.py:271-309 | the result and new state are `LegacySpec.BotReload` |
| Inventory.GetBots | intelmq/lib/controller.py:516-529 | a sorted list with no repeats: every bot, the bots of a group, the one bot named, or nothing for an unknown word |
| Inventory.SelectedBotsAreConfigured | intelmq/lib/controller.py:516-529 | every selector names configured bots only, each once |
| Inventory.GroupWordShadowsBotId | intelmq/lib/controller.py:516-529 | a bot whose id is a group word cannot be selected by its id |
| Inventory.EntryQueues | intelmq/lib/controller.py:531-563 | a queue belongs to an entry exactly when it is its source queue, its "-internal" queue or one of its destinations, as the type asks |
| Inventory.QueueSet | intelmq/lib/controller.py:531-563 | the union of every entry's queues |
| Inventory.SelectQueues | intelmq/lib/controller.py:531-563 | a sorted list: all queues, those of one type, or the one queue named when it exists |
| Inventory.KindOf | intelmq/lib/controller.py:533-539 | a queue type exactly for the four words of QUEUE_TYPE; "internal" alone selects the internal queues |
| Inventory.KindWords | intelmq/lib/controller.py:535-539 | helper for the selector lemmas: "source" and "internal" are queue types, so neither is read as a queue name |
| Inventory.InternalQueueSet | intelmq/lib/controller.py:547-556 | an internal queue is exactly a declared source queue with "-internal" appended |
| Inventory.SourceQueueSet | intelmq/lib/controller.py:547-553 | without internal queues, the source type collects exactly the declared source queues |
| Inventory.InternalTypeListsInternalQueues | intelmq/lib/controller.py:531-563 | "internal" lists exactly one "<source>-internal" per declared source queue |
| Inventory.SourceTypeListsSourceQueues | intelmq/lib/controller.py:531-563 | "source" without internal queues lists exactly the declared source queues |
| Inventory.TypesWithinAll | intelmq/lib/controller.py:531-563 | every type lists a part of what "all" lists |
| Inventory.ListedNameSelectsItself | intelmq/lib/controller.py:531-563 | a listed queue name selects just itself |
| Inventory.FirstUnknown | intelmq/lib/controller.py:478-514 | None exactly when every name is known; otherwise the first unknown name |
| Inventory.ClearedQueues | intelmq/lib/controller.py:478-514 | exactly the requested queues that did not fail, in order |
| Inventory.ClearedQueuesAppend | intelmq/lib/controller.py:478-514 | clearing one more queue extends the report by it unless it fails |
| Inventory.QueuesClear | intelmq/lib/controller.py:478-514 | an error exactly when some name is not a known queue, naming one of them; otherwise the requested (or all) queues minus those that failed |
| ControllerSpec.Selected | intelmq/lib/controller.py:217-241 | the given list, or every configured bot |
| ControllerSpec.BotProcess | intelmq/lib/controller.py:580-641 | a returned process other than the controller's own is the PID file's pid, alive, inspectable, not finished, with an accepted command line; when none is found the controller's own pid is returned; the only file changes are the listed removals; conversely an accepted process is found (`BotProcessFindsAccepted`) |
| ControllerSpec.BotProcessFindsAccepted | intelmq/lib/controller.py:580-641 | when the PID file names a live, inspectable, unfinished process other than the controller's own, the module resolves and argv[1] is accepted, that pid is returned and the machine is unchanged |
| ControllerSpec.StatusOfAcceptedProcess | intelmq/lib/controller.py:217-241 | an enabled bot with such a process reads running, or unknown when it has terminated but cannot be reaped, with the machine unchanged |
| ControllerSpec.BotStatus | intelmq/lib/controller.py:217-241 | disabled exactly for a disabled bot; running or unknown only with a live pid in the PID file, unknown only for an unreapable terminal one; no signal or spawn; an enabled bot whose process is accepted reads running (`StatusOfAcceptedProcess`) |
| ControllerSpec.StatusAll | intelmq/lib/controller.py:217-241 | one status per listed bot; disabled exactly for disabled bots |
| ControllerSpec.StatusAllSpawnsNothing | intelmq/lib/controller.py:217-241 | asking for statuses may reap processes but never adds one |
| ControllerSpec.StatusAllSnoc | intelmq/lib/controller.py:225-239 | one more bot in the list is one more status query, on the machine the earlier ones left |
| ControllerSpec.Launch | intelmq/lib/controller.py:243-278 | starting exactly when the module resolves, with the child's pid in the bot's PID file; no existing process is replaced |
| ControllerSpec.StartStep | intelmq/lib/controller.py:243-278 | a disabled or running bot is skipped; any other bot becomes starting or failed |
| ControllerSpec.StartFold | intelmq/lib/controller.py:243-278 | running and disabled statuses are kept; every other bot ends starting or failed; no signals |
| ControllerSpec.StartFoldSnoc | intelmq/lib/controller.py:250-276 | one more bot in the list is one more start step; the list stays consistent with the answers |
| ControllerSpec.StartStepChildren | intelmq/lib/controller.py:252-276 | a start step keeps every process it does not remove, and every process it adds runs the bot it started, answered starting |
| ControllerSpec.StartFoldChildren | intelmq/lib/controller.py:250-278 | over a list without repeats, every process the start loop adds runs a bot of the list that ends up answered starting |
| ControllerSpec.StartFoldChildrenStep | intelmq/lib/controller.py:250-278 | the induction step of StartFoldChildren: one more, distinct bot at the end of the list |
| ControllerSpec.ChildrenStartingSnoc | intelmq/lib/controller.py:250-278 | helper: the children of the earlier bots and of one more distinct bot are the children of the longer list |
| ControllerSpec.BotsStart | intelmq/lib/controller.py:243-278 | one answer per bot, from disabled, running, starting or failed; disabled exactly when disabled; running exactly when the status was running |
| ControllerSpec.StopStep | intelmq/lib/controller.py:287-314 | a disabled or stopped bot is skipped; an unknown one ends stopped or failed; any other ends stopping or failed, unless the pid found is the controller's own, whose SIGTERM ends the operation with Terminated and the controller exited; at most one SIGTERM and no spawn |
| ControllerSpec.OnlyAppendedTransitive | intelmq/lib/controller.py:280-316 | only-SIGTERM-appended composes over a sequence of steps |
| ControllerSpec.SignalAppended | intelmq/lib/controller.py:306-309 | helper: one more delivered signal is of the kind sent, and it either spares the controller or is the first signal to its own pid |
| ControllerSpec.SparedTransitive | intelmq/lib/controller.py:287-314 | no signal to the controller in earlier steps and none in later ones means none overall; a self-signal ending the later steps is the first one overall |
| ControllerSpec.StopTerminationSticks | intelmq/lib/controller.py:287-314 | once the controller has terminated itself, the rest of the list is not visited |
| ControllerSpec.StopFold | intelmq/lib/controller.py:287-316 | while the controller lives: stopped and disabled are kept and the rest end stopped, stopping or failed, with no signal to itself; otherwise Terminated, its last signal a SIGTERM to itself; only SIGTERMs are appended |
| ControllerSpec.StopFoldSnoc | intelmq/lib/controller.py:287-314 | one more bot in the list is one more stop step when the earlier ones left the controller alive, and nothing otherwise; a live controller has an answer for each bot visited |
| ControllerSpec.StopStepKeepsSignals | intelmq/lib/controller.py:289-304 | a disabled, stopped or unknown bot is never sent a signal |
| ControllerSpec.BotsStop | intelmq/lib/controller.py:280-316 | when the controller survives: one answer per bot, disabled exactly when disabled, a stopped bot stays stopped, and no signal went to the controller; otherwise Terminated with the controller exited after a SIGTERM to itself; only SIGTERMs are sent and nothing is spawned |
| ControllerSpec.ReloadStep | intelmq/lib/controller.py:365-374 | only a running bot is signalled: it becomes reloading, a refused signal is TypeError, and a SIGHUP to the controller's own pid ends the operation with Terminated and the controller exited |
| ControllerSpec.ReloadFold | intelmq/lib/controller.py:359-376 | reloading exactly for the running bots visited; only SIGHUPs appended; errors are TypeError or Terminated, and Terminated exactly when the last signal went to the controller itself |
| ControllerSpec.ReloadFoldSnoc | intelmq/lib/controller.py:363-375 | one more bot in the list is one more reload step unless an error came first; a live controller has an answer for each bot visited |
| ControllerSpec.ReloadErrorSticks | intelmq/lib/controller.py:359-376 | after the first error no further bot is visited |
| ControllerSpec.BotsReload | intelmq/lib/controller.py:359-376 | without a list it is TypeError; otherwise reloading exactly for the bots whose status was running, only SIGHUPs are sent, and the controller is alive unless the result is Terminated |
| ControllerSpec.Dedup | intelmq/lib/controller.py:318-335 | the same bots without repeats |
| ControllerSpec.StoppingBots | intelmq/lib/controller.py:318-335 | exactly the bots answered stopping |
| ControllerSpec.Poll | intelmq/lib/controller.py:328-333 | the wait sends no signal and spawns nothing; the controller's own process is not among those that exit while it sleeps |
| ControllerSpec.StoppingBotsKnown | intelmq/lib/controller.py:323-335 | every bot answered by the stop has an answer, and the bots waited for are configured |
| ControllerSpec.BotsRestart | intelmq/lib/controller.py:318-335 | a stop that terminates the controller is the restart's result; otherwise exactly the bots that stop answered stopping are started again, each answering running, starting or failed, and the controller is alive |
| ControllerSpec.RestartWaited | intelmq/lib/controller.py:323-333 | the machine the restart starts from, after the stop and the wait, has the controller alive |
| ControllerSpec.RestartList | intelmq/lib/controller.py:323-326 | the bots the restart starts again are configured and listed once each |
| ControllerSpec.RestartIsStartAfterWait | intelmq/lib/controller.py:318-335 | after a stop that leaves the controller alive, a restart is `bots_start` of the stopping bots on the machine after the wait |
| ControllerSpec.RestartRespawnsOnlyStartingBots | intelmq/lib/controller.py:318-335 | a bot is reported running exactly when the start's status query still sees it running, and every process the restart adds after the wait runs a bot answered starting |
| ControllerSpec.RestartSpawnsNothingForRunningBots | intelmq/lib/controller.py:318-335 | a bot still running after the wait gets no new process |
| ControllerSpec.StatusIsStable | intelmq/lib/controller.py:217-241 | asking a bot's status again at once gives the same answer |
| ControllerSpec.StalePidFileRemovesAnotherBotsFile | intelmq/lib/controller.py:580-641 | with bot "mail"'s PID file naming a dead pid 1234 and bot "1234" running, "1234" alone reads running, but listing "mail" first makes both read stopped |
| ControllerSpec.StaleFileMakesStopTerminateController | intelmq/lib/controller.py:280-316 | stopping ["1234", "mail"] with the PID file of "mail" naming the running bot 1234 sends SIGTERM to the controller's own pid and ends with Terminated |
| ControllerSpec.StaleStopReady | intelmq/lib/controller.py:280-316 | helper: the stale-file machine and its state after the status query are well-formed for the controller |
| ControllerSpec.FirstStopTerminates | intelmq/lib/controller.py:287-314 | when the first stop step terminates the controller, so does the whole stop loop, with the same machine |
| ControllerSpec.StatusBeforeStop | intelmq/lib/controller.py:285 | the status query before the stop reads "1234" running and "mail" stopped, and removes "1234.pid" |
| ControllerSpec.StopOrphanedBot | intelmq/lib/controller.py:306-309 | stopping "1234" once its PID file is gone finds no process and sends SIGTERM to the controller, which exits |
| ControllerSpec.StaleMailStatus | intelmq/lib/controller.py:580-641 | checking "mail" reads stopped and deletes the PID file "1234.pid", not its own |
| ControllerSpec.OrphanedBotStatus | intelmq/lib/controller.py:580-641 | bot "1234" reads running with its PID file and stopped once that file is gone |
| ControllerSpec.PidFileName1234 | intelmq/lib/controller.py:634-636 | helper for the stale-file lemmas: the file removed for pid 1234 is named "1234" |
| ControllerSpec.UnknownIsNeverReaped | intelmq/lib/controller.py:243-316 | for an unknown bot the finished check fails, so start and stop answer failed and nothing is spawned |
| ControllerSpec.UnknownBotFails | intelmq/lib/controller.py:243-316 | starting or stopping just an unknown bot answers failed and changes nothing |
| ControllerSpec.SingleFold | intelmq/lib/controller.py:217-241 | helper for the one-bot lemmas: the statuses of one bot are that bot's status |
| ControllerSpec.PairPrefixes | intelmq/lib/controller.py:287-314 | helper: the prefixes of a two-bot list |
| ControllerSpec.StartThenStatusRunning | intelmq/lib/controller.py:217-278 | a stopped bot whose module resolves answers starting and then reads running |
| ControllerSpec.LaunchedChildRuns | intelmq/lib/controller.py:217-278 | the child a launch spawns reads running right after |
| ControllerSpec.StopSignalsRunningBot | intelmq/lib/controller.py:280-316 | stopping a running bot sends one SIGTERM to its PID file's pid when permitted (stopping), and otherwise changes nothing (failed) |
| ControllerSpec.StopSignalsOnlyRunning | intelmq/lib/controller.py:280-316 | over distinct bots none of which runs, no signal is sent |
| ControllerSpec.StopNothingRunning | intelmq/lib/controller.py:280-316 | stopping distinct bots none of which reads running sends no signal |
| ControllerSpec.RepeatedUnknownBotIsSignalled | intelmq/lib/controller.py:280-316 | an unknown bot listed twice gets SIGTERM on its second visit and answers stopping |
| ControllerSpec.RestartStartsOnlyStoppingBots | intelmq/lib/controller.py:318-335 | a bot that was disabled or stopped is not started by a restart |
| Controller.IntelMQProcessManager.constructor | intelmq/lib/controller.py:78-105 | the controller holds the given configurations, which equal the files on disk |
| Controller.IntelMQProcessManager.BotEnabled | intelmq/lib/controller.py:653-654 | enabled unless the flag is explicitly false |
| Controller.IntelMQProcessManager.GetBotPid | intelmq/lib/controller.py:565-578 | the pid is `PidOf` of the machine; a pid other than -1 has a PID file |
| Controller.IntelMQProcessManager.GetBotProcess | intelmq/lib/controller.py:580-641 | the result and new machine state are `ControllerSpec.BotProcess` |
| Controller.IntelMQProcessManager.BotsStatus | intelmq/lib/controller.py:217-241 | the loop's statuses and machine are `ControllerSpec.StatusAll` |
| Controller.IntelMQProcessManager.StatusEach | intelmq/lib/controller.py:225-241 | the loop's statuses and machine are `ControllerSpec.StatusAll` of the list |
| Controller.IntelMQProcessManager.StatusOne | intelmq/lib/controller.py:227-239 | the answer and machine are `ControllerSpec.BotStatus` |
| Controller.IntelMQProcessManager.Launch | intelmq/lib/controller.py:265-276 | the result and new state are `ControllerSpec.Launch` |
| Controller.IntelMQProcessManager.BotsStart | intelmq/lib/controller.py:243-278 | the loop's answers and machine are `ControllerSpec.BotsStart` |
| Controller.IntelMQProcessManager.StartEach | intelmq/lib/controller.py:250-278 | the loop's answers and machine are `ControllerSpec.StartFold` |
| Controller.IntelMQProcessManager.StartOne | intelmq/lib/controller.py:252-276 | one bot's answer and machine are `ControllerSpec.StartStep` |
| Controller.IntelMQProcessManager.BotsStop | intelmq/lib/controller.py:280-316 | the loop's result and machine are `ControllerSpec.BotsStop`; the controller is valid exactly when the result is not an error |
| Controller.IntelMQProcessManager.StopEach | intelmq/lib/controller.py:287-316 | the loop's result and machine are `ControllerSpec.StopFold`, stopping once the controller has terminated itself |
| Controller.IntelMQProcessManager.StopOne | intelmq/lib/controller.py:288-314 | one bot's result and machine are `ControllerSpec.StopStep`; a SIGTERM to its own pid makes the controller exit |
| Controller.IntelMQProcessManager.BotsReload | intelmq/lib/controller.py:359-376 | the result and machine are `ControllerSpec.BotsReload`; the controller is valid exactly when the result is not Terminated |
| Controller.IntelMQProcessManager.ReloadEach | intelmq/lib/controller.py:363-376 | the loop's result and machine are `ControllerSpec.ReloadFold`, stopping at the first error |
| Controller.IntelMQProcessManager.ReloadOne | intelmq/lib/controller.py:365-374 | one bot's result and machine are `ControllerSpec.ReloadStep`; a SIGHUP to its own pid makes the controller exit |
| Controller.IntelMQProcessManager.BotsRestart | intelmq/lib/controller.py:318-335 | the result and machine are `ControllerSpec.BotsRestart`, with at most ten poll rounds; the controller is valid exactly when the result is not an error |
| Controller.IntelMQProcessManager.AwaitStopped | intelmq/lib/controller.py:328-333 | the machine after the wait is `ControllerSpec.Poll`: at most ten rounds, ending early once no waited-for bot runs |
| Controller.IntelMQProcessManager.GetQueues | intelmq/lib/controller.py:531-563 | the loop's list is `SelectQueues` of the pipeline |
| Controller.IntelMQProcessManager.CollectQueues | intelmq/lib/controller.py:545-561 | the loop collects `Inventory.QueueSet` of the pipeline |
| Controller.IntelMQProcessManager.QueuesOfEntry | intelmq/lib/controller.py:549-561 | one entry's queues are `Inventory.EntryQueues` |
| Controller.IntelMQProcessManager.QueuesClear | intelmq/lib/controller.py:478-514 | the result is `Inventory.QueuesClear` |
| Controller.IntelMQProcessManager.FindUnknown | intelmq/lib/controller.py:478-514 | the loop finds `FirstUnknown` |
| Controller.IntelMQProcessManager.ClearEach | intelmq/lib/controller.py:478-514 | the loop collects `ClearedQueues` |
| Controller.IntelMQProcessManager.EditRuntimeConfiguration | intelmq/lib/controller.py:110-122 | the edit is kept in memory; the file is written only when the edit changed something and the file is writable; an unwritable change raises AttributeError |
| Controller.IntelMQProcessManager.EditPipelineConfiguration | intelmq/lib/controller.py:128-140 | the same for the pipeline; an unwritable change raises PermissionError |

## Left out

- I/O is not modelled. That includes file contents other than a PID file's integer, the JSON
  writing, logging, psutil, the XML-RPC transport to supervisord (`_get_supervisor`), and
  the broker connections of `queues_clear`. The machine and the daemon are abstract state.
- Sleeping is not modelled as time. What happens during a sleep is a parameter of the
  operation.
- The supervisor's STARTING re-query loop runs only as long as its `later` list lasts. When
  the list runs out, the reply is "still polling"; the source would keep polling.
- `bot_run`, `bots_logs`, `queues_status`, `bots_queues`, `check()`, the logger set-up in the
  constructor and the `getstatus=False` variants are not part of this model. They concern
  logs, diagnostics or interactive runs, not the lifecycle of a bot.
- The command-line and service adapters (`intelmqctl`, the API views) are not part of this
  model.
- `__init__` of the managers creating the PID directory: the directory is taken to exist.
- The controller loading its configuration files at start: the loaded values are parameters.
- A PID file that holds something other than an integer reads as -1, like an absent one.
- psutil on a zombie sometimes reports an empty command line. A process's argv is fixed here.
- A spawned child's argv is always "<interpreter> <resolved path> <bot id>".
- The edit methods compare the old and new configuration for equality. The source compares
  `hash(str(...))`, which can in principle collide.
- A configuration written with sorted keys is read back in sorted order, so `bots_*` without a
  list visits the bots in sorted order (`SortedList`).
- Operations on a bot id absent from the runtime configuration are excluded by their
  preconditions. The source raises KeyError there.
- The controller's `_get_bot_process` reads `psutil.Process()` for its own process; this is a
  fixed pid, `selfPid`. Only a SIGTERM or SIGHUP that the controller sends to that pid ends
  it. Any other way the controller could die is not modelled.
- LegacySpec.CheckPid: a PID file holding -1 reads as no pid. The source returns -1, which
  `if pid:` takes as true, and `psutil.Process(-1)` then raises ValueError. Any other negative
  pid is reported as no process (False) where the source raises the same ValueError.
- ControllerSpec.BotProcess: a negative pid other than -1 is treated as a process that does not
  exist, so the file named after it is removed. In the source `psutil.Process` raises
  ValueError, which `_get_bot_process` does not catch.
- `_is_enabled` does not exist on the controller; it is modelled as the `enabled` flag.
- `abort` does not exist on the controller either. The supervisor manager's `_abort`
  (process_manager.py:661-662) forwards to it; the controller handed to that manager is taken to
  provide it, and the reply `Raised(Aborted)` stands for the call.
- LegacyBackend.IntelMQProcessManager.BotStart: requires pids to be issued in order, an
  invariant of the machine model rather than a demand of the source.
