/**
 * What the local backend (`IntelMQProcessManagerNG`) does, as functions from the machine
 * state to the new machine state and a reply, and the properties those functions have.
 */
module LocalSpec {
  import opened Common
  import opened Config
  import opened Host
  import opened Identity

  /** `_get_bot_process`: the bot's live process, or None; cleans up stale PID files. */
  function BotProcess(rt: Runtime, os: Os, botId: string): (r: (Os, Option<int>))
    requires botId in rt
    ensures PidOf(os, botId) == -1 ==> r == (os, None)
    ensures PidOf(os, botId) in os.procs && rt[botId].botModule !in os.which ==> r == (os, None)
    ensures r.1.Some? ==>
      && r.0 == os
      && r.1.value == PidOf(os, botId) && r.1.value in os.procs
      && ArgvIsBot(os.procs[r.1.value].argv, os.which[rt[botId].botModule], CtlPath(os), botId)
      && !Finishes(os.procs[r.1.value])
    ensures r.0 == os || r.0.pidFiles == os.pidFiles - {botId}
    ensures r.0.procs.Keys <= os.procs.Keys
    ensures r.0.signals == os.signals && r.0.nextPid == os.nextPid && r.0.which == os.which
  {
    var pid := PidOf(os, botId);
    if pid == -1 then (os, None)
    else if pid !in os.procs then (RemovePidFile(os, botId), None)
    else if rt[botId].botModule !in os.which then (os, None)
    else
      var p := os.procs[pid];
      if !p.inspectable then (os, None)
      else if !ArgvIsBot(p.argv, os.which[rt[botId].botModule], CtlPath(os), botId) then
        (RemovePidFile(os, botId), None)
      else if !p.terminal then (os, Some(pid))
      else
        var (os1, finished) := Finish(os, pid);
        if finished then (RemovePidFile(os1, botId), None) else (os, Some(pid))
  }

  /** A live, inspectable process that passes the argv check and has not finished is found, and nothing changes. */
  lemma BotProcessFindsLiveBot(rt: Runtime, os: Os, botId: string)
    requires botId in rt
    requires var pid := PidOf(os, botId);
      pid != -1 && pid in os.procs && rt[botId].botModule in os.which
      && os.procs[pid].inspectable && !Finishes(os.procs[pid])
      && ArgvIsBot(os.procs[pid].argv, os.which[rt[botId].botModule], CtlPath(os), botId)
    ensures BotProcess(rt, os, botId) == (os, Some(PidOf(os, botId)))
  {
  }

  /** `bot_status`: looks at the process first and at the enabled flag only when there is none. */
  function BotStatus(rt: Runtime, os: Os, botId: string): (r: (Os, Status))
    requires botId in rt
    ensures r.0 == BotProcess(rt, os, botId).0
    ensures r.1 in {Running, Unknown, Stopped, Disabled}
  {
    var (os1, p) := BotProcess(rt, os, botId);
    if p.Some? then (os1, if os1.procs[p.value].terminal then Unknown else Running)
    else (os1, if Enabled(rt[botId]) then Stopped else Disabled)
  }

  /** Spawns `[module, bot_id]` and records the child's pid in the bot's PID file. */
  function Launch(os: Os, botModule: string, botId: string): (r: (Os, Reply))
    ensures r.1 in {Done(Starting), Done(Failed)}
    ensures r.1 == Done(Starting) <==> botModule in os.which
    ensures r.1 == Done(Starting) ==> PidOf(r.0, botId) == os.nextPid && os.nextPid in r.0.procs
    ensures r.1 == Done(Failed) ==> r.0 == os
    ensures r.0.signals == os.signals
  {
    var (os1, child) := Popen(os, botModule, botId);
    if child.None? then (os1, Done(Failed))
    else (WritePidFile(os1, botId, child.value), Done(Starting))
  }

  /** `bot_start`. */
  function BotStart(rt: Runtime, os: Os, botId: string): (r: (Os, Reply))
    requires botId in rt
    ensures r.0.signals == os.signals
    ensures r.0.nextPid != os.nextPid ==> r.1 == Done(Starting)
  {
    var botModule := rt[botId].botModule;
    var (os1, status) := BotStatus(rt, os, botId);
    if status == Disabled || status == Running then (os1, Done(status))
    else if status == Unknown then
      var (os2, p) := BotProcess(rt, os1, botId);
      if p.None? then (os2, Raised(AttributeError))
      else
        var (os3, finished) := Finish(os2, p.value);
        if !finished then (os3, Done(Failed)) else Launch(os3, botModule, botId)
    else Launch(os1, botModule, botId)
  }

  /** `bot_stop`. */
  function BotStop(rt: Runtime, os: Os, botId: string): (r: (Os, Reply))
    requires botId in rt
    ensures r.0.nextPid == os.nextPid && r.0.which == os.which
    ensures r.0.signals == os.signals || r.0.signals == os.signals + [Signal(SigTerm, PidOf(os, botId))]
    ensures r.0.signals != os.signals ==> r.1 == Done(Stopping)
  {
    var (os1, status) := BotStatus(rt, os, botId);
    if status == Disabled || status == Stopped then (os1, Done(status))
    else
      var (os2, p) := BotProcess(rt, os1, botId);
      if p.None? then (os2, Raised(AttributeError))
      else if status == Unknown then
        var (os3, finished) := Finish(os2, p.value);
        (os3, Done(if finished then Stopped else Failed))
      else
        var (os3, delivered) := Kill(os2, p.value, SigTerm);
        (os3, Done(if delivered then Stopping else Failed))
  }

  /** `bot_reload`; its AccessDenied handler calls the logger object and raises TypeError. */
  function BotReload(rt: Runtime, os: Os, botId: string): (r: (Os, Reply))
    requires botId in rt
    ensures r.0.nextPid == os.nextPid && r.0.which == os.which
    ensures r.0.signals == os.signals || r.0.signals == os.signals + [Signal(SigHup, PidOf(os, botId))]
    ensures r.0.signals != os.signals <==> r.1 == Done(Reloading)
  {
    var (os1, status) := BotStatus(rt, os, botId);
    if status != Running then (os1, Done(status))
    else
      var (os2, p) := BotProcess(rt, os1, botId);
      if p.None? then (os2, Raised(AttributeError))
      else
        var (os3, delivered) := Kill(os2, p.value, SigHup);
        (os3, if delivered then Done(Reloading) else Raised(TypeError))
  }

  // ---------------------------------------------------------------------------------
  // Properties of the local backend

  /** Status reports `disabled` only when no process is found and the bot is disabled. */
  lemma StatusDisabledIff(rt: Runtime, os: Os, botId: string)
    requires botId in rt
    ensures BotStatus(rt, os, botId).1 == Disabled <==>
      BotProcess(rt, os, botId).1.None? && !Enabled(rt[botId])
    ensures BotStatus(rt, os, botId).1 in {Running, Unknown} <==> BotProcess(rt, os, botId).1.Some?
  {
  }

  /** Unlike the controller, a disabled bot whose process runs is reported as running. */
  lemma DisabledBotCanBeRunning()
    ensures
      var rt := map["mail-1" := BotConfig("mail-bot", Some(false), None)];
      var os := Os(map["mail-1" := 42],
                   map[42 := Proc(["python3", "/usr/bin/mail-bot", "mail-1"], false, false, true, true)],
                   [], 43, map["mail-bot" := "/usr/bin/mail-bot"]);
      BotStatus(rt, os, "mail-1").1 == Running
  {
    var rt := map["mail-1" := BotConfig("mail-bot", Some(false), None)];
    var os := Os(map["mail-1" := 42],
                 map[42 := Proc(["python3", "/usr/bin/mail-bot", "mail-1"], false, false, true, true)],
                 [], 43, map["mail-bot" := "/usr/bin/mail-bot"]);
    assert ArgvIsBot(os.procs[42].argv, "/usr/bin/mail-bot", CtlPath(os), "mail-1");
  }

  /** A found process is found again, unchanged: looking twice decides the same. */
  lemma BotProcessStable(rt: Runtime, os: Os, botId: string)
    requires botId in rt
    requires BotProcess(rt, os, botId).1.Some?
    ensures BotProcess(rt, BotProcess(rt, os, botId).0, botId) == BotProcess(rt, os, botId)
  {
  }

  /** PID-file clean-up: which observations remove the file and which keep it. */
  lemma BotProcessCleanup(rt: Runtime, os: Os, botId: string)
    requires botId in rt && PidOf(os, botId) != -1
    ensures var pid := PidOf(os, botId);
      && (pid !in os.procs ==> BotProcess(rt, os, botId) == (RemovePidFile(os, botId), None))
      && (pid in os.procs && rt[botId].botModule in os.which && os.procs[pid].inspectable &&
          !ArgvIsBot(os.procs[pid].argv, os.which[rt[botId].botModule], CtlPath(os), botId)
          ==> BotProcess(rt, os, botId) == (RemovePidFile(os, botId), None))
      && (pid in os.procs && rt[botId].botModule in os.which && os.procs[pid].inspectable &&
          ArgvIsBot(os.procs[pid].argv, os.which[rt[botId].botModule], CtlPath(os), botId) &&
          Finishes(os.procs[pid])
          ==> BotProcess(rt, os, botId).1.None? && botId !in BotProcess(rt, os, botId).0.pidFiles
              && pid !in BotProcess(rt, os, botId).0.procs)
      && (pid in os.procs && !os.procs[pid].inspectable ==> BotProcess(rt, os, botId) == (os, None))
  {
  }

  /** `bot_start` answers with `disabled`, `running`, `starting` or `failed`, and never raises. */
  lemma StartOutcomes(rt: Runtime, os: Os, botId: string)
    requires botId in rt
    ensures BotStart(rt, os, botId).1 in {Done(Disabled), Done(Running), Done(Starting), Done(Failed)}
  {
    var (os1, status) := BotStatus(rt, os, botId);
    if status == Unknown {
      BotProcessStable(rt, os, botId);
    }
  }

  /** A running or disabled bot is left alone: nothing is spawned and the status is returned. */
  lemma StartIdleWhenRunningOrDisabled(rt: Runtime, os: Os, botId: string)
    requires botId in rt
    requires BotStatus(rt, os, botId).1 in {Running, Disabled}
    ensures BotStart(rt, os, botId) == (BotStatus(rt, os, botId).0, Done(BotStatus(rt, os, botId).1))
    ensures BotStart(rt, os, botId).0.nextPid == os.nextPid
  {
  }

  /** An `unknown` bot (a terminated process that cannot be reaped) fails to start. */
  lemma StartUnknownFails(rt: Runtime, os: Os, botId: string)
    requires botId in rt
    requires BotStatus(rt, os, botId).1 == Unknown
    ensures BotStart(rt, os, botId) == (os, Done(Failed))
  {
    BotProcessStable(rt, os, botId);
  }

  /** Only a stopped bot is spawned; the child runs the resolved script and its pid is recorded. */
  lemma StartSpawnsOnlyStopped(rt: Runtime, os: Os, botId: string)
    requires botId in rt
    ensures var (os', reply) := BotStart(rt, os, botId);
      && (os'.nextPid != os.nextPid ==> BotStatus(rt, os, botId).1 == Stopped)
      && (reply == Done(Starting) <==> BotStatus(rt, os, botId).1 == Stopped && rt[botId].botModule in os.which)
      && (reply == Done(Starting) ==>
            && os'.nextPid == os.nextPid + 1
            && PidOf(os', botId) == os.nextPid
            && os'.procs[os.nextPid].argv == SpawnArgv(os.which[rt[botId].botModule], botId))
  {
    var (os1, status) := BotStatus(rt, os, botId);
    if status == Unknown {
      StartUnknownFails(rt, os, botId);
    }
  }

  /** Round trip: right after a successful start the bot's status is `running`. */
  lemma StartThenStatusRunning(rt: Runtime, os: Os, botId: string)
    requires botId in rt && PidsIssued(os)
    requires BotStart(rt, os, botId).1 == Done(Starting)
    ensures BotStatus(rt, BotStart(rt, os, botId).0, botId).1 == Running
  {
    StartSpawnsOnlyStopped(rt, os, botId);
    var os' := BotStart(rt, os, botId).0;
    var pid := os.nextPid;
    var m := rt[botId].botModule;
    assert ArgvIsBot(os'.procs[pid].argv, os'.which[m], CtlPath(os'), botId);
  }

  /** `bot_stop` answers with `disabled`, `stopped`, `stopping` or `failed`, and never raises. */
  lemma StopOutcomes(rt: Runtime, os: Os, botId: string)
    requires botId in rt
    ensures BotStop(rt, os, botId).1 in {Done(Disabled), Done(Stopped), Done(Stopping), Done(Failed)}
  {
    var (os1, status) := BotStatus(rt, os, botId);
    if status in {Unknown, Running} {
      BotProcessStable(rt, os, botId);
    }
  }

  /** SIGTERM goes out only to a bot found running, and only to its own process. */
  lemma StopSignalsOnlyRunning(rt: Runtime, os: Os, botId: string)
    requires botId in rt
    ensures var os' := BotStop(rt, os, botId).0;
      && (BotStatus(rt, os, botId).1 != Running ==> os'.signals == os.signals)
      && (os'.signals == os.signals || os'.signals == os.signals + [Signal(SigTerm, PidOf(os, botId))])
  {
    var (os1, status) := BotStatus(rt, os, botId);
    if status in {Unknown, Running} {
      BotProcessStable(rt, os, botId);
    }
  }

  /** Round trip: stopping a freshly started bot signals exactly that child. */
  lemma StartThenStop(rt: Runtime, os: Os, botId: string)
    requires botId in rt && PidsIssued(os)
    requires BotStart(rt, os, botId).1 == Done(Starting)
    ensures var os1 := BotStart(rt, os, botId).0;
      BotStop(rt, os1, botId) == (os1.(signals := os1.signals + [Signal(SigTerm, os.nextPid)]), Done(Stopping))
  {
    StartSpawnsOnlyStopped(rt, os, botId);
    StartThenStatusRunning(rt, os, botId);
    var os1 := BotStart(rt, os, botId).0;
    BotProcessStable(rt, os1, botId);
  }

  /** `bot_reload` signals SIGHUP only to a running bot and returns any other status unchanged. */
  lemma ReloadOnlyRunning(rt: Runtime, os: Os, botId: string)
    requires botId in rt
    ensures var (os1, status) := BotStatus(rt, os, botId);
      var (os', reply) := BotReload(rt, os, botId);
      && (status != Running ==> os' == os1 && reply == Done(status))
      && (status == Running ==>
            && reply in {Done(Reloading), Raised(TypeError)}
            && (reply == Done(Reloading) <==> os' == os1.(signals := os1.signals + [Signal(SigHup, PidOf(os, botId))])))
  {
    var (os1, status) := BotStatus(rt, os, botId);
    if status == Running {
      BotProcessStable(rt, os, botId);
    }
  }
}
