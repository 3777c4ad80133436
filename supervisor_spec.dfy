/**
 * What the supervisor backend (`SupervisorProcessManager`) does, over an abstract daemon:
 * a table from process name to program definition, plus the log of the stop and signal
 * requests it has been sent.
 */
module SupervisorSpec {
  import opened Common
  import opened Config

  // `ProcessState`: the daemon's own process states.
  const STOPPED: int := 0
  const STARTING: int := 10
  const RUNNING: int := 20
  const BACKOFF: int := 30
  const STOPPING: int := 40
  const EXITED: int := 100
  const FATAL: int := 200
  const UNKNOWN: int := 1000

  /** The process group all bots are registered under. */
  const Group: string := "intelmq"

  /** `ProcessState.is_running`. */
  function IsRunning(state: int): (r: bool)
    ensures state in {STARTING, RUNNING, BACKOFF} ==> r
    ensures state in {STOPPED, STOPPING, EXITED, FATAL, UNKNOWN} ==> !r
  {
    state == STARTING || state == RUNNING || state == BACKOFF
  }

  /** `_process_name`: "intelmq:<bot id>". */
  function ProcessName(botId: string): (r: string)
    ensures |r| == |Group| + 1 + |botId| && r[..|Group| + 1] == Group + ":"
  {
    Group + ":" + botId
  }

  /** Two bots never share a program on the daemon. */
  lemma ProcessNameInjective(a: string, b: string)
    requires ProcessName(a) == ProcessName(b)
    ensures a == b
  {
    assert a == ProcessName(a)[|Group| + 1..];
    assert b == ProcessName(b)[|Group| + 1..];
  }

  /** One program definition on the daemon, with the state the daemon reports for it. */
  datatype Program = Program(command: string, stopsignal: string, state: int)

  type Programs = map<string, Program>

  /** Requests that make the daemon stop or signal a process. */
  datatype Rpc = StopProcess(name: string) | SignalProcess(name: string, signal: string)

  /** canSignal: the daemon knows `signalProcess` (supervisor 3.2.0 or later). */
  datatype Daemon = Daemon(programs: Programs, calls: seq<Rpc>, canSignal: bool)

  /** `_get_process_state`: the program's state, or None for the BAD_NAME fault. */
  function ProcessState(d: Programs, botId: string): (r: Option<int>)
    ensures r.Some? <==> ProcessName(botId) in d
  {
    var name := ProcessName(botId);
    if name in d then Some(d[name].state) else None
  }

  /**
   * What the daemon reports for a program on a later query: None once it is gone. It is
   * the daemon's own progress while the caller sleeps.
   */
  function Observe(d: Programs, name: string, seen: Option<int>): (r: Programs)
    requires name in d
    ensures name in r <==> seen.Some?
    ensures seen.Some? ==> r[name] == Program(d[name].command, d[name].stopsignal, seen.value)
    ensures forall n :: n != name ==> (n in r <==> n in d) && (n in d ==> r[n] == d[n])
  {
    if seen.None? then d - {name} else d[name := d[name].(state := seen.value)]
  }

  /** The answer for a present program that is not STARTING, or for an absent one. */
  function Reported(rt: Runtime, d: Programs, botId: string): (s: Status)
    requires botId in rt
    ensures s in {Disabled, Stopped, Running, Stopping}
    ensures s == Disabled <==> ProcessName(botId) !in d && !Enabled(rt[botId])
    ensures s == Running <==> ProcessState(d, botId) == Some(RUNNING)
    ensures s == Stopping <==> ProcessState(d, botId) == Some(STOPPING)
  {
    var name := ProcessName(botId);
    if name !in d then (if Enabled(rt[botId]) then Stopped else Disabled)
    else if d[name].state == RUNNING then Running
    else if d[name].state == STOPPING then Stopping
    else Stopped
  }

  /**
   * `bot_status`. A STARTING program is queried again; `later` lists what each re-query
   * sees, and when it runs out the source would still be polling.
   */
  function BotStatus(rt: Runtime, d: Programs, botId: string, later: seq<Option<int>>): (r: (Programs, Reply))
    requires botId in rt
    ensures r.1 in {Done(Disabled), Done(Stopped), Done(Running), Done(Stopping), StillPolling}
    ensures r.1 == StillPolling <==> ProcessName(botId) in r.0 && r.0[ProcessName(botId)].state == STARTING
    ensures r.1.Done? ==> r.1.status == Reported(rt, r.0, botId)
    ensures forall n :: n != ProcessName(botId) ==> (n in r.0 <==> n in d) && (n in d ==> r.0[n] == d[n])
    decreases |later|
  {
    var name := ProcessName(botId);
    if name in d && d[name].state == STARTING then
      if |later| == 0 then (d, StillPolling)
      else BotStatus(rt, Observe(d, name, later[0]), botId, later[1..])
    else (d, Done(Reported(rt, d, botId)))
  }

  /** `_remove_bot`: removeProcessFromGroup. */
  function RemoveBot(d: Programs, botId: string): (r: Programs)
    ensures ProcessState(r, botId).None?
    ensures forall n :: n != ProcessName(botId) ==> (n in r <==> n in d) && (n in d ==> r[n] == d[n])
  {
    d - {ProcessName(botId)}
  }

  /** `_create_and_start_bot`: the daemon gives the new program `initial` as its state. */
  function CreateBot(rt: Runtime, d: Programs, botId: string, initial: int): (r: Programs)
    requires botId in rt
    ensures ProcessState(r, botId) == Some(initial)
    ensures r[ProcessName(botId)].command == rt[botId].botModule + " " + botId
    ensures r[ProcessName(botId)].stopsignal == "INT"
    ensures forall n :: n != ProcessName(botId) ==> (n in r <==> n in d) && (n in d ==> r[n] == d[n])
  {
    d[ProcessName(botId) := Program(rt[botId].botModule + " " + botId, "INT", initial)]
  }

  /**
   * `bot_start`. A STARTING or BACKOFF program is not removed, so the daemon refuses to add it
   * again and the fault propagates.
   */
  function BotStart(rt: Runtime, sup: Daemon, botId: string, initial: int, later: seq<Option<int>>): (r: (Daemon, Reply))
    requires botId in rt
    ensures r.1 in {Done(Running), Done(Stopped), Done(Stopping), Done(Disabled), Raised(AlreadyAdded), StillPolling}
    ensures r.1 == Raised(AlreadyAdded) <==> ProcessState(sup.programs, botId) in {Some(STARTING), Some(BACKOFF)}
    ensures r.0.calls == sup.calls && r.0.canSignal == sup.canSignal
  {
    var state := ProcessState(sup.programs, botId);
    if state == Some(RUNNING) then (sup, Done(Running))
    else
      var d1 := if state.Some? && !IsRunning(state.value) then RemoveBot(sup.programs, botId) else sup.programs;
      if ProcessName(botId) in d1 then (sup.(programs := d1), Raised(AlreadyAdded))
      else
        var (d2, reply) := BotStatus(rt, CreateBot(rt, d1, botId, initial), botId, later);
        (sup.(programs := d2), reply)
  }

  /** `bot_stop`: stopProcess, then remove the program, then report. */
  function BotStop(rt: Runtime, sup: Daemon, botId: string): (r: (Daemon, Reply))
    requires botId in rt
    ensures r.1 in {Done(Stopped), Done(Disabled)}
    ensures ProcessState(r.0.programs, botId).None?
    ensures r.0.canSignal == sup.canSignal
  {
    var state := ProcessState(sup.programs, botId);
    if state.None? then (sup, Done(if Enabled(rt[botId]) then Stopped else Disabled))
    else if !IsRunning(state.value) then (sup.(programs := RemoveBot(sup.programs, botId)), Done(Stopped))
    else
      var calls := sup.calls + [StopProcess(ProcessName(botId))];
      var (d, reply) := BotStatus(rt, RemoveBot(sup.programs, botId), botId, []);
      (sup.(programs := d, calls := calls), reply)
  }

  /** `bot_reload`: SIGHUP through signalProcess; an old daemon without it aborts everything. */
  function BotReload(rt: Runtime, sup: Daemon, botId: string, later: seq<Option<int>>): (r: (Daemon, Reply))
    requires botId in rt
    ensures r.1 in {Done(Running), Done(Stopped), Done(Stopping), Done(Disabled), Raised(Aborted), StillPolling}
    ensures r.1 == Raised(Aborted) ==> !sup.canSignal && r.0.programs == sup.programs
    ensures r.0.canSignal == sup.canSignal
  {
    var state := ProcessState(sup.programs, botId);
    if state.None? then (sup, Done(if Enabled(rt[botId]) then Stopped else Disabled))
    else if !IsRunning(state.value) then (sup.(programs := RemoveBot(sup.programs, botId)), Done(Stopped))
    else
      var sup1 := sup.(calls := sup.calls + [SignalProcess(ProcessName(botId), "HUP")]);
      if !sup.canSignal then (sup1, Raised(Aborted))
      else
        var (d, reply) := BotStatus(rt, sup.programs, botId, later);
        (sup1.(programs := d), reply)
  }

  // ---------------------------------------------------------------------------------
  // Properties of the supervisor backend

  /** How a daemon state that is not STARTING is reported; BACKOFF counts as running yet reads `stopped`. */
  lemma StatusOfSettledState(rt: Runtime, d: Programs, botId: string, later: seq<Option<int>>)
    requires botId in rt
    requires ProcessName(botId) in d && d[ProcessName(botId)].state != STARTING
    ensures var s := d[ProcessName(botId)].state;
      BotStatus(rt, d, botId, later) == (d, Done(
        if s == RUNNING then Running else if s == STOPPING then Stopping else Stopped))
    ensures IsRunning(BACKOFF) && !IsRunning(STOPPED) && !IsRunning(STOPPING) && !IsRunning(EXITED)
  {
  }

  lemma StatusOfAbsentProgram(rt: Runtime, d: Programs, botId: string, later: seq<Option<int>>)
    requires botId in rt && ProcessName(botId) !in d
    ensures BotStatus(rt, d, botId, later) == (d, Done(if Enabled(rt[botId]) then Stopped else Disabled))
  {
  }

  /** Starting a RUNNING program changes nothing. */
  lemma StartWhenRunning(rt: Runtime, sup: Daemon, botId: string, initial: int, later: seq<Option<int>>)
    requires botId in rt
    requires ProcessState(sup.programs, botId) == Some(RUNNING)
    ensures BotStart(rt, sup, botId, initial, later) == (sup, Done(Running))
  {
  }

  /**
   * Starting an absent or non-running program (re)registers "intelmq:<bot id>" with command
   * "<module> <bot id>" and stop signal INT; no other program and no stop or signal request
   * is touched.
   */
  lemma {:induction false} StartRegisters(rt: Runtime, sup: Daemon, botId: string, initial: int, later: seq<Option<int>>)
    requires botId in rt
    requires var st := ProcessState(sup.programs, botId); st.None? || !IsRunning(st.value)
    ensures var (sup', reply) := BotStart(rt, sup, botId, initial, later);
      && sup'.calls == sup.calls && sup'.canSignal == sup.canSignal
      && (forall n :: n != ProcessName(botId) ==>
            (n in sup'.programs <==> n in sup.programs) && (n in sup.programs ==> sup'.programs[n] == sup.programs[n]))
      && (ProcessName(botId) in sup'.programs ==>
            sup'.programs[ProcessName(botId)].command == rt[botId].botModule + " " + botId
            && sup'.programs[ProcessName(botId)].stopsignal == "INT")
      && (initial != STARTING ==> ProcessName(botId) in sup'.programs && reply == Done(Reported(rt, sup'.programs, botId)))
  {
    var st := ProcessState(sup.programs, botId);
    var d1 := if st.Some? then RemoveBot(sup.programs, botId) else sup.programs;
    assert ProcessName(botId) !in d1;
    ProgramKeepsDefinition(rt, CreateBot(rt, d1, botId, initial), botId, later, rt[botId].botModule + " " + botId, "INT");
  }

  /** Re-queries change a program's state, never its command or stop signal. */
  lemma {:induction false} ProgramKeepsDefinition(rt: Runtime, d: Programs, botId: string, later: seq<Option<int>>,
                                                  command: string, stopsignal: string)
    requires botId in rt
    requires ProcessName(botId) in d
    requires d[ProcessName(botId)].command == command && d[ProcessName(botId)].stopsignal == stopsignal
    ensures var d' := BotStatus(rt, d, botId, later).0;
      ProcessName(botId) in d' ==> d'[ProcessName(botId)].command == command && d'[ProcessName(botId)].stopsignal == stopsignal
    decreases |later|
  {
    var name := ProcessName(botId);
    if d[name].state == STARTING && |later| > 0 && later[0].Some? {
      ProgramKeepsDefinition(rt, Observe(d, name, later[0]), botId, later[1..], command, stopsignal);
    }
  }

  /** A STARTING or BACKOFF program is neither removed nor replaced: the add is refused. */
  lemma StartWhileStartingRaises(rt: Runtime, sup: Daemon, botId: string, initial: int, later: seq<Option<int>>)
    requires botId in rt
    requires ProcessState(sup.programs, botId) in {Some(STARTING), Some(BACKOFF)}
    ensures BotStart(rt, sup, botId, initial, later) == (sup, Raised(AlreadyAdded))
  {
  }

  /** stopProcess and signalProcess are only ever requested for a running program. */
  lemma StopAndReloadSignalOnlyRunning(rt: Runtime, sup: Daemon, botId: string, later: seq<Option<int>>)
    requires botId in rt
    ensures var st := ProcessState(sup.programs, botId);
      var stopped := BotStop(rt, sup, botId).0;
      var reloaded := BotReload(rt, sup, botId, later).0;
      && (st.None? || !IsRunning(st.value) ==> stopped.calls == sup.calls && reloaded.calls == sup.calls)
      && (st.Some? && IsRunning(st.value) ==>
            stopped.calls == sup.calls + [StopProcess(ProcessName(botId))]
            && reloaded.calls == sup.calls + [SignalProcess(ProcessName(botId), "HUP")])
  {
  }

  /** Stopping: an absent program reports by the enabled flag; a present one is always removed. */
  lemma StopOutcomes(rt: Runtime, sup: Daemon, botId: string)
    requires botId in rt
    ensures var (sup', reply) := BotStop(rt, sup, botId);
      && ProcessName(botId) !in sup'.programs
      && reply == Done(if ProcessState(sup.programs, botId).None? && !Enabled(rt[botId]) then Disabled
                       else if ProcessState(sup.programs, botId).Some? && IsRunning(ProcessState(sup.programs, botId).value)
                               && !Enabled(rt[botId]) then Disabled
                       else Stopped)
      && (forall n :: n != ProcessName(botId) ==>
            (n in sup'.programs <==> n in sup.programs) && (n in sup.programs ==> sup'.programs[n] == sup.programs[n]))
  {
  }

  /** Reload on a daemon without signalProcess aborts; a non-running program is removed instead. */
  lemma ReloadOutcomes(rt: Runtime, sup: Daemon, botId: string, later: seq<Option<int>>)
    requires botId in rt
    ensures var st := ProcessState(sup.programs, botId);
      var (sup', reply) := BotReload(rt, sup, botId, later);
      && (st.Some? && !IsRunning(st.value) ==> reply == Done(Stopped) && ProcessName(botId) !in sup'.programs)
      && (st.Some? && IsRunning(st.value) && !sup.canSignal ==> reply == Raised(Aborted) && sup'.programs == sup.programs)
      && (st.Some? && IsRunning(st.value) && sup.canSignal ==> reply.Done? || reply == StillPolling)
  {
  }
}
