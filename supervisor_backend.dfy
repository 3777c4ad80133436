/**
 * The supervisor backend (`SupervisorProcessManager`) as a class over the daemon's program
 * table and the log of stop and signal requests; every method is proved to agree with
 * SupervisorSpec.
 */
module SupervisorBackend {
  import opened Common
  import opened Config
  import SupervisorSpec

  class SupervisorProcessManager {
    /** The daemon's programs, keyed by process name. */
    var programs: SupervisorSpec.Programs
    /** stopProcess and signalProcess requests sent so far. */
    var calls: seq<SupervisorSpec.Rpc>
    /** Whether the daemon offers signalProcess. */
    var canSignal: bool
    const runtime: Runtime

    constructor (runtime: Runtime, programs: SupervisorSpec.Programs, canSignal: bool)
      ensures this.runtime == runtime && this.programs == programs && this.canSignal == canSignal && calls == []
    {
      this.runtime := runtime;
      this.programs := programs;
      this.canSignal := canSignal;
      this.calls := [];
    }

    function Daemon(): SupervisorSpec.Daemon
      reads this
    {
      SupervisorSpec.Daemon(programs, calls, canSignal)
    }

    /** `_get_process_state`. */
    method GetProcessState(botId: string) returns (state: Option<int>)
      ensures state == SupervisorSpec.ProcessState(programs, botId)
    {
      var name := SupervisorSpec.ProcessName(botId);
      state := if name in programs then Some(programs[name].state) else None;
    }

    /** `_create_and_start_bot`. */
    method CreateAndStartBot(botId: string, initial: int)
      requires botId in runtime
      modifies this
      ensures programs == SupervisorSpec.CreateBot(runtime, old(programs), botId, initial)
      ensures calls == old(calls) && canSignal == old(canSignal)
    {
      var command := runtime[botId].botModule + " " + botId;
      programs := programs[SupervisorSpec.ProcessName(botId) := SupervisorSpec.Program(command, "INT", initial)];
    }

    /** `_remove_bot`. */
    method RemoveBot(botId: string)
      modifies this
      ensures programs == SupervisorSpec.RemoveBot(old(programs), botId)
      ensures calls == old(calls) && canSignal == old(canSignal)
    {
      programs := programs - {SupervisorSpec.ProcessName(botId)};
    }

    /** `bot_status`: re-queries a STARTING program once per entry of `later`. */
    method BotStatus(botId: string, later: seq<Option<int>>) returns (reply: Reply)
      requires botId in runtime
      modifies this
      ensures (programs, reply) == SupervisorSpec.BotStatus(runtime, old(programs), botId, later)
      ensures calls == old(calls) && canSignal == old(canSignal)
      decreases |later|
    {
      var state := GetProcessState(botId);
      if state.None? {
        return Done(if Enabled(runtime[botId]) then Stopped else Disabled);
      }
      if state.value == SupervisorSpec.STARTING {
        if |later| == 0 {
          return StillPolling;
        }
        programs := SupervisorSpec.Observe(programs, SupervisorSpec.ProcessName(botId), later[0]);
        reply := BotStatus(botId, later[1..]);
        return;
      }
      if state.value == SupervisorSpec.RUNNING {
        return Done(Running);
      } else if state.value == SupervisorSpec.STOPPING {
        return Done(Stopping);
      }
      return Done(Stopped);
    }

    /** `bot_start`. */
    method BotStart(botId: string, initial: int, later: seq<Option<int>>) returns (reply: Reply)
      requires botId in runtime
      modifies this
      ensures (Daemon(), reply) == SupervisorSpec.BotStart(runtime, old(Daemon()), botId, initial, later)
    {
      var state := GetProcessState(botId);
      if state.Some? {
        if state.value == SupervisorSpec.RUNNING {
          return Done(Running);
        } else if !SupervisorSpec.IsRunning(state.value) {
          RemoveBot(botId);
        }
      }
      if SupervisorSpec.ProcessName(botId) in programs {
        return Raised(AlreadyAdded);
      }
      CreateAndStartBot(botId, initial);
      reply := BotStatus(botId, later);
    }

    /** `bot_stop`. */
    method BotStop(botId: string) returns (reply: Reply)
      requires botId in runtime
      modifies this
      ensures (Daemon(), reply) == SupervisorSpec.BotStop(runtime, old(Daemon()), botId)
    {
      var state := GetProcessState(botId);
      if state.None? {
        return Done(if Enabled(runtime[botId]) then Stopped else Disabled);
      }
      if !SupervisorSpec.IsRunning(state.value) {
        RemoveBot(botId);
        return Done(Stopped);
      }
      calls := calls + [SupervisorSpec.StopProcess(SupervisorSpec.ProcessName(botId))];
      RemoveBot(botId);
      reply := BotStatus(botId, []);
    }

    /** `bot_reload`. */
    method BotReload(botId: string, later: seq<Option<int>>) returns (reply: Reply)
      requires botId in runtime
      modifies this
      ensures (Daemon(), reply) == SupervisorSpec.BotReload(runtime, old(Daemon()), botId, later)
    {
      var state := GetProcessState(botId);
      if state.None? {
        return Done(if Enabled(runtime[botId]) then Stopped else Disabled);
      }
      if !SupervisorSpec.IsRunning(state.value) {
        RemoveBot(botId);
        return Done(Stopped);
      }
      calls := calls + [SupervisorSpec.SignalProcess(SupervisorSpec.ProcessName(botId), "HUP")];
      if !canSignal {
        return Raised(Aborted);
      }
      reply := BotStatus(botId, later);
    }
  }
}
