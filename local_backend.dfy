/**
 * The local backend (`IntelMQProcessManagerNG`): PID files plus the OS process table. Its
 * methods act on the machine step by step and are proved to agree with LocalSpec.
 */
module LocalBackend {
  import opened Common
  import opened Config
  import opened Host
  import opened Identity
  import LocalSpec

  class ProcessManagerNG {
    const machine: Machine
    /** The controller's runtime configuration, read through `self.controller`. */
    var runtime: Runtime

    constructor (machine: Machine, runtime: Runtime)
      ensures this.machine == machine && this.runtime == runtime
    {
      this.machine := machine;
      this.runtime := runtime;
    }

    /** `_bot_enabled`. */
    function BotEnabled(botId: string): (r: bool)
      reads this
      requires botId in runtime
      ensures r <==> runtime[botId].enabled != Some(false)
    {
      Enabled(runtime[botId])
    }

    /** `_get_bot_pid`. */
    method GetBotPid(botId: string) returns (pid: int)
      ensures pid == PidOf(machine.State(), botId)
    {
      pid := if botId in machine.pidFiles then machine.pidFiles[botId] else -1;
    }

    /** `_get_bot_process`. */
    method GetBotProcess(botId: string) returns (process: Option<int>)
      requires botId in runtime
      modifies machine
      ensures (machine.State(), process) == LocalSpec.BotProcess(runtime, old(machine.State()), botId)
    {
      var pid := GetBotPid(botId);
      if pid == -1 {
        return None;
      }
      if pid !in machine.procs {
        machine.RemovePidfile(botId);
        return None;
      }
      var botModule := runtime[botId].botModule;
      if botModule !in machine.which {
        return None;
      }
      var modulePath := machine.which[botModule];
      var ctlPath := if "intelmqctl" in machine.which then Some(machine.which["intelmqctl"]) else None;
      var p := machine.procs[pid];
      if !p.inspectable {
        return None;
      }
      if ArgvIsBot(p.argv, modulePath, ctlPath, botId) {
        if p.terminal {
          var finished := machine.ProcessFinished(pid);
          if finished {
            machine.RemovePidfile(botId);
            return None;
          }
        }
        return Some(pid);
      }
      machine.RemovePidfile(botId);
      return None;
    }

    /** `bot_status`. */
    method BotStatus(botId: string) returns (status: Status)
      requires botId in runtime
      modifies machine
      ensures (machine.State(), status) == LocalSpec.BotStatus(runtime, old(machine.State()), botId)
    {
      var process := GetBotProcess(botId);
      if process.Some? {
        status := if machine.procs[process.value].terminal then Unknown else Running;
      } else {
        status := if BotEnabled(botId) then Stopped else Disabled;
      }
    }

    method Launch(botId: string) returns (reply: Reply)
      requires botId in runtime && machine.Valid()
      modifies machine
      ensures machine.Valid()
      ensures (machine.State(), reply) == LocalSpec.Launch(old(machine.State()), runtime[botId].botModule, botId)
    {
      var child := machine.Spawn(runtime[botId].botModule, botId);
      if child.None? {
        return Done(Failed);
      }
      machine.CreatePidfile(botId, child.value);
      return Done(Starting);
    }

    /** `bot_start`. */
    method BotStart(botId: string) returns (reply: Reply)
      requires botId in runtime && machine.Valid()
      modifies machine
      ensures machine.Valid()
      ensures (machine.State(), reply) == LocalSpec.BotStart(runtime, old(machine.State()), botId)
    {
      var status := BotStatus(botId);
      if status == Disabled || status == Running {
        return Done(status);
      }
      if status == Unknown {
        var process := GetBotProcess(botId);
        if process.None? {
          return Raised(AttributeError);
        }
        var finished := machine.ProcessFinished(process.value);
        if !finished {
          return Done(Failed);
        }
      }
      reply := Launch(botId);
    }

    /** `bot_stop`. */
    method BotStop(botId: string) returns (reply: Reply)
      requires botId in runtime
      modifies machine
      ensures (machine.State(), reply) == LocalSpec.BotStop(runtime, old(machine.State()), botId)
    {
      var status := BotStatus(botId);
      if status == Disabled || status == Stopped {
        return Done(status);
      }
      var process := GetBotProcess(botId);
      if process.None? {
        return Raised(AttributeError);
      }
      if status == Unknown {
        var finished := machine.ProcessFinished(process.value);
        return Done(if finished then Stopped else Failed);
      }
      var delivered := machine.SendSignal(process.value, SigTerm);
      return Done(if delivered then Stopping else Failed);
    }

    /** `bot_reload`. */
    method BotReload(botId: string) returns (reply: Reply)
      requires botId in runtime
      modifies machine
      ensures (machine.State(), reply) == LocalSpec.BotReload(runtime, old(machine.State()), botId)
    {
      var status := BotStatus(botId);
      if status != Running {
        return Done(status);
      }
      var process := GetBotProcess(botId);
      if process.None? {
        return Raised(AttributeError);
      }
      var delivered := machine.SendSignal(process.value, SigHup);
      return if delivered then Done(Reloading) else Raised(TypeError);
    }
  }
}
