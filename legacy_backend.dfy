/**
 * The legacy PID-file backend (`IntelMQProcessManager` of the process manager module) as a
 * class over the machine; every method is proved to agree with LegacySpec.
 */
module LegacyBackend {
  import opened Common
  import opened Config
  import opened Host
  import opened Identity
  import LegacySpec

  class IntelMQProcessManager {
    const machine: Machine
    const runtime: Runtime

    constructor (machine: Machine, runtime: Runtime)
      ensures this.machine == machine && this.runtime == runtime
    {
      this.machine := machine;
      this.runtime := runtime;
    }

    /** `__check_pid`. */
    method CheckPid(botId: string) returns (pid: Option<int>)
      ensures pid == LegacySpec.CheckPid(machine.State(), botId)
    {
      pid := None;
      if botId in machine.pidFiles && machine.pidFiles[botId] != -1 {
        pid := Some(machine.pidFiles[botId]);
      }
    }

    /** `__status_process`. */
    method StatusProcess(pid: int, botModule: string, botId: string) returns (status: LegacySpec.Observed)
      ensures status == LegacySpec.StatusProcess(machine.State(), pid, botModule, botId)
    {
      if pid !in machine.procs {
        return LegacySpec.No;
      }
      var p := machine.procs[pid];
      if !p.inspectable {
        return LegacySpec.Problem;
      }
      match InterpretCommandline(pid, p.argv, botModule, botId)
      case Match(same) =>
        status := if same then LegacySpec.Yes else LegacySpec.No;
      case _ =>
        status := LegacySpec.Problem;
    }

    /** `bot_status` without a child process. */
    method BotStatus(botId: string) returns (status: Status)
      requires botId in runtime
      modifies machine
      ensures (machine.State(), status) == LegacySpec.BotStatus(runtime, old(machine.State()), botId)
    {
      var pid := CheckPid(botId);
      var observed := LegacySpec.No;
      if LegacySpec.HasPid(pid) {
        observed := StatusProcess(pid.value, runtime[botId].botModule, botId);
      }
      if observed == LegacySpec.Yes {
        return Running;
      } else if observed == LegacySpec.Problem {
        return Unknown;
      }
      if Enabled(runtime[botId]) {
        if LegacySpec.HasPid(pid) {
          machine.RemovePidfile(botId);
        }
        return Stopped;
      }
      return Disabled;
    }

    /** `bot_start`; `exits` says whether the child exits during the sleep before its status is read. */
    method BotStart(botId: string, exits: bool) returns (outcome: LegacySpec.Outcome)
      requires botId in runtime && machine.Valid()
      modifies machine
      ensures (machine.State(), outcome) == LegacySpec.BotStart(runtime, old(machine.State()), botId, exits)
    {
      var pid := CheckPid(botId);
      if LegacySpec.HasPid(pid) {
        var observed := StatusProcess(pid.value, runtime[botId].botModule, botId);
        if observed == LegacySpec.Yes {
          return LegacySpec.Said(Running);
        } else if observed == LegacySpec.No {
          machine.RemovePidfile(botId);
        } else {
          return LegacySpec.Code(1);
        }
      }
      var child := machine.Spawn(runtime[botId].botModule, botId);
      if child.None? {
        return LegacySpec.Said(Stopped);
      }
      machine.CreatePidfile(botId, child.value);
      if exits {
        machine.ExitProcess(child.value);
      }
      if !machine.procs[child.value].terminal {
        return LegacySpec.Said(Running);
      }
      return LegacySpec.Said(LegacySpec.Idle(runtime, botId));
    }

    /** `bot_stop`; each entry of `polls` is one round of the wait and what vanishes in its sleep. */
    method BotStop(botId: string, polls: seq<set<int>>) returns (outcome: LegacySpec.Outcome)
      requires botId in runtime
      modifies machine
      ensures (machine.State(), outcome) == LegacySpec.BotStop(runtime, old(machine.State()), botId, polls)
    {
      var pid := CheckPid(botId);
      if !LegacySpec.HasPid(pid) {
        return LegacySpec.Said(LegacySpec.Idle(runtime, botId));
      }
      var botModule := runtime[botId].botModule;
      var status := StatusProcess(pid.value, botModule, botId);
      if status == LegacySpec.No {
        machine.RemovePidfile(botId);
        return LegacySpec.Said(Stopped);
      } else if status == LegacySpec.Problem {
        return LegacySpec.Said(Unknown);
      }
      var delivered := machine.SendSignal(pid.value, SigTerm);
      if !delivered {
        return LegacySpec.Said(Running);
      }
      ghost var os1 := machine.State();
      var i := 0;
      while status == LegacySpec.Yes && i < |polls|
        invariant 0 <= i <= |polls|
        invariant LegacySpec.Drain(os1, pid.value, botModule, botId, LegacySpec.Yes, polls)
               == LegacySpec.Drain(machine.State(), pid.value, botModule, botId, status, polls[i..])
        decreases |polls| - i
      {
        assert polls[i..][1..] == polls[i + 1..];
        status := StatusProcess(pid.value, botModule, botId);
        machine.Sleep(polls[i]);
        i := i + 1;
      }
      if status == LegacySpec.Yes {
        return LegacySpec.Said(Running);
      } else if status == LegacySpec.Problem {
        return LegacySpec.Said(Unknown);
      }
      machine.RemovePidfile(botId);
      return LegacySpec.Said(Stopped);
    }

    /** `bot_reload`; `gone` vanish during the half-second sleep. */
    method BotReload(botId: string, gone: set<int>) returns (outcome: LegacySpec.Outcome)
      requires botId in runtime
      modifies machine
      ensures (machine.State(), outcome) == LegacySpec.BotReload(runtime, old(machine.State()), botId, gone)
    {
      var pid := CheckPid(botId);
      if !LegacySpec.HasPid(pid) {
        return LegacySpec.Said(LegacySpec.Idle(runtime, botId));
      }
      var botModule := runtime[botId].botModule;
      var status := StatusProcess(pid.value, botModule, botId);
      if status == LegacySpec.No {
        machine.RemovePidfile(botId);
        return LegacySpec.Said(Stopped);
      } else if status == LegacySpec.Problem {
        return LegacySpec.Said(Unknown);
      }
      var delivered := machine.SendSignal(pid.value, SigHup);
      if !delivered {
        return LegacySpec.Said(Running);
      }
      machine.Sleep(gone);
      status := StatusProcess(pid.value, botModule, botId);
      if status == LegacySpec.Yes {
        return LegacySpec.Said(Running);
      } else if status == LegacySpec.No {
        return LegacySpec.Said(Stopped);
      }
      return LegacySpec.Said(Unknown);
    }
  }
}
