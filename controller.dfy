/**
 * The controller (`IntelMQProcessManager` of the controller module): the runtime and
 * pipeline configurations, in memory and on disk, and the fleet operations over the
 * machine. Every loop is proved against a prefix of the matching fold of ControllerSpec;
 * `get_queues` and `queues_clear` against Inventory.
 */
module Controller {
  import opened Common
  import opened Strings
  import opened Config
  import opened Host
  import opened Identity
  import opened Inventory
  import ControllerSpec

  class IntelMQProcessManager {
    const machine: Machine
    /** The controller's own pid: what `psutil.Process()` and `os.getpid()` give. */
    const selfPid: int
    var runtime: Runtime
    var pipeline: Pipeline
    /** The configuration files as last written. */
    var runtimeFile: Runtime
    var pipelineFile: Pipeline

    constructor (machine: Machine, selfPid: int, runtime: Runtime, pipeline: Pipeline)
      ensures this.machine == machine && this.selfPid == selfPid
      ensures this.runtime == runtime && this.pipeline == pipeline
      ensures runtimeFile == runtime && pipelineFile == pipeline
    {
      this.machine := machine;
      this.selfPid := selfPid;
      this.runtime := runtime;
      this.pipeline := pipeline;
      this.runtimeFile := runtime;
      this.pipelineFile := pipeline;
    }

    ghost predicate Valid()
      reads this, machine
    {
      ControllerSpec.Sane(machine.State(), selfPid)
    }

    /** `_bot_enabled`. */
    function BotEnabled(botId: string): (r: bool)
      reads this
      requires botId in runtime
      ensures r <==> runtime[botId].enabled != Some(false)
    {
      Enabled(runtime[botId])
    }

    /** `_get_bot_pid`. */
    method GetBotPid(botId: string) returns (pid: int)
      ensures pid == PidOf(machine.State(), botId)
      ensures pid != -1 ==> botId in machine.pidFiles
    {
      pid := if botId in machine.pidFiles then machine.pidFiles[botId] else -1;
    }

    /** `_get_bot_process`: a pid, `selfPid` standing for "no bot process". */
    method GetBotProcess(botId: string) returns (pid: int)
      requires botId in runtime
      modifies machine
      ensures (machine.State(), pid) == ControllerSpec.BotProcess(runtime, selfPid, old(machine.State()), botId)
    {
      pid := GetBotPid(botId);
      if pid == -1 {
        return selfPid;
      }
      var botModule := runtime[botId].botModule;
      if botModule !in machine.which {
        return selfPid;
      }
      var modulePath := machine.which[botModule];
      var ctlPath := CtlPath(machine.State());
      if pid !in machine.procs {
        machine.RemovePidfile(IntToString(pid));
        return selfPid;
      }
      var p := machine.procs[pid];
      if !p.inspectable {
        return selfPid;
      }
      if p.terminal {
        var finished := machine.ProcessFinished(pid);
        if finished {
          machine.RemovePidfile(botId);
          return selfPid;
        }
      }
      if !ArgvAccepted(p.argv, modulePath, ctlPath, botId) {
        pid := selfPid;
      }
    }

    /** The status `bots_status` records for one bot. */
    method StatusOne(botId: string) returns (status: Status)
      requires botId in runtime
      modifies machine
      ensures (machine.State(), status) == ControllerSpec.BotStatus(runtime, selfPid, old(machine.State()), botId)
    {
      if !BotEnabled(botId) {
        return Disabled;
      }
      var pid := GetBotProcess(botId);
      if pid == selfPid {
        status := Stopped;
      } else if machine.procs[pid].terminal {
        status := Unknown;
      } else {
        status := Running;
      }
    }

    /** `bots_status`. */
    method BotsStatus(bots: Option<seq<string>>) returns (status: map<string, Status>)
      requires ControllerSpec.Known(runtime, ControllerSpec.Selected(runtime, bots))
      modifies machine
      ensures (machine.State(), status) ==
        ControllerSpec.StatusAll(runtime, selfPid, old(machine.State()), ControllerSpec.Selected(runtime, bots))
    {
      status := StatusEach(ControllerSpec.Selected(runtime, bots));
    }

    /** The loop of `bots_status` over `list`. */
    method StatusEach(list: seq<string>) returns (status: map<string, Status>)
      requires ControllerSpec.Known(runtime, list)
      modifies machine
      ensures (machine.State(), status) == ControllerSpec.StatusAll(runtime, selfPid, old(machine.State()), list)
    {
      status := map[];
      for i := 0 to |list|
        invariant (machine.State(), status) == ControllerSpec.StatusAll(runtime, selfPid, old(machine.State()), list[..i])
      {
        ControllerSpec.StatusAllSnoc(runtime, selfPid, old(machine.State()), list, i);
        var s := StatusOne(list[i]);
        status := status[list[i] := s];
      }
      assert list[..|list|] == list;
    }

    /** The launch half of `bots_start`: spawn the module and record the child's pid. */
    method Launch(botId: string) returns (status: Status)
      requires botId in runtime && Valid()
      modifies machine
      ensures (machine.State(), status) == ControllerSpec.Launch(runtime, old(machine.State()), botId)
      ensures Valid()
    {
      var child := machine.Spawn(runtime[botId].botModule, botId);
      if child.None? {
        return Failed;
      }
      machine.CreatePidfile(botId, child.value);
      return Starting;
    }

    /** One iteration of `bots_start`'s loop: act on one bot given the statuses so far. */
    method StartOne(botId: string, m: map<string, Status>) returns (m': map<string, Status>)
      requires botId in runtime && botId in m && Valid()
      modifies machine
      ensures (machine.State(), m') == ControllerSpec.StartStep(runtime, selfPid, old(machine.State()), m, botId)
      ensures Valid()
    {
      var s := m[botId];
      if s == Disabled || s == Running {
        return m;
      } else if s == Unknown {
        var pid := GetBotProcess(botId);
        var finished := machine.ProcessFinished(pid);
        if finished {
          // _get_bot_process has already reaped whatever can be reaped
          assert false;
        }
        return m[botId := Failed];
      }
      var st := Launch(botId);
      return m[botId := st];
    }

    /** The loop of `bots_start` over `list`, from the statuses `m0`. */
    method StartEach(list: seq<string>, m0: map<string, Status>) returns (status: map<string, Status>)
      requires ControllerSpec.Known(runtime, list) && (forall b :: b in list ==> b in m0) && Valid()
      modifies machine
      ensures (machine.State(), status) == ControllerSpec.StartFold(runtime, selfPid, old(machine.State()), m0, list)
      ensures Valid()
    {
      status := m0;
      for i := 0 to |list|
        invariant (machine.State(), status) == ControllerSpec.StartFold(runtime, selfPid, old(machine.State()), m0, list[..i])
        invariant Valid()
      {
        ControllerSpec.StartFoldSnoc(runtime, selfPid, old(machine.State()), m0, list, i);
        status := StartOne(list[i], status);
      }
      assert list[..|list|] == list;
    }

    /** `bots_start`. */
    method BotsStart(bots: Option<seq<string>>) returns (status: map<string, Status>)
      requires ControllerSpec.Known(runtime, ControllerSpec.Selected(runtime, bots)) && Valid()
      modifies machine
      ensures (machine.State(), status) ==
        ControllerSpec.BotsStart(runtime, selfPid, old(machine.State()), ControllerSpec.Selected(runtime, bots))
      ensures Valid()
    {
      var list := ControllerSpec.Selected(runtime, bots);
      status := BotsStatus(bots);
      status := StartEach(list, status);
    }

    /**
     * One iteration of `bots_stop`'s loop. Terminating the controller's own process, which
     * `_get_bot_process` hands back when it finds no bot process, ends the controller.
     */
    method StopOne(botId: string, m: map<string, Status>) returns (r: Result<map<string, Status>>)
      requires botId in runtime && botId in m && Valid()
      modifies machine
      ensures (machine.State(), r) == ControllerSpec.StopStep(runtime, selfPid, old(machine.State()), m, botId)
      ensures r.Ok? <==> Valid()
    {
      var s := m[botId];
      if s == Disabled || s == Stopped {
        return Ok(m);
      }
      var pid := GetBotProcess(botId);
      if s == Unknown {
        var finished := machine.ProcessFinished(pid);
        return Ok(m[botId := if finished then Stopped else Failed]);
      }
      var delivered := machine.SendSignal(pid, SigTerm);
      if !delivered {
        return Ok(m[botId := Failed]);
      }
      if pid == selfPid {
        machine.ExitProcess(selfPid);
        return Err(Terminated);
      }
      return Ok(m[botId := Stopping]);
    }

    /** The loop of `bots_stop` over `list`, from the statuses `m0`; it ends with the controller. */
    method StopEach(list: seq<string>, m0: map<string, Status>) returns (result: Result<map<string, Status>>)
      requires ControllerSpec.Known(runtime, list) && (forall b :: b in list ==> b in m0) && Valid()
      modifies machine
      ensures (machine.State(), result) == ControllerSpec.StopFold(runtime, selfPid, old(machine.State()), m0, list)
      ensures result.Ok? <==> Valid()
    {
      var status := m0;
      for i := 0 to |list|
        invariant (machine.State(), Ok(status)) == ControllerSpec.StopFold(runtime, selfPid, old(machine.State()), m0, list[..i])
        invariant Valid()
      {
        ControllerSpec.StopFoldSnoc(runtime, selfPid, old(machine.State()), m0, list, i);
        var r := StopOne(list[i], status);
        if r.Err? {
          ControllerSpec.StopTerminationSticks(runtime, selfPid, old(machine.State()), m0, list, i + 1);
          return r;
        }
        status := r.value;
      }
      assert list[..|list|] == list;
      return Ok(status);
    }

    /** `bots_stop`. */
    method BotsStop(bots: Option<seq<string>>) returns (result: Result<map<string, Status>>)
      requires ControllerSpec.Known(runtime, ControllerSpec.Selected(runtime, bots)) && Valid()
      modifies machine
      ensures (machine.State(), result) ==
        ControllerSpec.BotsStop(runtime, selfPid, old(machine.State()), ControllerSpec.Selected(runtime, bots))
      ensures result.Ok? <==> Valid()
    {
      var list := ControllerSpec.Selected(runtime, bots);
      var status := BotsStatus(bots);
      result := StopEach(list, status);
    }

    /** One iteration of `bots_reload`'s loop; a refused SIGHUP is a TypeError, one to the controller ends it. */
    method ReloadOne(botId: string, m: map<string, Status>) returns (r: Result<map<string, Status>>)
      requires botId in runtime && botId in m && Valid()
      modifies machine
      ensures (machine.State(), r) == ControllerSpec.ReloadStep(runtime, selfPid, old(machine.State()), m, botId)
      ensures r != Err(Terminated) <==> Valid()
    {
      if m[botId] != Running {
        return Ok(m);
      }
      var pid := GetBotProcess(botId);
      var delivered := machine.SendSignal(pid, SigHup);
      if !delivered {
        return Err(TypeError);
      }
      if pid == selfPid {
        machine.ExitProcess(selfPid);
        return Err(Terminated);
      }
      return Ok(m[botId := Reloading]);
    }

    /** The loop of `bots_reload` over `list`, from the statuses `m0`; it stops at the first error. */
    method ReloadEach(list: seq<string>, m0: map<string, Status>) returns (result: Result<map<string, Status>>)
      requires ControllerSpec.Known(runtime, list) && (forall b :: b in list ==> b in m0) && Valid()
      modifies machine
      ensures (machine.State(), result) == ControllerSpec.ReloadFold(runtime, selfPid, old(machine.State()), m0, list)
      ensures result != Err(Terminated) <==> Valid()
    {
      var status := m0;
      for i := 0 to |list|
        invariant (machine.State(), Ok(status)) == ControllerSpec.ReloadFold(runtime, selfPid, old(machine.State()), m0, list[..i])
        invariant Valid()
      {
        ControllerSpec.ReloadFoldSnoc(runtime, selfPid, old(machine.State()), m0, list, i);
        var r := ReloadOne(list[i], status);
        if r.Err? {
          ControllerSpec.ReloadErrorSticks(runtime, selfPid, old(machine.State()), m0, list, i + 1);
          return r;
        }
        status := r.value;
      }
      assert list[..|list|] == list;
      return Ok(status);
    }

    /** `bots_reload`. */
    method BotsReload(bots: Option<seq<string>>) returns (result: Result<map<string, Status>>)
      requires ControllerSpec.Known(runtime, ControllerSpec.Selected(runtime, bots)) && Valid()
      modifies machine
      ensures (machine.State(), result) == ControllerSpec.BotsReload(runtime, selfPid, old(machine.State()), bots)
      ensures result != Err(Terminated) <==> Valid()
    {
      var status := BotsStatus(bots);
      if bots.None? {
        return Err(TypeError);
      }
      result := ReloadEach(bots.value, status);
    }

    /** The wait of `bots_restart`: poll the stopping bots until none runs, ten rounds at most. */
    method AwaitStopped(stopping: seq<string>, gone: seq<set<int>>)
      requires ControllerSpec.Known(runtime, stopping) && Valid()
      modifies machine
      ensures machine.State() == ControllerSpec.Poll(runtime, selfPid, old(machine.State()), stopping, gone, 0)
      ensures Valid()
    {
      for round := 0 to ControllerSpec.PollRounds
        invariant ControllerSpec.Poll(runtime, selfPid, old(machine.State()), stopping, gone, 0)
               == ControllerSpec.Poll(runtime, selfPid, machine.State(), stopping, gone, round)
        invariant Valid()
      {
        var polled := BotsStatus(Some(stopping));
        if Running !in polled.Values {
          return;
        }
        machine.Sleep(ControllerSpec.GoneAt(gone, round) - {selfPid});
      }
    }

    /** `bots_restart`; `gone` says which processes exit during each half-second sleep. */
    method BotsRestart(bots: Option<seq<string>>, gone: seq<set<int>>) returns (result: Result<map<string, Status>>)
      requires ControllerSpec.Known(runtime, ControllerSpec.Selected(runtime, bots)) && Valid()
      modifies machine
      ensures (machine.State(), result) ==
        ControllerSpec.BotsRestart(runtime, selfPid, old(machine.State()), ControllerSpec.Selected(runtime, bots), gone)
      ensures result.Ok? <==> Valid()
    {
      var list := ControllerSpec.Selected(runtime, bots);
      ControllerSpec.StoppingBotsKnown(runtime, selfPid, machine.State(), list);
      var stopped := BotsStop(Some(list));
      if stopped.Err? {
        return stopped;
      }
      var stopping := ControllerSpec.StoppingBots(ControllerSpec.Dedup(list), stopped.value);
      AwaitStopped(stopping, gone);
      var status := BotsStart(Some(stopping));
      return Ok(status);
    }

    /** The queues one pipeline entry contributes to `get_queues`. */
    static method QueuesOfEntry(entry: PipeEntry, kind: QueueKind, internal: bool) returns (found: set<string>)
      ensures found == EntryQueues(entry, kind, internal)
    {
      found := {};
      if entry.source.Some? {
        if kind == SourceQueues || kind == AllQueues {
          found := found + {entry.source.value};
        }
        if internal {
          found := found + {entry.source.value + "-internal"};
        }
      }
      if entry.destinations.Some? && (kind == DestinationQueues || kind == AllQueues) {
        found := found + FlattenQueues(entry.destinations.value);
      }
    }

    /** The loop of `get_queues` over the pipeline's entries. */
    method CollectQueues(kind: QueueKind, internal: bool) returns (found: set<string>)
      ensures found == QueueSet(pipeline, kind, internal)
    {
      var rest := pipeline.Keys;
      found := {};
      while rest != {}
        invariant rest <= pipeline.Keys
        invariant forall q :: q in found <==>
          exists b :: b in pipeline && b !in rest && q in EntryQueues(pipeline[b], kind, internal)
        decreases |rest|
      {
        var botId :| botId in rest;
        var entry := QueuesOfEntry(pipeline[botId], kind, internal);
        found := found + entry;
        rest := rest - {botId};
      }
    }

    /** `get_queues`. */
    method GetQueues(selector: Option<string>, includeInternal: bool) returns (queues: seq<string>)
      ensures queues == SelectQueues(pipeline, selector, includeInternal)
      decreases if selector.Some? then 1 else 0
    {
      if selector.None? {
        var found := CollectQueues(AllQueues, includeInternal);
        return SortedList(found);
      }
      var kind := KindOf(selector.value);
      if kind.None? {
        var all := GetQueues(None, true);
        return if selector.value in all then [selector.value] else [];
      }
      var internal := includeInternal;
      if selector.value == "internal" {
        internal := true;
      }
      var found := CollectQueues(kind.value, internal);
      queues := SortedList(found);
    }

    /**
     * `queues_clear`; `failing` names the queues whose clearing the broker refuses, which are
     * silently left out of the reply.
     */
    method QueuesClear(queues: Option<seq<string>>, failing: set<string>) returns (result: Result<seq<string>>)
      ensures result == Inventory.QueuesClear(pipeline, queues, failing)
    {
      var all := GetQueues(None, true);
      if queues.Some? {
        var unknown := FindUnknown(queues.value, all);
        if unknown.Some? {
          return Err(UnknownQueue(unknown.value));
        }
      }
      var cleared := ClearEach(if queues.Some? then queues.value else all, failing);
      return Ok(cleared);
    }

    /** The check of `queues_clear` that every requested name is a known queue. */
    static method FindUnknown(queues: seq<string>, known: seq<string>) returns (unknown: Option<string>)
      ensures unknown == FirstUnknown(queues, known)
    {
      for i := 0 to |queues|
        invariant forall j :: 0 <= j < i ==> queues[j] in known
      {
        if queues[i] !in known {
          return Some(queues[i]);
        }
      }
      return None;
    }

    /** The clearing loop of `queues_clear`. */
    static method ClearEach(queues: seq<string>, failing: set<string>) returns (cleared: seq<string>)
      ensures cleared == ClearedQueues(queues, failing)
    {
      cleared := [];
      for i := 0 to |queues|
        invariant cleared == ClearedQueues(queues[..i], failing)
      {
        ClearedQueuesAppend(queues[..i], queues[i], failing);
        assert queues[..i + 1] == queues[..i] + [queues[i]];
        if queues[i] !in failing {
          cleared := cleared + [queues[i]];
        }
      }
      assert queues[..|queues|] == queues;
    }

    /** `edit_runtime_configuration`: the caller edits in memory; a change is written back. */
    method EditRuntimeConfiguration(edited: Runtime, writable: bool) returns (error: Option<Error>)
      modifies this
      ensures runtime == edited && pipeline == old(pipeline) && pipelineFile == old(pipelineFile)
      ensures runtimeFile == (if edited != old(runtime) && writable then edited else old(runtimeFile))
      ensures error == (if edited != old(runtime) && !writable then Some(AttributeError) else None)
    {
      var original := runtime;
      runtime := edited;
      error := None;
      if runtime != original {
        if writable {
          runtimeFile := runtime;
        } else {
          error := Some(AttributeError);
        }
      }
    }

    /** `edit_pipeline_configuration`: as above, but a refused write escapes as PermissionError. */
    method EditPipelineConfiguration(edited: Pipeline, writable: bool) returns (error: Option<Error>)
      modifies this
      ensures pipeline == edited && runtime == old(runtime) && runtimeFile == old(runtimeFile)
      ensures pipelineFile == (if edited != old(pipeline) && writable then edited else old(pipelineFile))
      ensures error == (if edited != old(pipeline) && !writable then Some(PermissionDenied) else None)
    {
      var original := pipeline;
      pipeline := edited;
      error := None;
      if pipeline != original {
        if writable {
          pipelineFile := pipeline;
        } else {
          error := Some(PermissionDenied);
        }
      }
    }
  }
}
