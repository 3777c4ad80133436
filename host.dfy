/**
 * The operating system as the process managers see it: PID files, the process table,
 * the signals delivered so far, the next pid the kernel hands out, and what `which`
 * resolves on PATH.
 */
module Host {
  import opened Common

  /**
   * What psutil reports about one live pid.
   * terminal: its status is stopped, dead or zombie.
   * reapable: a non-blocking `wait(timeout=0)` on it completes.
   * inspectable: `cmdline()` does not raise AccessDenied.
   * signalable: `terminate()` and `send_signal()` do not raise AccessDenied.
   */
  datatype Proc = Proc(argv: seq<string>, terminal: bool, reapable: bool, inspectable: bool, signalable: bool)

  datatype Sig = SigTerm | SigHup

  datatype Signal = Signal(sig: Sig, pid: int)

  /**
   * pidFiles maps a PID file's name (the part before ".pid") to its parsed content;
   * a file whose content is not an integer is recorded as -1.
   */
  datatype Os = Os(
    pidFiles: map<string, int>,
    procs: map<int, Proc>,
    signals: seq<Signal>,
    nextPid: int,
    which: map<string, string>)

  /** The interpreter a bot's entry script runs under: the child's argv[0]. */
  const Interpreter: string := "/usr/bin/python3"

  /** `shutil.which("intelmqctl")`. */
  function CtlPath(os: Os): Option<string> {
    if "intelmqctl" in os.which then Some(os.which["intelmqctl"]) else None
  }

  /** nextPid is positive, and every pid in the table was handed out before nextPid. */
  predicate PidsIssued(os: Os) {
    os.nextPid > 0 && forall p :: p in os.procs ==> p < os.nextPid
  }

  /** A non-blocking wait on a process completes only once it has terminated. */
  predicate Finishes(p: Proc) {
    p.terminal && p.reapable
  }

  /** `_get_bot_pid`: the content of the PID file, or -1 when it is absent or corrupt. */
  function PidOf(os: Os, name: string): (pid: int)
    ensures name !in os.pidFiles ==> pid == -1
    ensures name in os.pidFiles ==> pid == os.pidFiles[name]
  {
    if name in os.pidFiles then os.pidFiles[name] else -1
  }

  /** `_remove_pidfile`: deletes the file if it exists; nothing else changes. */
  function RemovePidFile(os: Os, name: string): (r: Os)
    ensures name !in r.pidFiles
    ensures forall n :: n != name ==> (n in r.pidFiles <==> n in os.pidFiles)
    ensures forall n :: n in r.pidFiles ==> r.pidFiles[n] == os.pidFiles[n]
    ensures r.procs == os.procs && r.signals == os.signals && r.nextPid == os.nextPid && r.which == os.which
  {
    os.(pidFiles := os.pidFiles - {name})
  }

  lemma RemovePidFileIdempotent(os: Os, name: string)
    ensures RemovePidFile(RemovePidFile(os, name), name) == RemovePidFile(os, name)
  {
    assert RemovePidFile(RemovePidFile(os, name), name).pidFiles == RemovePidFile(os, name).pidFiles;
  }

  /** `_create_pidfile`: (over)writes the file with the pid. */
  function WritePidFile(os: Os, name: string, pid: int): (r: Os)
    ensures PidOf(r, name) == pid
    ensures forall n :: n != name ==> PidOf(r, n) == PidOf(os, n)
  {
    os.(pidFiles := os.pidFiles[name := pid])
  }

  /** `_process_finished`: `wait(timeout=0)`; a process that finishes is reaped from the table. */
  function Finish(os: Os, pid: int): (r: (Os, bool))
    ensures r.1 <==> pid in os.procs && Finishes(os.procs[pid])
    ensures r.1 ==> r.0 == os.(procs := os.procs - {pid})
    ensures !r.1 ==> r.0 == os
  {
    if pid in os.procs && Finishes(os.procs[pid]) then (os.(procs := os.procs - {pid}), true)
    else (os, false)
  }

  function SpawnArgv(path: string, botId: string): seq<string> {
    [Interpreter, path, botId]
  }

  /**
   * `psutil.Popen([module, bot_id])`: FileNotFoundError when the module does not resolve
   * on PATH, otherwise a fresh child that runs the resolved script with the bot id.
   */
  function Popen(os: Os, program: string, botId: string): (r: (Os, Option<int>))
    ensures program !in os.which <==> r.1.None?
    ensures r.1.None? ==> r.0 == os
    ensures r.1.Some? ==>
      && r.1.value == os.nextPid
      && r.0 == os.(procs := os.procs[os.nextPid := Proc(SpawnArgv(os.which[program], botId), false, false, true, true)],
                    nextPid := os.nextPid + 1)
  {
    if program !in os.which then (os, None)
    else
      var pid := os.nextPid;
      var child := Proc(SpawnArgv(os.which[program], botId), false, false, true, true);
      (os.(procs := os.procs[pid := child], nextPid := pid + 1), Some(pid))
  }

  lemma PopenKeepsPidsIssued(os: Os, program: string, botId: string)
    requires PidsIssued(os)
    ensures PidsIssued(Popen(os, program, botId).0)
    ensures Popen(os, program, botId).1.Some? ==> Popen(os, program, botId).1.value !in os.procs
  {
  }

  /** `terminate()` / `send_signal(SIGHUP)`: AccessDenied delivers nothing. */
  function Kill(os: Os, pid: int, sig: Sig): (r: (Os, bool))
    requires pid in os.procs
    ensures r.1 <==> os.procs[pid].signalable
    ensures r.1 ==> r.0 == os.(signals := os.signals + [Signal(sig, pid)])
    ensures !r.1 ==> r.0 == os
  {
    if os.procs[pid].signalable then (os.(signals := os.signals + [Signal(sig, pid)]), true)
    else (os, false)
  }

  /** Processes that exit and are reaped elsewhere while the caller sleeps. */
  function Vanish(os: Os, pids: set<int>): (r: Os)
    ensures r.procs.Keys == os.procs.Keys - pids
    ensures forall p :: p in r.procs ==> r.procs[p] == os.procs[p]
    ensures r.pidFiles == os.pidFiles && r.signals == os.signals && r.nextPid == os.nextPid && r.which == os.which
  {
    os.(procs := os.procs - pids)
  }

  /** A child of the caller exits: it stays in the table as a zombie until it is reaped. */
  function Exit(os: Os, pid: int): (r: Os)
    ensures r.procs.Keys == os.procs.Keys
    ensures pid in os.procs ==> r.procs[pid] == os.procs[pid].(terminal := true)
    ensures forall p :: p in os.procs && p != pid ==> r.procs[p] == os.procs[p]
    ensures r.pidFiles == os.pidFiles && r.signals == os.signals && r.nextPid == os.nextPid && r.which == os.which
  {
    if pid in os.procs then os.(procs := os.procs[pid := os.procs[pid].(terminal := true)]) else os
  }

  /** The machine itself; both process managers act on it through these primitives. */
  class Machine {
    var pidFiles: map<string, int>
    var procs: map<int, Proc>
    var signals: seq<Signal>
    var nextPid: int
    var which: map<string, string>

    function State(): Os
      reads this
    {
      Os(pidFiles, procs, signals, nextPid, which)
    }

    ghost predicate Valid()
      reads this
    {
      PidsIssued(State())
    }

    method RemovePidfile(name: string)
      modifies this
      ensures State() == RemovePidFile(old(State()), name)
    {
      pidFiles := pidFiles - {name};
    }

    method CreatePidfile(name: string, pid: int)
      modifies this
      ensures State() == WritePidFile(old(State()), name, pid)
    {
      pidFiles := pidFiles[name := pid];
    }

    method ProcessFinished(pid: int) returns (finished: bool)
      modifies this
      ensures (State(), finished) == Finish(old(State()), pid)
    {
      finished := pid in procs && Finishes(procs[pid]);
      if finished {
        procs := procs - {pid};
      }
    }

    method Spawn(program: string, botId: string) returns (pid: Option<int>)
      requires Valid()
      modifies this
      ensures Valid()
      ensures (State(), pid) == Popen(old(State()), program, botId)
    {
      if program !in which {
        return None;
      }
      var child := Proc(SpawnArgv(which[program], botId), false, false, true, true);
      procs := procs[nextPid := child];
      pid := Some(nextPid);
      nextPid := nextPid + 1;
    }

    /** Time passes: the given processes go away. */
    method Sleep(pids: set<int>)
      modifies this
      ensures State() == Vanish(old(State()), pids)
    {
      procs := procs - pids;
    }

    method ExitProcess(pid: int)
      modifies this
      ensures State() == Exit(old(State()), pid)
    {
      if pid in procs {
        procs := procs[pid := procs[pid].(terminal := true)];
      }
    }

    method SendSignal(pid: int, sig: Sig) returns (delivered: bool)
      requires pid in procs
      modifies this
      ensures (State(), delivered) == Kill(old(State()), pid, sig)
    {
      delivered := procs[pid].signalable;
      if delivered {
        signals := signals + [Signal(sig, pid)];
      }
    }
  }
}
