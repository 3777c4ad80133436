/** Deciding whether a process's command line is the expected bot. */
module Identity {
  import opened Common
  import opened Strings

  /**
   * The result of `_interpret_commandline`: a bool when one of the two known command-line
   * shapes is recognised, otherwise one of its two error messages (which quote pid and argv).
   */
  datatype Verdict =
    | Match(same: bool)
    | NotInterpreted(pid: int, cmdline: seq<string>)
    | Unhandled(pid: int, cmdline: seq<string>)

  /** argv[1] is the bot's entry script, found by its "/<module>" suffix. */
  predicate ModuleShape(cmdline: seq<string>, botModule: string) {
    |cmdline| > 2 && EndsWith(cmdline[1], "/" + botModule)
  }

  /** argv[1] is intelmqctl and argv[2] is "run": the bot runs interactively. */
  predicate InteractiveShape(cmdline: seq<string>) {
    |cmdline| > 3 && EndsWith(cmdline[1], "/intelmqctl") && cmdline[2] == "run"
  }

  /** `IntelMQProcessManager._interpret_commandline`. */
  function InterpretCommandline(pid: int, cmdline: seq<string>, botModule: string, botId: string): (r: Verdict)
    ensures r.Match? <==> ModuleShape(cmdline, botModule) || InteractiveShape(cmdline)
    ensures r == Match(true) <==>
      if ModuleShape(cmdline, botModule) then cmdline[2] == botId
      else InteractiveShape(cmdline) && cmdline[3] == botId
    ensures r.NotInterpreted? <==> !r.Match? && |cmdline| > 1
    ensures r.Unhandled? <==> |cmdline| <= 1
    ensures !r.Match? ==> r.pid == pid && r.cmdline == cmdline
  {
    if |cmdline| > 2 && EndsWith(cmdline[1], "/" + botModule) then
      Match(cmdline[2] == botId)
    else if |cmdline| > 3 && EndsWith(cmdline[1], "/intelmqctl") && cmdline[2] == "run" then
      Match(cmdline[3] == botId)
    else if |cmdline| > 1 then
      NotInterpreted(pid, cmdline)
    else
      Unhandled(pid, cmdline)
  }

  /**
   * The check `IntelMQProcessManagerNG._get_bot_process` makes instead: argv[1] must equal
   * the path `which` resolved for the module, or for intelmqctl, exactly.
   */
  predicate ArgvIsBot(argv: seq<string>, modulePath: string, ctlPath: Option<string>, botId: string) {
    || (|argv| > 2 && argv[1] == modulePath && argv[2] == botId)
    || (|argv| > 3 && ctlPath == Some(argv[1]) && argv[2] == "run" && argv[3] == botId)
  }

  /**
   * The controller's own check of a bot's command line: argv[1] is the module's path (any bot
   * id may follow), or the bot runs interactively under intelmqctl; a command line of at most
   * one element is trusted as well.
   */
  predicate ArgvAccepted(argv: seq<string>, modulePath: string, ctlPath: Option<string>, botId: string) {
    if |argv| > 1 && argv[1] == modulePath then true
    else if |argv| > 3 && ctlPath == Some(argv[1]) && argv[2] == "run" && argv[3] == botId then true
    else |argv| <= 1
  }

  /**
   * The controller accepts every command line the local backend accepts, and also the child
   * of another bot that runs the same module.
   */
  lemma ControllerCheckIsLooser(argv: seq<string>, modulePath: string, ctlPath: Option<string>, botId: string, otherId: string)
    ensures ArgvIsBot(argv, modulePath, ctlPath, botId) ==> ArgvAccepted(argv, modulePath, ctlPath, botId)
    ensures ArgvAccepted(["/usr/bin/python3", modulePath, otherId], modulePath, ctlPath, botId)
    ensures otherId != botId && Some(modulePath) != ctlPath ==>
      !ArgvIsBot(["/usr/bin/python3", modulePath, otherId], modulePath, ctlPath, botId)
  {
  }

  /**
   * Whenever `which` resolves the module to ".../<module>" and intelmqctl to ".../intelmqctl"
   * (and these are different programs), a command line the exact check accepts is one the
   * suffix classifier confirms too.
   */
  lemma ExactMatchIsConfirmed(pid: int, argv: seq<string>, botModule: string, modulePath: string,
                              ctlPath: Option<string>, botId: string)
    requires EndsWith(modulePath, "/" + botModule)
    requires ctlPath.Some? ==> EndsWith(ctlPath.value, "/intelmqctl") && !EndsWith(ctlPath.value, "/" + botModule)
    requires ArgvIsBot(argv, modulePath, ctlPath, botId)
    ensures InterpretCommandline(pid, argv, botModule, botId) == Match(true)
  {
  }

  /** The suffix classifier also confirms command lines the exact check rejects. */
  lemma SuffixMatchIsLooser()
    ensures InterpretCommandline(7, ["python3", "/opt/bin/mail-bot", "mail-1"], "mail-bot", "mail-1") == Match(true)
    ensures !ArgvIsBot(["python3", "/opt/bin/mail-bot", "mail-1"], "/usr/bin/mail-bot", None, "mail-1")
  {
    assert EndsWith("/opt/bin/mail-bot", "/" + "mail-bot");
  }
}
