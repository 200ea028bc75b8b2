/**
 * The script's `main` after argument parsing: the set-up steps that exit
 * with status 2, then `run()` with its catch-all, which turns any
 * exception escaping the cycle into `finish(False)`. `finish` ends the
 * process with `sys.exit`, which the catch-all does not intercept, so it
 * runs exactly once.
 */
module Program {
  import opened Wrappers
  import opened Settings
  import opened Orchestrator
  import opened Finalizer
  import opened RunProperties
  import RunTheorems

  /** What the world answers to the set-up steps and to the transports. */
  datatype Environment = Environment(
    confExists: bool,                    // `os.path.exists(args.conf)`
    parsed: Option<seq<ParsedSection>>,  // what `RawConfigParser.read` yields; None when it raises
    loggerRaises: bool,                  // whether `setup_logger` raises
    host: Host,                          // the machine the cycle runs on
    log: string,                         // the text the email log holds when `send_email` reads it
    emailTrail: string,                  // what a failed email attempt logs before Discord reads the log again
    emailDelivers: bool,                 // whether the SMTP transport completes
    discordDelivers: bool)               // whether the webhook POST completes

  /** How the process ends. */
  datatype Ending = Ending(exitCode: int, commands: seq<seq<string>>, attempted: seq<Notice>)

  /** `main` fails before the cycle: a missing file, a loader exception or a logger exception. */
  predicate SetupFails(args: Args, env: Environment) {
    !env.confExists || env.parsed.None? || FirstForeign(env.parsed.value).Some? || env.loggerRaises
  }

  /** The specification of `main`. */
  function MainModel(args: Args, env: Environment): Ending {
    if SetupFails(args, env) then Ending(2, [], [])
    else
      var cfg := Normalise(env.parsed.value, args);
      var r := RunModel(cfg, env.host);
      var f := Finish(cfg, Succeeded(r), env.log, env.emailTrail, env.emailDelivers, env.discordDelivers);
      Ending(f.exitCode, Argvs(cfg, r.trace), f.attempted)
  }

  /** `main` with the set-up steps in order and the cycle's outcome handed to `finish`. */
  method RunnerMain(args: Args, env: Environment) returns (o: Ending)
    ensures o == MainModel(args, env)
  {
    if !env.confExists {
      return Ending(2, [], []);
    }
    if env.parsed.None? {
      return Ending(2, [], []);
    }
    var loaded := LoadConfig(env.parsed.value, args);
    if loaded.Failure? {
      return Ending(2, [], []);
    }
    var cfg := loaded.value;
    if env.loggerRaises {
      return Ending(2, [], []);
    }
    var r, argvs := Run(cfg, env.host);
    var f := Finish(cfg, Succeeded(r), env.log, env.emailTrail, env.emailDelivers, env.discordDelivers);
    o := Ending(f.exitCode, argvs, f.attempted);
  }

  /**
   * The exit status: 2 exactly when set-up fails, and then no command runs
   * and nothing is sent; otherwise 0 exactly when the preflight checks
   * pass, every planned command ends with an accepted status and the delete
   * guard does not fire, and 1 in every other case, however the
   * notifications fare.
   */
  lemma ExitStatus(args: Args, env: Environment)
    ensures var o := MainModel(args, env);
      && (o.exitCode == 2 <==> SetupFails(args, env))
      && (o.exitCode == 2 ==> o.commands == [] && o.attempted == [])
      && (o.exitCode == 0 || o.exitCode == 1 || o.exitCode == 2)
    ensures !SetupFails(args, env) ==>
      var cfg, h := Normalise(env.parsed.value, args), env.host;
      (MainModel(args, env).exitCode == 0 <==>
        && FirstFailedCheck(cfg, h).None?
        && (forall i :: 0 <= i < |Planned(cfg, h)| ==> Ok(h, Planned(cfg, h)[i]))
        && !Exceeds(cfg.deleteThreshold, DiffOf(h).remove))
  {
    if !SetupFails(args, env) {
      var cfg, h := Normalise(env.parsed.value, args), env.host;
      var s := Succeeded(RunModel(cfg, h));
      NotifierFailuresSwallowed(cfg, s, env.log, env.emailTrail, env.emailDelivers, env.discordDelivers, false, false);
      RunTheorems.SucceedsIff(cfg, h);
    }
  }
}
