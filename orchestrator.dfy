/**
 * `run`: the maintenance cycle as a state machine. `Step` moves one stage at
 * a time (preflight, touch, diff, the delete guard, sync, pool, cleanup,
 * scrub); `Exec` drives it to the end. `Run` is the same cycle written the
 * way the source writes it, straight-line code with early exits, and is
 * proved to end in the state the machine reaches.
 */
module Orchestrator {
  import opened Wrappers
  import opened OrderedDict
  import opened CommandRunner
  import opened DiffClassifier
  import opened Settings
  import PyText

  /** The snapraid-btrfs commands the cycle issues. */
  datatype Cmd = Touch | Diff | Sync | Pool | Cleanup | Scrub

  function Name(c: Cmd): string {
    match c
    case Touch => "touch"
    case Diff => "diff"
    case Sync => "sync"
    case Pool => "pool"
    case Cleanup => "cleanup"
    case Scrub => "scrub"
  }

  /**
   * The outside world as the cycle sees it: which executables `shutil.which`
   * resolves, which paths are files, and how each command's child ends.
   */
  datatype Host = Host(
    onPath: set<string>, files: set<string>,
    touch: ProcessResult, diff: ProcessResult, sync: ProcessResult,
    pool: ProcessResult, cleanup: ProcessResult, scrub: ProcessResult)

  function Child(h: Host, c: Cmd): ProcessResult {
    match c
    case Touch => h.touch
    case Diff => h.diff
    case Sync => h.sync
    case Pool => h.pool
    case Cleanup => h.cleanup
    case Scrub => h.scrub
  }

  /** The four preflight checks, in the order `run` makes them. */
  datatype Check = SnapraidExecutable | SnapraidConfig | SnapraidBtrfsExecutable | SnapperExecutable

  function FirstFailedCheck(cfg: Config, h: Host): Option<Check> {
    if cfg.snapraidExe !in h.onPath then Some(SnapraidExecutable)
    else if cfg.snapraidConf !in h.files then Some(SnapraidConfig)
    else if cfg.btrfsExe !in h.onPath then Some(SnapraidBtrfsExecutable)
    else if cfg.snapperExe !in h.onPath then Some(SnapperExecutable)
    else None
  }

  /** Where a command error is handled: at the call site, or by the catch-all in `main`. */
  datatype Handler = AtCallSite | InMain

  /** Why a run ended with `finish(False)`. */
  datatype Failure =
    | PreflightFailed(check: Check)
    | CommandFailed(error: CalledProcessError, handler: Handler)
    | DeleteThresholdExceeded(removed: nat, threshold: int)

  /** One call of `snapraid_btrfs_command`: the command, its two dictionaries and what came back. */
  datatype Invocation = Invocation(
    cmd: Cmd, snapraidArgs: Dict<ArgValue>, btrfsArgs: Dict<ArgValue>,
    result: Result<seq<string>, CalledProcessError>)

  function ToolsOf(cfg: Config): Tools {
    Tools(cfg.btrfsExe, cfg.snapraidConf, cfg.snapperExe, cfg.snapraidExe)
  }

  /** The vector the call's child was started with. */
  function Argv(cfg: Config, inv: Invocation): seq<string> {
    CommandLine(ToolsOf(cfg), Name(inv.cmd), inv.snapraidArgs, inv.btrfsArgs)
  }

  /** The vectors of a trace, in order. */
  function Argvs(cfg: Config, trace: seq<Invocation>): (r: seq<seq<string>>)
    ensures |r| == |trace| && forall i :: 0 <= i < |trace| ==> r[i] == Argv(cfg, trace[i])
  {
    if trace == [] then [] else Argvs(cfg, trace[..|trace| - 1]) + [Argv(cfg, trace[|trace| - 1])]
  }

  lemma ArgvsSnoc(cfg: Config, trace: seq<Invocation>, inv: Invocation)
    ensures Argvs(cfg, trace + [inv]) == Argvs(cfg, trace) + [Argv(cfg, inv)]
  {
    assert (trace + [inv])[..|trace|] == trace;
  }

  /** Only diff passes `allow_statuscodes`: status 2 means "changes found". */
  function AllowedCodes(c: Cmd): seq<int> {
    if c == Diff then [2] else []
  }

  function Invoke(cfg: Config, h: Host, c: Cmd, sa: Dict<ArgValue>, ba: Dict<ArgValue>): Invocation {
    Invocation(c, sa, ba, CheckExit(Name(c), Child(h, c), AllowedCodes(c)))
  }

  /** `snapraid_btrfs_args_extend` as lines 345-351 first fill it. */
  function InitialBtrfsArgs(cfg: Config): (d: Dict<ArgValue>)
    ensures UniqueKeys(d) && "pool-dir" !in Keys(d)
  {
    var d0: Dict<ArgValue> := if |cfg.snapperConfigs| > 0 then [("snapper-configs", Text(cfg.snapperConfigs))] else [];
    if |cfg.snapperConfigsFile| > 0 then Put(d0, "snapper-configs-file", Text(cfg.snapperConfigsFile)) else d0
  }

  /** A plan that `int()` accepts is a percentage; anything else is a named plan. */
  predicate NumericPlan(plan: string) {
    PyText.ParseInt(plan).Some?
  }

  /** The scrub's `snapraid_args`: `older-than` only goes with a numeric plan. */
  function ScrubArgs(plan: string, olderThan: int): Dict<ArgValue> {
    if NumericPlan(plan) then [("plan", Text(plan)), ("older-than", Number(olderThan))]
    else [("plan", Text(plan))]
  }

  /** The warning of lines 419-422: a named plan with a positive `older-than`. */
  predicate WarnsOlderThan(plan: string, olderThan: int) {
    !NumericPlan(plan) && olderThan > 0
  }

  /** The delete guard: a non-negative threshold that the removed count goes over. */
  predicate Exceeds(threshold: int, removed: nat) {
    threshold >= 0 && removed > threshold
  }

  datatype Stage = AtPreflight | AtTouch | AtDiff | AtGuard | AtSync | AtPool | AtCleanup | AtScrub | Finished

  function StageRank(st: Stage): nat {
    match st
    case AtPreflight => 0
    case AtTouch => 1
    case AtDiff => 2
    case AtGuard => 3
    case AtSync => 4
    case AtPool => 5
    case AtCleanup => 6
    case AtScrub => 7
    case Finished => 8
  }

  /** The rank of the stage that issues a command. */
  function CmdRank(c: Cmd): nat {
    match c
    case Touch => 1
    case Diff => 2
    case Sync => 4
    case Pool => 5
    case Cleanup => 6
    case Scrub => 7
  }

  /**
   * Where the cycle is: the next stage, the shared btrfs-args dictionary, the
   * diff counts, the commands issued so far, whether the older-than warning
   * was logged, and, once finished, why it failed (`None`: it succeeded).
   */
  datatype RunState = RunState(
    stage: Stage, btrfsArgs: Dict<ArgValue>, counts: DiffCounts,
    trace: seq<Invocation>, warnedOlderThan: bool, failure: Option<Failure>)

  const Start := RunState(AtPreflight, [], NoChanges, [], false, None)

  predicate Succeeded(s: RunState) {
    s.stage == Finished && s.failure.None?
  }

  /** Appends an invocation; an error ends the run, handled by `handler`. */
  function Record(s: RunState, inv: Invocation, next: Stage, handler: Handler): (t: RunState)
    ensures t.btrfsArgs == s.btrfsArgs && t.counts == s.counts && t.warnedOlderThan == s.warnedOlderThan
    ensures t.trace == s.trace + [inv]
    ensures t.stage == (if inv.result.Success? then next else Finished)
    ensures t.failure == (if inv.result.Success? then s.failure else Some(CommandFailed(inv.result.error, handler)))
  {
    var s' := s.(trace := s.trace + [inv]);
    match inv.result
    case Success(_) => s'.(stage := next)
    case Failure(e) => s'.(stage := Finished, failure := Some(CommandFailed(e, handler)))
  }

  /** One stage of `run`. */
  function Step(cfg: Config, h: Host, s: RunState): (t: RunState)
    requires s.stage != Finished && UniqueKeys(s.btrfsArgs)
    ensures StageRank(t.stage) > StageRank(s.stage) && UniqueKeys(t.btrfsArgs)
  {
    match s.stage
    case AtPreflight =>
      (match FirstFailedCheck(cfg, h)
       case Some(c) => s.(stage := Finished, failure := Some(PreflightFailed(c)))
       case None => s.(stage := AtTouch, btrfsArgs := InitialBtrfsArgs(cfg)))
    case AtTouch =>
      if !cfg.touch then s.(stage := AtDiff)
      else Record(s, Invoke(cfg, h, Touch, [], s.btrfsArgs), AtDiff, InMain)
    case AtDiff =>
      var inv := Invoke(cfg, h, Diff, [], s.btrfsArgs);
      var t := Record(s, inv, AtGuard, InMain);
      if inv.result.Success? then t.(counts := Classify(inv.result.value)) else t
    case AtGuard =>
      if Exceeds(cfg.deleteThreshold, s.counts.remove) then
        s.(stage := Finished, failure := Some(DeleteThresholdExceeded(s.counts.remove, cfg.deleteThreshold)))
      else if Total(s.counts) == 0 then s.(stage := AtPool)
      else s.(stage := AtSync)
    case AtSync =>
      Record(s, Invoke(cfg, h, Sync, [], s.btrfsArgs), AtPool, AtCallSite)
    case AtPool =>
      if !cfg.pool then s.(stage := AtCleanup)
      else
        var ba := if |cfg.poolDir| > 0 then Put(s.btrfsArgs, "pool-dir", Text(cfg.poolDir)) else s.btrfsArgs;
        Record(s.(btrfsArgs := ba), Invoke(cfg, h, Pool, [], ba), AtCleanup, AtCallSite)
    case AtCleanup =>
      if !cfg.cleanup then s.(stage := AtScrub)
      else Record(s, Invoke(cfg, h, Cleanup, [], s.btrfsArgs), AtScrub, AtCallSite)
    case AtScrub =>
      if !cfg.scrubEnabled then s.(stage := Finished)
      else
        var sa := ScrubArgs(cfg.scrubPlan, cfg.olderThan);
        Record(s.(warnedOlderThan := WarnsOlderThan(cfg.scrubPlan, cfg.olderThan)),
               Invoke(cfg, h, Scrub, sa, s.btrfsArgs), Finished, AtCallSite)
  }

  /** Runs the machine from `s` until it has finished. */
  function Exec(cfg: Config, h: Host, s: RunState): (t: RunState)
    requires UniqueKeys(s.btrfsArgs)
    ensures t.stage == Finished
    decreases 8 - StageRank(s.stage)
  {
    if s.stage == Finished then s else Exec(cfg, h, Step(cfg, h, s))
  }

  /** The state a whole run ends in. */
  function RunModel(cfg: Config, h: Host): RunState {
    Exec(cfg, h, Start)
  }

  lemma ExecStep(cfg: Config, h: Host, s: RunState)
    requires s.stage != Finished && UniqueKeys(s.btrfsArgs)
    ensures Exec(cfg, h, s) == Exec(cfg, h, Step(cfg, h, s))
  {
  }

  /** One command call as `run` makes it, recorded. */
  method Call(cfg: Config, h: Host, c: Cmd, sa: Dict<ArgValue>, ba: Dict<ArgValue>) returns (inv: Invocation, argv: seq<string>)
    ensures inv == Invoke(cfg, h, c, sa, ba) && argv == Argv(cfg, inv)
  {
    var res;
    argv, res := SnapraidBtrfsCommand(ToolsOf(cfg), Name(c), sa, ba, AllowedCodes(c), Child(h, c));
    inv := Invocation(c, sa, ba, res);
  }

  /**
   * Appends a call and its vector to the trace; an error becomes
   * `finish(False)` through `handler`.
   */
  method Note(cfg: Config, s: RunState, argvs0: seq<seq<string>>, inv: Invocation, argv: seq<string>, next: Stage, handler: Handler)
    returns (t: RunState, argvs: seq<seq<string>>)
    requires argvs0 == Argvs(cfg, s.trace) && argv == Argv(cfg, inv)
    ensures t == Record(s, inv, next, handler) && argvs == Argvs(cfg, t.trace)
  {
    t := s.(trace := s.trace + [inv]);
    argvs := argvs0 + [argv];
    ArgvsSnoc(cfg, s.trace, inv);
    if inv.result.Failure? {
      t := t.(stage := Finished, failure := Some(CommandFailed(inv.result.error, handler)));
    } else {
      t := t.(stage := next);
    }
  }

  /** Lines 327-351: the preflight checks, then the initial btrfs arguments. */
  method Preflight(cfg: Config, h: Host) returns (t: RunState)
    ensures t == Step(cfg, h, Start)
    ensures t.stage == AtTouch || t.stage == Finished
  {
    if cfg.snapraidExe !in h.onPath {
      return Start.(stage := Finished, failure := Some(PreflightFailed(SnapraidExecutable)));
    }
    if cfg.snapraidConf !in h.files {
      return Start.(stage := Finished, failure := Some(PreflightFailed(SnapraidConfig)));
    }
    if cfg.btrfsExe !in h.onPath {
      return Start.(stage := Finished, failure := Some(PreflightFailed(SnapraidBtrfsExecutable)));
    }
    if cfg.snapperExe !in h.onPath {
      return Start.(stage := Finished, failure := Some(PreflightFailed(SnapperExecutable)));
    }
    var btrfsArgs: Dict<ArgValue> := [];
    if |cfg.snapperConfigs| > 0 {
      btrfsArgs := Put(btrfsArgs, "snapper-configs", Text(cfg.snapperConfigs));
    }
    if |cfg.snapperConfigsFile| > 0 {
      btrfsArgs := Put(btrfsArgs, "snapper-configs-file", Text(cfg.snapperConfigsFile));
    }
    t := Start.(stage := AtTouch, btrfsArgs := btrfsArgs);
  }

  /** Lines 353-356: touch, whose error is not caught here and reaches `main`. */
  method TouchPhase(cfg: Config, h: Host, s: RunState, argvs0: seq<seq<string>>) returns (t: RunState, argvs: seq<seq<string>>)
    requires argvs0 == Argvs(cfg, s.trace)
    requires s.stage == AtTouch && UniqueKeys(s.btrfsArgs)
    ensures t == Step(cfg, h, s) && argvs == Argvs(cfg, t.trace)
    ensures t.stage == AtDiff || t.stage == Finished
  {
    t := s.(stage := AtDiff);
    argvs := argvs0;
    if cfg.touch {
      var inv, argv := Call(cfg, h, Touch, [], s.btrfsArgs);
      t, argvs := Note(cfg, s, argvs0, inv, argv, AtDiff, InMain);
    }
  }

  /** Lines 358-364: diff (status 2 allowed, errors reach `main`) and the classification of its output. */
  method DiffPhase(cfg: Config, h: Host, s: RunState, argvs0: seq<seq<string>>) returns (t: RunState, argvs: seq<seq<string>>)
    requires argvs0 == Argvs(cfg, s.trace)
    requires s.stage == AtDiff && UniqueKeys(s.btrfsArgs)
    ensures t == Step(cfg, h, s) && argvs == Argvs(cfg, t.trace)
    ensures t.stage == AtGuard || t.stage == Finished
  {
    var inv, argv := Call(cfg, h, Diff, [], s.btrfsArgs);
    t, argvs := Note(cfg, s, argvs0, inv, argv, AtGuard, InMain);
    if inv.result.Success? {
      var diffOut := inv.result.value;
      t := t.(counts := Classify(diffOut));
    }
  }

  /** Lines 368-378: the delete threshold, then the no-change test that skips sync. */
  method GuardPhase(cfg: Config, h: Host, s: RunState, argvs0: seq<seq<string>>) returns (t: RunState, argvs: seq<seq<string>>)
    requires argvs0 == Argvs(cfg, s.trace)
    requires s.stage == AtGuard && UniqueKeys(s.btrfsArgs)
    ensures t == Step(cfg, h, s) && argvs == Argvs(cfg, t.trace)
    ensures t.stage == AtSync || t.stage == AtPool || t.stage == Finished
  {
    argvs := argvs0;
    var diffResults := s.counts;
    if cfg.deleteThreshold >= 0 && diffResults.remove > cfg.deleteThreshold {
      return s.(stage := Finished, failure := Some(DeleteThresholdExceeded(diffResults.remove, cfg.deleteThreshold))), argvs;
    }
    if diffResults.remove + diffResults.add + diffResults.move + diffResults.update == 0 {
      t := s.(stage := AtPool);
    } else {
      t := s.(stage := AtSync);
    }
  }

  /** Lines 380-386: sync, its error caught at the call site. */
  method SyncPhase(cfg: Config, h: Host, s: RunState, argvs0: seq<seq<string>>) returns (t: RunState, argvs: seq<seq<string>>)
    requires argvs0 == Argvs(cfg, s.trace)
    requires s.stage == AtSync && UniqueKeys(s.btrfsArgs)
    ensures t == Step(cfg, h, s) && argvs == Argvs(cfg, t.trace)
    ensures t.stage == AtPool || t.stage == Finished
  {
    var inv, argv := Call(cfg, h, Sync, [], s.btrfsArgs);
    t, argvs := Note(cfg, s, argvs0, inv, argv, AtPool, AtCallSite);
  }

  /** Lines 389-398: pool; a configured pool directory joins the shared dictionary first. */
  method PoolPhase(cfg: Config, h: Host, s: RunState, argvs0: seq<seq<string>>) returns (t: RunState, argvs: seq<seq<string>>)
    requires argvs0 == Argvs(cfg, s.trace)
    requires s.stage == AtPool && UniqueKeys(s.btrfsArgs)
    ensures t == Step(cfg, h, s) && argvs == Argvs(cfg, t.trace)
    ensures t.stage == AtCleanup || t.stage == Finished
  {
    t := s.(stage := AtCleanup);
    argvs := argvs0;
    if cfg.pool {
      var btrfsArgs := s.btrfsArgs;
      if |cfg.poolDir| > 0 {
        btrfsArgs := Put(btrfsArgs, "pool-dir", Text(cfg.poolDir));
      }
      var inv, argv := Call(cfg, h, Pool, [], btrfsArgs);
      t, argvs := Note(cfg, s.(btrfsArgs := btrfsArgs), argvs0, inv, argv, AtCleanup, AtCallSite);
    }
  }

  /** Lines 401-408: cleanup. */
  method CleanupPhase(cfg: Config, h: Host, s: RunState, argvs0: seq<seq<string>>) returns (t: RunState, argvs: seq<seq<string>>)
    requires argvs0 == Argvs(cfg, s.trace)
    requires s.stage == AtCleanup && UniqueKeys(s.btrfsArgs)
    ensures t == Step(cfg, h, s) && argvs == Argvs(cfg, t.trace)
    ensures t.stage == AtScrub || t.stage == Finished
  {
    t := s.(stage := AtScrub);
    argvs := argvs0;
    if cfg.cleanup {
      var inv, argv := Call(cfg, h, Cleanup, [], s.btrfsArgs);
      t, argvs := Note(cfg, s, argvs0, inv, argv, AtScrub, AtCallSite);
    }
  }

  /** Lines 410-433: scrub, with `older-than` only for a plan `int()` accepts. */
  method ScrubPhase(cfg: Config, h: Host, s: RunState, argvs0: seq<seq<string>>) returns (t: RunState, argvs: seq<seq<string>>)
    requires argvs0 == Argvs(cfg, s.trace)
    requires s.stage == AtScrub && UniqueKeys(s.btrfsArgs)
    ensures t == Step(cfg, h, s) && argvs == Argvs(cfg, t.trace)
    ensures t.stage == Finished
  {
    t := s.(stage := Finished);
    argvs := argvs0;
    if cfg.scrubEnabled {
      var snapraidArgs: Dict<ArgValue>;
      var warned := false;
      if PyText.ParseInt(cfg.scrubPlan).None? {
        snapraidArgs := [("plan", Text(cfg.scrubPlan))];
        if cfg.olderThan > 0 {
          warned := true;
        }
      } else {
        snapraidArgs := [("plan", Text(cfg.scrubPlan)), ("older-than", Number(cfg.olderThan))];
      }
      var inv, argv := Call(cfg, h, Scrub, snapraidArgs, s.btrfsArgs);
      t, argvs := Note(cfg, s.(warnedOlderThan := warned), argvs0, inv, argv, Finished, AtCallSite);
    }
  }

  /**
   * `run`: the stages in order, each ending the run at once when it calls
   * `finish(False)`; reaching the end is `finish(True)`. Alongside the final
   * state come the vectors of the commands started, in order.
   */
  method Run(cfg: Config, h: Host) returns (r: RunState, argvs: seq<seq<string>>)
    ensures r == RunModel(cfg, h)
    ensures argvs == Argvs(cfg, r.trace)
  {
    r := Preflight(cfg, h);
    argvs := [];
    ExecStep(cfg, h, Start);
    if r.stage == Finished {
      return;
    }
    ghost var before := r;
    r, argvs := TouchPhase(cfg, h, r, argvs);
    ExecStep(cfg, h, before);
    if r.stage == Finished {
      return;
    }
    before := r;
    r, argvs := DiffPhase(cfg, h, r, argvs);
    ExecStep(cfg, h, before);
    if r.stage == Finished {
      return;
    }
    before := r;
    r, argvs := GuardPhase(cfg, h, r, argvs);
    ExecStep(cfg, h, before);
    if r.stage == Finished {
      return;
    }
    if r.stage == AtSync {
      before := r;
      r, argvs := SyncPhase(cfg, h, r, argvs);
      ExecStep(cfg, h, before);
      if r.stage == Finished {
        return;
      }
    }
    before := r;
    r, argvs := PoolPhase(cfg, h, r, argvs);
    ExecStep(cfg, h, before);
    if r.stage == Finished {
      return;
    }
    before := r;
    r, argvs := CleanupPhase(cfg, h, r, argvs);
    ExecStep(cfg, h, before);
    if r.stage == Finished {
      return;
    }
    before := r;
    r, argvs := ScrubPhase(cfg, h, r, argvs);
    ExecStep(cfg, h, before);
  }
}
