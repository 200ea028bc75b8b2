/**
 * What a run of `run` does, stated without the state machine: the commands
 * the configuration plans (touch if enabled, diff, and, unless the delete
 * guard fires, sync when diff reported changes, then pool, cleanup and
 * scrub as enabled), each with the arguments it is due, issued in that
 * order and cut at the first one that fails. `RunMatchesPlan` proves the
 * machine of `Orchestrator` issues exactly that; the remaining lemmas read
 * the source's promises off the plan.
 */
module RunProperties {
  import opened Wrappers
  import opened OrderedDict
  import opened CommandRunner
  import opened DiffClassifier
  import opened Settings
  import opened Orchestrator

  /** The exit status a command is allowed to end with: 0, and for diff also 2. */
  predicate Ok(h: Host, c: Cmd) {
    var code := Child(h, c).exitCode;
    code == 0 || (c == Diff && code == 2)
  }

  lemma OkIsSuccess(cfg: Config, h: Host, c: Cmd, sa: Dict<ArgValue>, ba: Dict<ArgValue>)
    ensures Invoke(cfg, h, c, sa, ba).result.Success? <==> Ok(h, c)
  {
  }

  /** The counts the guard sees: diff's output, classified. */
  function DiffOf(h: Host): DiffCounts {
    Classify(h.diff.stdout)
  }

  function Opt(b: bool, c: Cmd): seq<Cmd> {
    if b then [c] else []
  }

  /** The commands planned from stage `st` on, as if none of them failed. */
  function PlanFrom(cfg: Config, h: Host, st: Stage): seq<Cmd>
    decreases 8 - StageRank(st)
  {
    match st
    case AtPreflight => PlanFrom(cfg, h, AtTouch)
    case AtTouch => Opt(cfg.touch, Touch) + PlanFrom(cfg, h, AtDiff)
    case AtDiff => [Diff] + PlanFrom(cfg, h, AtGuard)
    case AtGuard => if Exceeds(cfg.deleteThreshold, DiffOf(h).remove) then [] else PlanFrom(cfg, h, AtSync)
    case AtSync => Opt(Total(DiffOf(h)) != 0, Sync) + PlanFrom(cfg, h, AtPool)
    case AtPool => Opt(cfg.pool, Pool) + PlanFrom(cfg, h, AtCleanup)
    case AtCleanup => Opt(cfg.cleanup, Cleanup) + PlanFrom(cfg, h, AtScrub)
    case AtScrub => Opt(cfg.scrubEnabled, Scrub)
    case Finished => []
  }

  function Planned(cfg: Config, h: Host): seq<Cmd> {
    PlanFrom(cfg, h, AtTouch)
  }

  /** Line 392: with pool enabled and a directory configured, `pool-dir` joins the shared arguments `d`. */
  function PoolArgsOf(cfg: Config, d: Dict<ArgValue>): (r: Dict<ArgValue>)
    requires UniqueKeys(d)
    ensures UniqueKeys(r)
  {
    if cfg.pool && |cfg.poolDir| > 0 then Put(d, "pool-dir", Text(cfg.poolDir)) else d
  }

  /** The shared btrfs arguments once the pool stage has passed. */
  function PoolArgs(cfg: Config): (d: Dict<ArgValue>)
    ensures UniqueKeys(d)
  {
    PoolArgsOf(cfg, InitialBtrfsArgs(cfg))
  }

  /** Pool and the commands after it see the arguments `pa` as pool left them; the commands before it see `ia`. */
  function ArgsFor(ia: Dict<ArgValue>, pa: Dict<ArgValue>, c: Cmd): Dict<ArgValue> {
    if CmdRank(c) >= CmdRank(Pool) then pa else ia
  }

  function SnapraidArgsFor(cfg: Config, c: Cmd): Dict<ArgValue> {
    if c == Scrub then ScrubArgs(cfg.scrubPlan, cfg.olderThan) else []
  }

  /** The call of `c` when the shared arguments are `ia` before pool and `pa` from pool on. */
  function CallWith(cfg: Config, h: Host, ia: Dict<ArgValue>, pa: Dict<ArgValue>, c: Cmd): Invocation {
    Invoke(cfg, h, c, SnapraidArgsFor(cfg, c), ArgsFor(ia, pa, c))
  }

  /** The call of `c` with the arguments the plan gives it. */
  function Expected(cfg: Config, h: Host, c: Cmd): Invocation {
    CallWith(cfg, h, InitialBtrfsArgs(cfg), PoolArgs(cfg), c)
  }

  function Invs(cfg: Config, h: Host, ia: Dict<ArgValue>, pa: Dict<ArgValue>, cs: seq<Cmd>): (r: seq<Invocation>)
    ensures |r| == |cs| && forall i :: 0 <= i < |cs| ==> r[i] == CallWith(cfg, h, ia, pa, cs[i])
  {
    if cs == [] then [] else [CallWith(cfg, h, ia, pa, cs[0])] + Invs(cfg, h, ia, pa, cs[1..])
  }

  /** The calls up to and including the first that fails. */
  function UpToFailure(invs: seq<Invocation>): (r: seq<Invocation>)
    ensures r <= invs
    ensures forall i :: 0 <= i < |r| - 1 ==> r[i].result.Success?
    ensures |r| < |invs| ==> |r| > 0 && r[|r| - 1].result.Failure?
  {
    if invs == [] then []
    else if invs[0].result.Failure? then [invs[0]]
    else [invs[0]] + UpToFailure(invs[1..])
  }

  /** The commands a run issues: none after a failed preflight check. */
  function Issued(cfg: Config, h: Host): seq<Invocation> {
    if FirstFailedCheck(cfg, h).Some? then []
    else UpToFailure(Invs(cfg, h, InitialBtrfsArgs(cfg), PoolArgs(cfg), Planned(cfg, h)))
  }

  /** Touch and diff are not guarded at their call sites; their errors reach `main`. */
  function HandlerOf(c: Cmd): Handler {
    if c == Touch || c == Diff then InMain else AtCallSite
  }

  /** After the preflight checks: the last issued call failed, or else the guard fired, or else success. */
  function CommandOutcome(cfg: Config, h: Host, issued: seq<Invocation>): Option<Failure> {
    if |issued| > 0 && issued[|issued| - 1].result.Failure? then
      Some(CommandFailed(issued[|issued| - 1].result.error, HandlerOf(issued[|issued| - 1].cmd)))
    else if Exceeds(cfg.deleteThreshold, DiffOf(h).remove) then
      Some(DeleteThresholdExceeded(DiffOf(h).remove, cfg.deleteThreshold))
    else None
  }

  function ExpectedFailure(cfg: Config, h: Host): Option<Failure> {
    match FirstFailedCheck(cfg, h)
    case Some(c) => Some(PreflightFailed(c))
    case None => CommandOutcome(cfg, h, Issued(cfg, h))
  }

  /** The older-than warning is logged when scrub was issued with a named plan and a positive older-than. */
  predicate ScrubWarned(cfg: Config, issued: seq<Invocation>) {
    |issued| > 0 && issued[|issued| - 1].cmd == Scrub && WarnsOlderThan(cfg.scrubPlan, cfg.olderThan)
  }

  /**
   * The states the machine passes through past the preflight checks and
   * before it finishes, when the shared arguments are `ia` before pool and
   * `pa` from then on.
   */
  predicate Good(cfg: Config, h: Host, ia: Dict<ArgValue>, pa: Dict<ArgValue>, s: RunState) {
    && s.stage != AtPreflight && s.stage != Finished
    && s.failure.None? && !s.warnedOlderThan && UniqueKeys(s.btrfsArgs)
    && (StageRank(s.stage) <= StageRank(AtPool) ==> s.btrfsArgs == ia)
    && (StageRank(s.stage) > StageRank(AtPool) ==> s.btrfsArgs == pa)
    && (StageRank(s.stage) >= StageRank(AtGuard) ==> s.counts == DiffOf(h))
    && (StageRank(s.stage) > StageRank(AtGuard) ==> !Exceeds(cfg.deleteThreshold, DiffOf(h).remove))
    && (s.stage == AtSync ==> Total(DiffOf(h)) != 0)
  }

  /** `pa` is what pool makes of `ia`. */
  predicate Shared(cfg: Config, ia: Dict<ArgValue>, pa: Dict<ArgValue>) {
    UniqueKeys(ia) && pa == PoolArgsOf(cfg, ia)
  }

  /** What a finished run reports: the calls issued, the failure, and the warning. */
  datatype Outcome = Outcome(trace: seq<Invocation>, failure: Option<Failure>, warned: bool)

  function Summary(r: RunState): Outcome {
    Outcome(r.trace, r.failure, r.warnedOlderThan)
  }

  /** The outcome after a trace `trace0` when the calls `invs` come next, cut at the first failure. */
  function After(cfg: Config, h: Host, trace0: seq<Invocation>, invs: seq<Invocation>): Outcome {
    var rest := UpToFailure(invs);
    Outcome(trace0 + rest, CommandOutcome(cfg, h, rest), ScrubWarned(cfg, rest))
  }

  lemma InvsCons(cfg: Config, h: Host, ia: Dict<ArgValue>, pa: Dict<ArgValue>, c: Cmd, plan: seq<Cmd>)
    ensures Invs(cfg, h, ia, pa, [c] + plan) == [CallWith(cfg, h, ia, pa, c)] + Invs(cfg, h, ia, pa, plan)
  {
    assert ([c] + plan)[1..] == plan;
  }

  lemma UpToFailureCons(inv: Invocation, rest: seq<Invocation>)
    ensures UpToFailure([inv] + rest) == if inv.result.Failure? then [inv] else [inv] + UpToFailure(rest)
  {
    assert ([inv] + rest)[1..] == rest;
  }

  lemma OutcomeCons(cfg: Config, h: Host, inv: Invocation, rest: seq<Invocation>)
    requires inv.result.Success?
    ensures CommandOutcome(cfg, h, [inv] + rest) == CommandOutcome(cfg, h, rest)
  {
    if rest != [] {
      assert ([inv] + rest)[|rest|] == rest[|rest| - 1];
    }
  }

  lemma WarnedCons(cfg: Config, inv: Invocation, rest: seq<Invocation>)
    requires inv.cmd != Scrub
    ensures ScrubWarned(cfg, [inv] + rest) == ScrubWarned(cfg, rest)
  {
    if rest != [] {
      assert ([inv] + rest)[|rest|] == rest[|rest| - 1];
    }
  }

  /** A call that succeeds, other than scrub, moves from the plan into the trace. */
  lemma AfterCons(cfg: Config, h: Host, trace0: seq<Invocation>, inv: Invocation, invs: seq<Invocation>)
    requires inv.result.Success? && inv.cmd != Scrub
    ensures After(cfg, h, trace0, [inv] + invs) == After(cfg, h, trace0 + [inv], invs)
  {
    UpToFailureCons(inv, invs);
    var rest := UpToFailure(invs);
    OutcomeCons(cfg, h, inv, rest);
    WarnedCons(cfg, inv, rest);
    assert trace0 + [inv] + rest == trace0 + ([inv] + rest);
  }

  /** A call that fails ends the run with it. */
  lemma AfterFails(cfg: Config, h: Host, trace0: seq<Invocation>, inv: Invocation, invs: seq<Invocation>)
    requires inv.result.Failure?
    ensures After(cfg, h, trace0, [inv] + invs) ==
      Outcome(trace0 + [inv], Some(CommandFailed(inv.result.error, HandlerOf(inv.cmd))),
              inv.cmd == Scrub && WarnsOlderThan(cfg.scrubPlan, cfg.olderThan))
  {
    UpToFailureCons(inv, invs);
  }

  lemma AfterNothing(cfg: Config, h: Host, trace0: seq<Invocation>)
    ensures After(cfg, h, trace0, []) ==
      Outcome(trace0, if Exceeds(cfg.deleteThreshold, DiffOf(h).remove) then Some(DeleteThresholdExceeded(DiffOf(h).remove, cfg.deleteThreshold)) else None, false)
  {
    assert trace0 + [] == trace0;
  }

  lemma ExecFinished(cfg: Config, h: Host, t: RunState)
    requires t.stage == Finished && UniqueKeys(t.btrfsArgs)
    ensures Exec(cfg, h, t) == t
  {
  }

  lemma RecordOk(s: RunState, inv: Invocation, next: Stage, handler: Handler)
    requires inv.result.Success?
    ensures Record(s, inv, next, handler) == s.(stage := next, trace := s.trace + [inv])
  {
  }

  /**
   * One command stage that calls `e` on `b` (the state, possibly with updated
   * shared arguments): the run ends there on failure, or the rest follows.
   */
  lemma Link(cfg: Config, h: Host, b: RunState, e: Invocation, next: Stage, invs: seq<Invocation>, r: RunState)
    requires e.cmd != Scrub && b.failure.None? && !b.warnedOlderThan
    requires e.result.Success? ==> Summary(r) == After(cfg, h, b.trace + [e], invs)
    requires e.result.Failure? ==> r == Record(b, e, next, HandlerOf(e.cmd))
    ensures Summary(r) == After(cfg, h, b.trace, [e] + invs)
  {
    if e.result.Success? {
      AfterCons(cfg, h, b.trace, e, invs);
    } else {
      AfterFails(cfg, h, b.trace, e, invs);
    }
  }

  /** The call a stage makes, with the shared arguments `ba` it holds, is the planned one. */
  lemma CallAt(cfg: Config, h: Host, ia: Dict<ArgValue>, pa: Dict<ArgValue>, c: Cmd, ba: Dict<ArgValue>)
    requires ArgsFor(ia, pa, c) == ba
    ensures CallWith(cfg, h, ia, pa, c) == Invoke(cfg, h, c, if c == Scrub then ScrubArgs(cfg.scrubPlan, cfg.olderThan) else [], ba)
  {
  }

  // What `Good` gives at each stage, for the lemmas below

  lemma FactsBeforePool(cfg: Config, h: Host, ia: Dict<ArgValue>, pa: Dict<ArgValue>, s: RunState)
    requires Good(cfg, h, ia, pa, s) && StageRank(s.stage) <= StageRank(AtPool)
    ensures s.btrfsArgs == ia && UniqueKeys(s.btrfsArgs) && s.failure.None? && !s.warnedOlderThan
  {
  }

  lemma FactsAfterPool(cfg: Config, h: Host, ia: Dict<ArgValue>, pa: Dict<ArgValue>, s: RunState)
    requires Good(cfg, h, ia, pa, s) && StageRank(s.stage) > StageRank(AtPool)
    ensures s.btrfsArgs == pa && UniqueKeys(s.btrfsArgs) && s.failure.None? && !s.warnedOlderThan
    ensures !Exceeds(cfg.deleteThreshold, DiffOf(h).remove)
  {
  }

  // Touch

  lemma StepTouchOn(cfg: Config, h: Host, ia: Dict<ArgValue>, pa: Dict<ArgValue>, s: RunState)
    requires s.stage == AtTouch && s.btrfsArgs == ia && UniqueKeys(s.btrfsArgs) && cfg.touch
    ensures Step(cfg, h, s) == Record(s, CallWith(cfg, h, ia, pa, Touch), AtDiff, InMain)
  {
    assert ArgsFor(ia, pa, Touch) == ia;
    CallAt(cfg, h, ia, pa, Touch, s.btrfsArgs);
  }

  lemma StepTouchOff(cfg: Config, h: Host, s: RunState)
    requires s.stage == AtTouch && UniqueKeys(s.btrfsArgs) && !cfg.touch
    ensures Step(cfg, h, s) == s.(stage := AtDiff)
  {
  }

  lemma GoodAtDiff(cfg: Config, h: Host, ia: Dict<ArgValue>, pa: Dict<ArgValue>, s: RunState, trace: seq<Invocation>)
    requires Good(cfg, h, ia, pa, s) && s.stage == AtTouch
    ensures Good(cfg, h, ia, pa, s.(stage := AtDiff, trace := trace))
  {
  }

  lemma PlanTouch(cfg: Config, h: Host, ia: Dict<ArgValue>, pa: Dict<ArgValue>)
    ensures cfg.touch ==> Invs(cfg, h, ia, pa, PlanFrom(cfg, h, AtTouch)) == [CallWith(cfg, h, ia, pa, Touch)] + Invs(cfg, h, ia, pa, PlanFrom(cfg, h, AtDiff))
    ensures !cfg.touch ==> Invs(cfg, h, ia, pa, PlanFrom(cfg, h, AtTouch)) == Invs(cfg, h, ia, pa, PlanFrom(cfg, h, AtDiff))
  {
    if cfg.touch {
      assert PlanFrom(cfg, h, AtTouch) == [Touch] + PlanFrom(cfg, h, AtDiff);
      InvsCons(cfg, h, ia, pa, Touch, PlanFrom(cfg, h, AtDiff));
    } else {
      assert PlanFrom(cfg, h, AtTouch) == PlanFrom(cfg, h, AtDiff);
    }
  }

  // Diff

  lemma StepDiffOk(cfg: Config, h: Host, ia: Dict<ArgValue>, pa: Dict<ArgValue>, s: RunState)
    requires s.stage == AtDiff && s.btrfsArgs == ia && UniqueKeys(s.btrfsArgs)
    requires CallWith(cfg, h, ia, pa, Diff).result.Success?
    ensures Step(cfg, h, s) == s.(stage := AtGuard, trace := s.trace + [CallWith(cfg, h, ia, pa, Diff)], counts := DiffOf(h))
  {
    assert ArgsFor(ia, pa, Diff) == ia;
    CallAt(cfg, h, ia, pa, Diff, s.btrfsArgs);
    RecordOk(s, CallWith(cfg, h, ia, pa, Diff), AtGuard, InMain);
  }

  lemma StepDiffFails(cfg: Config, h: Host, ia: Dict<ArgValue>, pa: Dict<ArgValue>, s: RunState)
    requires s.stage == AtDiff && s.btrfsArgs == ia && UniqueKeys(s.btrfsArgs)
    requires CallWith(cfg, h, ia, pa, Diff).result.Failure?
    ensures Step(cfg, h, s) == Record(s, CallWith(cfg, h, ia, pa, Diff), AtGuard, InMain)
  {
    assert ArgsFor(ia, pa, Diff) == ia;
    CallAt(cfg, h, ia, pa, Diff, s.btrfsArgs);
  }

  lemma GoodAtGuard(cfg: Config, h: Host, ia: Dict<ArgValue>, pa: Dict<ArgValue>, s: RunState, trace: seq<Invocation>)
    requires Good(cfg, h, ia, pa, s) && s.stage == AtDiff
    ensures Good(cfg, h, ia, pa, s.(stage := AtGuard, trace := trace, counts := DiffOf(h)))
  {
  }

  lemma PlanDiff(cfg: Config, h: Host, ia: Dict<ArgValue>, pa: Dict<ArgValue>)
    ensures Invs(cfg, h, ia, pa, PlanFrom(cfg, h, AtDiff)) == [CallWith(cfg, h, ia, pa, Diff)] + Invs(cfg, h, ia, pa, PlanFrom(cfg, h, AtGuard))
  {
    assert PlanFrom(cfg, h, AtDiff) == [Diff] + PlanFrom(cfg, h, AtGuard);
    InvsCons(cfg, h, ia, pa, Diff, PlanFrom(cfg, h, AtGuard));
  }

  // The delete guard and the no-change skip

  lemma StepGuardFires(cfg: Config, h: Host, s: RunState)
    requires s.stage == AtGuard && UniqueKeys(s.btrfsArgs) && s.counts == DiffOf(h) && Exceeds(cfg.deleteThreshold, DiffOf(h).remove)
    ensures Step(cfg, h, s) == s.(stage := Finished, failure := Some(DeleteThresholdExceeded(DiffOf(h).remove, cfg.deleteThreshold)))
  {
  }

  lemma StepGuardPasses(cfg: Config, h: Host, ia: Dict<ArgValue>, pa: Dict<ArgValue>, s: RunState)
    requires Good(cfg, h, ia, pa, s) && s.stage == AtGuard && !Exceeds(cfg.deleteThreshold, DiffOf(h).remove)
    ensures Step(cfg, h, s) == s.(stage := if Total(DiffOf(h)) == 0 then AtPool else AtSync)
    ensures Good(cfg, h, ia, pa, Step(cfg, h, s))
  {
  }

  lemma PlanGuard(cfg: Config, h: Host)
    ensures Exceeds(cfg.deleteThreshold, DiffOf(h).remove) ==> PlanFrom(cfg, h, AtGuard) == []
    ensures !Exceeds(cfg.deleteThreshold, DiffOf(h).remove) && Total(DiffOf(h)) == 0 ==> PlanFrom(cfg, h, AtGuard) == PlanFrom(cfg, h, AtPool)
    ensures !Exceeds(cfg.deleteThreshold, DiffOf(h).remove) && Total(DiffOf(h)) != 0 ==> PlanFrom(cfg, h, AtGuard) == PlanFrom(cfg, h, AtSync)
  {
  }

  // Sync

  lemma StepSyncCall(cfg: Config, h: Host, ia: Dict<ArgValue>, pa: Dict<ArgValue>, s: RunState)
    requires s.stage == AtSync && s.btrfsArgs == ia && UniqueKeys(s.btrfsArgs)
    ensures Step(cfg, h, s) == Record(s, CallWith(cfg, h, ia, pa, Sync), AtPool, AtCallSite)
  {
    assert ArgsFor(ia, pa, Sync) == ia;
    CallAt(cfg, h, ia, pa, Sync, s.btrfsArgs);
  }

  lemma GoodAtPool(cfg: Config, h: Host, ia: Dict<ArgValue>, pa: Dict<ArgValue>, s: RunState, trace: seq<Invocation>)
    requires Good(cfg, h, ia, pa, s) && s.stage == AtSync
    ensures Good(cfg, h, ia, pa, s.(stage := AtPool, trace := trace))
  {
  }

  lemma PlanSync(cfg: Config, h: Host, ia: Dict<ArgValue>, pa: Dict<ArgValue>)
    requires Total(DiffOf(h)) != 0
    ensures Invs(cfg, h, ia, pa, PlanFrom(cfg, h, AtSync)) == [CallWith(cfg, h, ia, pa, Sync)] + Invs(cfg, h, ia, pa, PlanFrom(cfg, h, AtPool))
  {
    assert PlanFrom(cfg, h, AtSync) == [Sync] + PlanFrom(cfg, h, AtPool);
    InvsCons(cfg, h, ia, pa, Sync, PlanFrom(cfg, h, AtPool));
  }

  // Pool

  lemma StepPoolOn(cfg: Config, h: Host, ia: Dict<ArgValue>, pa: Dict<ArgValue>, s: RunState)
    requires s.stage == AtPool && s.btrfsArgs == ia && Shared(cfg, ia, pa) && cfg.pool
    ensures Step(cfg, h, s) == Record(s.(btrfsArgs := pa), CallWith(cfg, h, ia, pa, Pool), AtCleanup, AtCallSite)
  {
    assert ArgsFor(ia, pa, Pool) == pa;
    CallAt(cfg, h, ia, pa, Pool, pa);
  }

  lemma StepPoolOff(cfg: Config, h: Host, ia: Dict<ArgValue>, pa: Dict<ArgValue>, s: RunState)
    requires s.stage == AtPool && s.btrfsArgs == ia && Shared(cfg, ia, pa) && !cfg.pool
    ensures Step(cfg, h, s) == s.(stage := AtCleanup) && s.btrfsArgs == pa
  {
  }

  lemma GoodAtCleanup(cfg: Config, h: Host, ia: Dict<ArgValue>, pa: Dict<ArgValue>, s: RunState, trace: seq<Invocation>)
    requires Good(cfg, h, ia, pa, s) && s.stage == AtPool && UniqueKeys(pa)
    ensures Good(cfg, h, ia, pa, s.(stage := AtCleanup, btrfsArgs := pa, trace := trace))
  {
  }

  lemma PlanPool(cfg: Config, h: Host, ia: Dict<ArgValue>, pa: Dict<ArgValue>)
    ensures cfg.pool ==> Invs(cfg, h, ia, pa, PlanFrom(cfg, h, AtPool)) == [CallWith(cfg, h, ia, pa, Pool)] + Invs(cfg, h, ia, pa, PlanFrom(cfg, h, AtCleanup))
    ensures !cfg.pool ==> Invs(cfg, h, ia, pa, PlanFrom(cfg, h, AtPool)) == Invs(cfg, h, ia, pa, PlanFrom(cfg, h, AtCleanup))
  {
    if cfg.pool {
      assert PlanFrom(cfg, h, AtPool) == [Pool] + PlanFrom(cfg, h, AtCleanup);
      InvsCons(cfg, h, ia, pa, Pool, PlanFrom(cfg, h, AtCleanup));
    } else {
      assert PlanFrom(cfg, h, AtPool) == PlanFrom(cfg, h, AtCleanup);
    }
  }

  // Cleanup

  lemma StepCleanupOn(cfg: Config, h: Host, ia: Dict<ArgValue>, pa: Dict<ArgValue>, s: RunState)
    requires s.stage == AtCleanup && s.btrfsArgs == pa && UniqueKeys(s.btrfsArgs) && cfg.cleanup
    ensures Step(cfg, h, s) == Record(s, CallWith(cfg, h, ia, pa, Cleanup), AtScrub, AtCallSite)
  {
    assert ArgsFor(ia, pa, Cleanup) == pa;
    CallAt(cfg, h, ia, pa, Cleanup, s.btrfsArgs);
  }

  lemma StepCleanupOff(cfg: Config, h: Host, s: RunState)
    requires s.stage == AtCleanup && UniqueKeys(s.btrfsArgs) && !cfg.cleanup
    ensures Step(cfg, h, s) == s.(stage := AtScrub)
  {
  }

  lemma GoodAtScrub(cfg: Config, h: Host, ia: Dict<ArgValue>, pa: Dict<ArgValue>, s: RunState, trace: seq<Invocation>)
    requires Good(cfg, h, ia, pa, s) && s.stage == AtCleanup
    ensures Good(cfg, h, ia, pa, s.(stage := AtScrub, trace := trace))
  {
  }

  lemma PlanCleanup(cfg: Config, h: Host, ia: Dict<ArgValue>, pa: Dict<ArgValue>)
    ensures cfg.cleanup ==> Invs(cfg, h, ia, pa, PlanFrom(cfg, h, AtCleanup)) == [CallWith(cfg, h, ia, pa, Cleanup)] + Invs(cfg, h, ia, pa, PlanFrom(cfg, h, AtScrub))
    ensures !cfg.cleanup ==> Invs(cfg, h, ia, pa, PlanFrom(cfg, h, AtCleanup)) == Invs(cfg, h, ia, pa, PlanFrom(cfg, h, AtScrub))
  {
    if cfg.cleanup {
      assert PlanFrom(cfg, h, AtCleanup) == [Cleanup] + PlanFrom(cfg, h, AtScrub);
      InvsCons(cfg, h, ia, pa, Cleanup, PlanFrom(cfg, h, AtScrub));
    } else {
      assert PlanFrom(cfg, h, AtCleanup) == PlanFrom(cfg, h, AtScrub);
    }
  }

  // Scrub

  lemma PlanScrub(cfg: Config, h: Host, ia: Dict<ArgValue>, pa: Dict<ArgValue>)
    ensures cfg.scrubEnabled ==> Invs(cfg, h, ia, pa, PlanFrom(cfg, h, AtScrub)) == [CallWith(cfg, h, ia, pa, Scrub)]
    ensures !cfg.scrubEnabled ==> Invs(cfg, h, ia, pa, PlanFrom(cfg, h, AtScrub)) == []
  {
    if cfg.scrubEnabled {
      assert PlanFrom(cfg, h, AtScrub) == [Scrub] + [];
      InvsCons(cfg, h, ia, pa, Scrub, []);
      assert [CallWith(cfg, h, ia, pa, Scrub)] + Invs(cfg, h, ia, pa, []) == [CallWith(cfg, h, ia, pa, Scrub)];
    } else {
      assert PlanFrom(cfg, h, AtScrub) == [];
    }
  }

  lemma StepScrubOn(cfg: Config, h: Host, ia: Dict<ArgValue>, pa: Dict<ArgValue>, s: RunState)
    requires s.stage == AtScrub && s.btrfsArgs == pa && UniqueKeys(s.btrfsArgs) && cfg.scrubEnabled
    ensures Step(cfg, h, s) ==
      Record(s.(warnedOlderThan := WarnsOlderThan(cfg.scrubPlan, cfg.olderThan)), CallWith(cfg, h, ia, pa, Scrub), Finished, AtCallSite)
  {
    assert ArgsFor(ia, pa, Scrub) == pa;
    CallAt(cfg, h, ia, pa, Scrub, s.btrfsArgs);
  }

  lemma StepScrubOff(cfg: Config, h: Host, s: RunState)
    requires s.stage == AtScrub && UniqueKeys(s.btrfsArgs) && !cfg.scrubEnabled
    ensures Step(cfg, h, s) == s.(stage := Finished)
  {
  }

  /** Scrub is the last call of the plan, whichever way it ends. */
  lemma ScrubLast(cfg: Config, h: Host, s: RunState, e: Invocation)
    requires s.failure.None? && !Exceeds(cfg.deleteThreshold, DiffOf(h).remove) && e.cmd == Scrub
    ensures Summary(Record(s.(warnedOlderThan := WarnsOlderThan(cfg.scrubPlan, cfg.olderThan)), e, Finished, AtCallSite)) ==
      After(cfg, h, s.trace, [e])
  {
    UpToFailureCons(e, []);
    assert [e] + [] == [e];
  }

  lemma NothingLeft(cfg: Config, h: Host, s: RunState)
    requires s.failure.None? && !s.warnedOlderThan && !Exceeds(cfg.deleteThreshold, DiffOf(h).remove)
    ensures Summary(s.(stage := Finished)) == After(cfg, h, s.trace, [])
  {
    AfterNothing(cfg, h, s.trace);
  }

  // The stages chained, from the last back to the first

  lemma ExecAtScrub(cfg: Config, h: Host, ia: Dict<ArgValue>, pa: Dict<ArgValue>, s: RunState)
    requires Good(cfg, h, ia, pa, s) && s.stage == AtScrub
    ensures Summary(Exec(cfg, h, s)) == After(cfg, h, s.trace, Invs(cfg, h, ia, pa, PlanFrom(cfg, h, AtScrub)))
  {
    FactsAfterPool(cfg, h, ia, pa, s);
    ExecStep(cfg, h, s);
    PlanScrub(cfg, h, ia, pa);
    if cfg.scrubEnabled {
      StepScrubOn(cfg, h, ia, pa, s);
      ExecFinished(cfg, h, Step(cfg, h, s));
      ScrubLast(cfg, h, s, CallWith(cfg, h, ia, pa, Scrub));
    } else {
      StepScrubOff(cfg, h, s);
      ExecFinished(cfg, h, Step(cfg, h, s));
      NothingLeft(cfg, h, s);
    }
  }

  lemma ExecCleanupOn(cfg: Config, h: Host, ia: Dict<ArgValue>, pa: Dict<ArgValue>, s: RunState)
    requires Good(cfg, h, ia, pa, s) && s.stage == AtCleanup && cfg.cleanup
    ensures Summary(Exec(cfg, h, Step(cfg, h, s))) ==
      After(cfg, h, s.trace, [CallWith(cfg, h, ia, pa, Cleanup)] + Invs(cfg, h, ia, pa, PlanFrom(cfg, h, AtScrub)))
  {
    FactsAfterPool(cfg, h, ia, pa, s);
    StepCleanupOn(cfg, h, ia, pa, s);
    var e := CallWith(cfg, h, ia, pa, Cleanup);
    var t := Step(cfg, h, s);
    if e.result.Success? {
      RecordOk(s, e, AtScrub, AtCallSite);
      GoodAtScrub(cfg, h, ia, pa, s, s.trace + [e]);
      ExecAtScrub(cfg, h, ia, pa, t);
    } else {
      ExecFinished(cfg, h, t);
    }
    Link(cfg, h, s, e, AtScrub, Invs(cfg, h, ia, pa, PlanFrom(cfg, h, AtScrub)), Exec(cfg, h, t));
  }

  lemma ExecAtCleanup(cfg: Config, h: Host, ia: Dict<ArgValue>, pa: Dict<ArgValue>, s: RunState)
    requires Good(cfg, h, ia, pa, s) && s.stage == AtCleanup
    ensures Summary(Exec(cfg, h, s)) == After(cfg, h, s.trace, Invs(cfg, h, ia, pa, PlanFrom(cfg, h, AtCleanup)))
  {
    FactsAfterPool(cfg, h, ia, pa, s);
    ExecStep(cfg, h, s);
    PlanCleanup(cfg, h, ia, pa);
    if cfg.cleanup {
      ExecCleanupOn(cfg, h, ia, pa, s);
    } else {
      StepCleanupOff(cfg, h, s);
      GoodAtScrub(cfg, h, ia, pa, s, s.trace);
      ExecAtScrub(cfg, h, ia, pa, Step(cfg, h, s));
    }
  }

  lemma ExecPoolOn(cfg: Config, h: Host, ia: Dict<ArgValue>, pa: Dict<ArgValue>, s: RunState)
    requires Good(cfg, h, ia, pa, s) && s.stage == AtPool && Shared(cfg, ia, pa) && cfg.pool
    ensures Summary(Exec(cfg, h, Step(cfg, h, s))) ==
      After(cfg, h, s.trace, [CallWith(cfg, h, ia, pa, Pool)] + Invs(cfg, h, ia, pa, PlanFrom(cfg, h, AtCleanup)))
  {
    FactsBeforePool(cfg, h, ia, pa, s);
    StepPoolOn(cfg, h, ia, pa, s);
    var b := s.(btrfsArgs := pa);
    var e := CallWith(cfg, h, ia, pa, Pool);
    var t := Step(cfg, h, s);
    if e.result.Success? {
      RecordOk(b, e, AtCleanup, AtCallSite);
      GoodAtCleanup(cfg, h, ia, pa, s, s.trace + [e]);
      ExecAtCleanup(cfg, h, ia, pa, t);
    } else {
      ExecFinished(cfg, h, t);
    }
    Link(cfg, h, b, e, AtCleanup, Invs(cfg, h, ia, pa, PlanFrom(cfg, h, AtCleanup)), Exec(cfg, h, t));
  }

  lemma ExecAtPool(cfg: Config, h: Host, ia: Dict<ArgValue>, pa: Dict<ArgValue>, s: RunState)
    requires Good(cfg, h, ia, pa, s) && s.stage == AtPool && Shared(cfg, ia, pa)
    ensures Summary(Exec(cfg, h, s)) == After(cfg, h, s.trace, Invs(cfg, h, ia, pa, PlanFrom(cfg, h, AtPool)))
  {
    FactsBeforePool(cfg, h, ia, pa, s);
    ExecStep(cfg, h, s);
    PlanPool(cfg, h, ia, pa);
    if cfg.pool {
      ExecPoolOn(cfg, h, ia, pa, s);
    } else {
      StepPoolOff(cfg, h, ia, pa, s);
      GoodAtCleanup(cfg, h, ia, pa, s, s.trace);
      ExecAtCleanup(cfg, h, ia, pa, Step(cfg, h, s));
    }
  }

  lemma ExecAtSync(cfg: Config, h: Host, ia: Dict<ArgValue>, pa: Dict<ArgValue>, s: RunState)
    requires Good(cfg, h, ia, pa, s) && s.stage == AtSync && Shared(cfg, ia, pa)
    ensures Summary(Exec(cfg, h, s)) == After(cfg, h, s.trace, Invs(cfg, h, ia, pa, PlanFrom(cfg, h, AtSync)))
  {
    FactsBeforePool(cfg, h, ia, pa, s);
    ExecStep(cfg, h, s);
    PlanSync(cfg, h, ia, pa);
    StepSyncCall(cfg, h, ia, pa, s);
    var e := CallWith(cfg, h, ia, pa, Sync);
    var t := Step(cfg, h, s);
    if e.result.Success? {
      RecordOk(s, e, AtPool, AtCallSite);
      GoodAtPool(cfg, h, ia, pa, s, s.trace + [e]);
      ExecAtPool(cfg, h, ia, pa, t);
    } else {
      ExecFinished(cfg, h, t);
    }
    Link(cfg, h, s, e, AtPool, Invs(cfg, h, ia, pa, PlanFrom(cfg, h, AtPool)), Exec(cfg, h, t));
  }

  lemma ExecAtGuard(cfg: Config, h: Host, ia: Dict<ArgValue>, pa: Dict<ArgValue>, s: RunState)
    requires Good(cfg, h, ia, pa, s) && s.stage == AtGuard && Shared(cfg, ia, pa)
    ensures Summary(Exec(cfg, h, s)) == After(cfg, h, s.trace, Invs(cfg, h, ia, pa, PlanFrom(cfg, h, AtGuard)))
  {
    FactsBeforePool(cfg, h, ia, pa, s);
    ExecStep(cfg, h, s);
    PlanGuard(cfg, h);
    if Exceeds(cfg.deleteThreshold, DiffOf(h).remove) {
      StepGuardFires(cfg, h, s);
      ExecFinished(cfg, h, Step(cfg, h, s));
      AfterNothing(cfg, h, s.trace);
    } else {
      StepGuardPasses(cfg, h, ia, pa, s);
      if Total(DiffOf(h)) == 0 {
        ExecAtPool(cfg, h, ia, pa, Step(cfg, h, s));
      } else {
        ExecAtSync(cfg, h, ia, pa, Step(cfg, h, s));
      }
    }
  }

  lemma ExecAtDiff(cfg: Config, h: Host, ia: Dict<ArgValue>, pa: Dict<ArgValue>, s: RunState)
    requires Good(cfg, h, ia, pa, s) && s.stage == AtDiff && Shared(cfg, ia, pa)
    ensures Summary(Exec(cfg, h, s)) == After(cfg, h, s.trace, Invs(cfg, h, ia, pa, PlanFrom(cfg, h, AtDiff)))
  {
    FactsBeforePool(cfg, h, ia, pa, s);
    ExecStep(cfg, h, s);
    PlanDiff(cfg, h, ia, pa);
    var e := CallWith(cfg, h, ia, pa, Diff);
    var t := Step(cfg, h, s);
    if e.result.Success? {
      StepDiffOk(cfg, h, ia, pa, s);
      GoodAtGuard(cfg, h, ia, pa, s, s.trace + [e]);
      ExecAtGuard(cfg, h, ia, pa, t);
    } else {
      StepDiffFails(cfg, h, ia, pa, s);
      ExecFinished(cfg, h, t);
    }
    Link(cfg, h, s, e, AtGuard, Invs(cfg, h, ia, pa, PlanFrom(cfg, h, AtGuard)), Exec(cfg, h, t));
  }

  lemma ExecTouchOn(cfg: Config, h: Host, ia: Dict<ArgValue>, pa: Dict<ArgValue>, s: RunState)
    requires Good(cfg, h, ia, pa, s) && s.stage == AtTouch && Shared(cfg, ia, pa) && cfg.touch
    ensures Summary(Exec(cfg, h, Step(cfg, h, s))) ==
      After(cfg, h, s.trace, [CallWith(cfg, h, ia, pa, Touch)] + Invs(cfg, h, ia, pa, PlanFrom(cfg, h, AtDiff)))
  {
    FactsBeforePool(cfg, h, ia, pa, s);
    StepTouchOn(cfg, h, ia, pa, s);
    var e := CallWith(cfg, h, ia, pa, Touch);
    var t := Step(cfg, h, s);
    if e.result.Success? {
      RecordOk(s, e, AtDiff, InMain);
      GoodAtDiff(cfg, h, ia, pa, s, s.trace + [e]);
      ExecAtDiff(cfg, h, ia, pa, t);
    } else {
      ExecFinished(cfg, h, t);
    }
    Link(cfg, h, s, e, AtDiff, Invs(cfg, h, ia, pa, PlanFrom(cfg, h, AtDiff)), Exec(cfg, h, t));
  }

  lemma ExecAtTouch(cfg: Config, h: Host, ia: Dict<ArgValue>, pa: Dict<ArgValue>, s: RunState)
    requires Good(cfg, h, ia, pa, s) && s.stage == AtTouch && Shared(cfg, ia, pa)
    ensures Summary(Exec(cfg, h, s)) == After(cfg, h, s.trace, Invs(cfg, h, ia, pa, PlanFrom(cfg, h, AtTouch)))
  {
    FactsBeforePool(cfg, h, ia, pa, s);
    ExecStep(cfg, h, s);
    PlanTouch(cfg, h, ia, pa);
    if cfg.touch {
      ExecTouchOn(cfg, h, ia, pa, s);
    } else {
      StepTouchOff(cfg, h, s);
      GoodAtDiff(cfg, h, ia, pa, s, s.trace);
      ExecAtDiff(cfg, h, ia, pa, Step(cfg, h, s));
    }
  }

  lemma PreflightPasses(cfg: Config, h: Host)
    requires FirstFailedCheck(cfg, h).None?
    ensures Step(cfg, h, Start) == Start.(stage := AtTouch, btrfsArgs := InitialBtrfsArgs(cfg))
  {
  }

  lemma StartGood(cfg: Config, h: Host)
    ensures Good(cfg, h, InitialBtrfsArgs(cfg), PoolArgs(cfg), Start.(stage := AtTouch, btrfsArgs := InitialBtrfsArgs(cfg)))
    ensures Shared(cfg, InitialBtrfsArgs(cfg), PoolArgs(cfg))
  {
    var ia := InitialBtrfsArgs(cfg);
    GoodAtTouch(cfg, h, ia, PoolArgs(cfg), Start.(stage := AtTouch, btrfsArgs := ia));
  }

  lemma GoodAtTouch(cfg: Config, h: Host, ia: Dict<ArgValue>, pa: Dict<ArgValue>, s: RunState)
    requires UniqueKeys(ia) && s == RunState(AtTouch, ia, NoChanges, [], false, None)
    ensures Good(cfg, h, ia, pa, s)
  {
  }

  lemma PreflightFails(cfg: Config, h: Host)
    requires FirstFailedCheck(cfg, h).Some?
    ensures Exec(cfg, h, Start) == Start.(stage := Finished, failure := Some(PreflightFailed(FirstFailedCheck(cfg, h).value)))
  {
    ExecStep(cfg, h, Start);
  }

  /**
   * The machine issues exactly the planned calls, cut at the first failure,
   * fails exactly as the plan says, and logs the older-than warning exactly
   * when scrub was issued with a named plan and a positive older-than.
   */
  lemma RunMatchesPlan(cfg: Config, h: Host)
    ensures Summary(RunModel(cfg, h)) == Outcome(Issued(cfg, h), ExpectedFailure(cfg, h), ScrubWarned(cfg, Issued(cfg, h)))
  {
    if FirstFailedCheck(cfg, h).None? {
      var ia, pa := InitialBtrfsArgs(cfg), PoolArgs(cfg);
      ExecStep(cfg, h, Start);
      PreflightPasses(cfg, h);
      StartGood(cfg, h);
      ExecAtTouch(cfg, h, ia, pa, Step(cfg, h, Start));
      assert [] + UpToFailure(Invs(cfg, h, ia, pa, Planned(cfg, h))) == Issued(cfg, h);
    } else {
      PreflightFails(cfg, h);
    }
  }
}
