/**
 * The promises of `run` read off the plan of `RunProperties`: the order of
 * the commands, where a run stops, when it succeeds, what the delete guard
 * and the no-change test decide, where `pool-dir` shows up, and what scrub
 * is given. Each theorem speaks about `RunModel`, the state the machine of
 * `Orchestrator` ends in, which `Orchestrator.Run` is proved to reach.
 */
module RunTheorems {
  import opened Wrappers
  import opened OrderedDict
  import opened CommandRunner
  import opened DiffClassifier
  import opened Settings
  import opened Orchestrator
  import opened RunProperties

  /** The commands of a trace, in order. */
  function Cmds(trace: seq<Invocation>): (cs: seq<Cmd>)
    ensures |cs| == |trace| && forall i :: 0 <= i < |trace| ==> cs[i] == trace[i].cmd
  {
    if trace == [] then [] else [trace[0].cmd] + Cmds(trace[1..])
  }

  /** Strictly increasing in stage order: each command at most once, touch before diff before sync and so on. */
  predicate Ascending(cs: seq<Cmd>) {
    forall i, j :: 0 <= i < j < |cs| ==> CmdRank(cs[i]) < CmdRank(cs[j])
  }

  predicate RanksFrom(cs: seq<Cmd>, n: nat) {
    forall i :: 0 <= i < |cs| ==> CmdRank(cs[i]) >= n
  }

  /** A stage that adds `c` when `b` holds in front of a later plan `rest` keeps the order. */
  lemma LinkAscending(p: seq<Cmd>, rest: seq<Cmd>, b: bool, c: Cmd)
    requires Ascending(rest) && RanksFrom(rest, CmdRank(c) + 1)
    requires b ==> p == [c] + rest
    requires !b ==> p == rest
    ensures Ascending(p) && RanksFrom(p, CmdRank(c))
  {
  }

  lemma AscendingFromScrub(cfg: Config, h: Host)
    ensures Ascending(PlanFrom(cfg, h, AtScrub)) && RanksFrom(PlanFrom(cfg, h, AtScrub), CmdRank(Scrub))
  {
  }

  lemma AscendingFromCleanup(cfg: Config, h: Host)
    ensures Ascending(PlanFrom(cfg, h, AtCleanup)) && RanksFrom(PlanFrom(cfg, h, AtCleanup), CmdRank(Cleanup))
  {
    AscendingFromScrub(cfg, h);
    LinkAscending(PlanFrom(cfg, h, AtCleanup), PlanFrom(cfg, h, AtScrub), cfg.cleanup, Cleanup);
  }

  lemma AscendingFromPool(cfg: Config, h: Host)
    ensures Ascending(PlanFrom(cfg, h, AtPool)) && RanksFrom(PlanFrom(cfg, h, AtPool), CmdRank(Pool))
  {
    AscendingFromCleanup(cfg, h);
    LinkAscending(PlanFrom(cfg, h, AtPool), PlanFrom(cfg, h, AtCleanup), cfg.pool, Pool);
  }

  lemma AscendingFromSync(cfg: Config, h: Host)
    requires Total(DiffOf(h)) != 0
    ensures Ascending(PlanFrom(cfg, h, AtSync)) && RanksFrom(PlanFrom(cfg, h, AtSync), CmdRank(Sync))
  {
    AscendingFromPool(cfg, h);
    LinkAscending(PlanFrom(cfg, h, AtSync), PlanFrom(cfg, h, AtPool), true, Sync);
  }

  lemma AscendingFromGuard(cfg: Config, h: Host)
    ensures Ascending(PlanFrom(cfg, h, AtGuard)) && RanksFrom(PlanFrom(cfg, h, AtGuard), CmdRank(Diff) + 1)
  {
    PlanGuard(cfg, h);
    if !Exceeds(cfg.deleteThreshold, DiffOf(h).remove) {
      if Total(DiffOf(h)) == 0 {
        AscendingFromPool(cfg, h);
      } else {
        AscendingFromSync(cfg, h);
      }
    }
  }

  lemma AscendingFromDiff(cfg: Config, h: Host)
    ensures Ascending(PlanFrom(cfg, h, AtDiff)) && RanksFrom(PlanFrom(cfg, h, AtDiff), CmdRank(Diff))
  {
    AscendingFromGuard(cfg, h);
    LinkAscending(PlanFrom(cfg, h, AtDiff), PlanFrom(cfg, h, AtGuard), true, Diff);
  }

  /** The planned commands come in stage order, each at most once. */
  lemma PlannedAscending(cfg: Config, h: Host)
    ensures Ascending(Planned(cfg, h))
  {
    AscendingFromDiff(cfg, h);
    LinkAscending(Planned(cfg, h), PlanFrom(cfg, h, AtDiff), cfg.touch, Touch);
  }

  /** The plan up to the delete guard: touch if enabled, then diff, then what the guard lets through. */
  lemma PlanHead(cfg: Config, h: Host)
    ensures cfg.touch ==> Planned(cfg, h) == [Touch, Diff] + PlanFrom(cfg, h, AtGuard)
    ensures !cfg.touch ==> Planned(cfg, h) == [Diff] + PlanFrom(cfg, h, AtGuard)
  {
    assert PlanFrom(cfg, h, AtDiff) == [Diff] + PlanFrom(cfg, h, AtGuard);
  }

  /** Cutting at the first failure ends in a failure exactly when some call fails, and cuts nothing otherwise. */
  lemma UpToFailureEnds(invs: seq<Invocation>)
    ensures var r := UpToFailure(invs);
      (|r| > 0 && r[|r| - 1].result.Failure?) <==> exists i :: 0 <= i < |invs| && invs[i].result.Failure?
    ensures (forall i :: 0 <= i < |invs| ==> invs[i].result.Success?) ==> UpToFailure(invs) == invs
  {
    var r := UpToFailure(invs);
    assert forall j :: 0 <= j < |r| ==> r[j] == invs[j];
    if |r| == |invs| {
      assert r == invs;
    }
  }

  /** A call preceded only by successful calls is not cut off. */
  lemma {:induction false} UpToFailureKeeps(invs: seq<Invocation>, k: nat)
    requires k < |invs| && forall i :: 0 <= i < k ==> invs[i].result.Success?
    ensures |UpToFailure(invs)| > k
  {
    if k > 0 {
      UpToFailureKeeps(invs[1..], k - 1);
      assert UpToFailure(invs) == [invs[0]] + UpToFailure(invs[1..]);
    }
  }

  /** Past the preflight checks, the trace is the planned calls cut at the first failure. */
  lemma TraceIsPlan(cfg: Config, h: Host)
    requires FirstFailedCheck(cfg, h).None?
    ensures RunModel(cfg, h).trace == UpToFailure(Invs(cfg, h, InitialBtrfsArgs(cfg), PoolArgs(cfg), Planned(cfg, h)))
    ensures RunModel(cfg, h).failure == CommandOutcome(cfg, h, RunModel(cfg, h).trace)
  {
    RunMatchesPlan(cfg, h);
  }

  /** A failed preflight check ends the run before any command, with that check as the failure. */
  lemma PreflightStops(cfg: Config, h: Host)
    requires FirstFailedCheck(cfg, h).Some?
    ensures RunModel(cfg, h).trace == [] && !RunModel(cfg, h).warnedOlderThan
    ensures RunModel(cfg, h).failure == Some(PreflightFailed(FirstFailedCheck(cfg, h).value))
  {
    PreflightFails(cfg, h);
  }

  /**
   * Past the preflight checks, the run issues the planned commands in order,
   * each with the arguments it is due, every one but the last succeeding, and
   * stops short of the plan only at a command that fails.
   */
  lemma IssuedAsPlanned(cfg: Config, h: Host)
    requires FirstFailedCheck(cfg, h).None?
    ensures var r := RunModel(cfg, h); var p := Planned(cfg, h);
      && |r.trace| <= |p|
      && (forall i :: 0 <= i < |r.trace| ==> r.trace[i] == Expected(cfg, h, p[i]))
      && (forall i :: 0 <= i < |r.trace| - 1 ==> Ok(h, p[i]))
      && (|r.trace| < |p| ==> |r.trace| > 0 && !Ok(h, p[|r.trace| - 1]))
  {
    TraceIsPlan(cfg, h);
    PlanCalls(cfg, h, InitialBtrfsArgs(cfg), PoolArgs(cfg), Planned(cfg, h), RunModel(cfg, h).trace);
  }

  /** The planned calls cut at the first failure, stated command by command. */
  lemma PlanCalls(cfg: Config, h: Host, ia: Dict<ArgValue>, pa: Dict<ArgValue>, p: seq<Cmd>, trace: seq<Invocation>)
    requires trace == UpToFailure(Invs(cfg, h, ia, pa, p))
    ensures
      && |trace| <= |p|
      && (forall i :: 0 <= i < |trace| ==> trace[i] == CallWith(cfg, h, ia, pa, p[i]))
      && (forall i :: 0 <= i < |trace| - 1 ==> Ok(h, p[i]))
      && (|trace| < |p| ==> |trace| > 0 && !Ok(h, p[|trace| - 1]))
  {
    forall i | 0 <= i < |trace|
      ensures trace[i].result.Success? <==> Ok(h, p[i])
    {
      OkIsSuccess(cfg, h, p[i], SnapraidArgsFor(cfg, p[i]), ArgsFor(ia, pa, p[i]));
    }
  }

  /** The commands issued are a prefix of the plan; a failed preflight check issues none. */
  lemma TraceFollowsPlan(cfg: Config, h: Host)
    ensures var r := RunModel(cfg, h);
      && (FirstFailedCheck(cfg, h).Some? ==> r.trace == [])
      && |r.trace| <= |Planned(cfg, h)|
      && forall i :: 0 <= i < |r.trace| ==> r.trace[i].cmd == Planned(cfg, h)[i]
  {
    if FirstFailedCheck(cfg, h).Some? {
      PreflightStops(cfg, h);
    } else {
      IssuedAsPlanned(cfg, h);
    }
  }

  /** Once the guard fires, nothing after diff is issued. */
  lemma GuardSkipsRest(cfg: Config, h: Host)
    requires Exceeds(cfg.deleteThreshold, DiffOf(h).remove)
    ensures forall i :: 0 <= i < |RunModel(cfg, h).trace| ==> CmdRank(RunModel(cfg, h).trace[i].cmd) <= CmdRank(Diff)
  {
    TraceFollowsPlan(cfg, h);
    PlanHead(cfg, h);
    PlanGuard(cfg, h);
  }

  /** Every run issues its commands in stage order, each at most once. */
  lemma CommandsInOrder(cfg: Config, h: Host)
    ensures Ascending(Cmds(RunModel(cfg, h).trace))
  {
    TraceFollowsPlan(cfg, h);
    PlannedAscending(cfg, h);
    PrefixAscending(RunModel(cfg, h).trace, Planned(cfg, h));
  }

  /** Calls that follow an ascending plan, as far as they go, are ascending. */
  lemma PrefixAscending(trace: seq<Invocation>, p: seq<Cmd>)
    requires |trace| <= |p| && forall i :: 0 <= i < |trace| ==> trace[i].cmd == p[i]
    requires Ascending(p)
    ensures Ascending(Cmds(trace))
  {
    assert forall i :: 0 <= i < |trace| ==> Cmds(trace)[i] == p[i];
  }

  /** Only the last command issued can have failed: a failure ends the run. */
  lemma OnlyLastFails(cfg: Config, h: Host)
    ensures var r := RunModel(cfg, h);
      forall i :: 0 <= i < |r.trace| - 1 ==> r.trace[i].result.Success?
  {
    if FirstFailedCheck(cfg, h).Some? {
      PreflightStops(cfg, h);
    } else {
      TraceIsPlan(cfg, h);
    }
  }

  /**
   * A run ends with a command error exactly when its last command failed,
   * and the error is exactly that: the status and the name of that command,
   * handled in `main` for touch and diff and at the call site for the others.
   */
  lemma FailureIsLastCall(cfg: Config, h: Host)
    ensures var r := RunModel(cfg, h);
      && ((r.failure.Some? && r.failure.value.CommandFailed?) <==> (|r.trace| > 0 && r.trace[|r.trace| - 1].result.Failure?))
      && (r.failure.Some? && r.failure.value.CommandFailed? ==>
            var c := r.trace[|r.trace| - 1].cmd;
            && !Ok(h, c)
            && r.failure.value.error == CalledProcessError(Child(h, c).exitCode, "snapraid-btrfs " + Name(c))
            && (r.failure.value.handler == InMain <==> c == Touch || c == Diff))
  {
    if FirstFailedCheck(cfg, h).Some? {
      PreflightStops(cfg, h);
    } else {
      TraceIsPlan(cfg, h);
      IssuedAsPlanned(cfg, h);
    }
  }

  /**
   * A run succeeds exactly when the preflight checks pass, every planned
   * command ends with an accepted status and the delete guard does not
   * fire; it then has issued the whole plan.
   */
  lemma SucceedsIff(cfg: Config, h: Host)
    ensures Succeeded(RunModel(cfg, h)) <==>
      && FirstFailedCheck(cfg, h).None?
      && (forall i :: 0 <= i < |Planned(cfg, h)| ==> Ok(h, Planned(cfg, h)[i]))
      && !Exceeds(cfg.deleteThreshold, DiffOf(h).remove)
    ensures Succeeded(RunModel(cfg, h)) ==> Cmds(RunModel(cfg, h).trace) == Planned(cfg, h)
  {
    if FirstFailedCheck(cfg, h).Some? {
      PreflightStops(cfg, h);
    } else {
      TraceIsPlan(cfg, h);
      PlanSucceeds(cfg, h, InitialBtrfsArgs(cfg), PoolArgs(cfg), Planned(cfg, h), RunModel(cfg, h).trace);
    }
  }

  /** The planned calls end without a failure exactly when every planned command is accepted, and then all were issued. */
  lemma PlanSucceeds(cfg: Config, h: Host, ia: Dict<ArgValue>, pa: Dict<ArgValue>, p: seq<Cmd>, trace: seq<Invocation>)
    requires trace == UpToFailure(Invs(cfg, h, ia, pa, p))
    ensures !(|trace| > 0 && trace[|trace| - 1].result.Failure?) <==> forall i :: 0 <= i < |p| ==> Ok(h, p[i])
    ensures !(|trace| > 0 && trace[|trace| - 1].result.Failure?) ==> Cmds(trace) == p
  {
    var invs := Invs(cfg, h, ia, pa, p);
    UpToFailureEnds(invs);
    forall i | 0 <= i < |p|
      ensures invs[i].result.Success? <==> Ok(h, p[i])
    {
      OkIsSuccess(cfg, h, p[i], SnapraidArgsFor(cfg, p[i]), ArgsFor(ia, pa, p[i]));
    }
    if !(|trace| > 0 && trace[|trace| - 1].result.Failure?) {
      assert Cmds(trace) == p;
    }
  }

  /**
   * The delete guard ends the run exactly when touch (if enabled) and diff
   * succeeded and the removed count goes over a non-negative threshold.
   */
  lemma GuardStopsRun(cfg: Config, h: Host)
    ensures var r := RunModel(cfg, h);
      (r.failure.Some? && r.failure.value.DeleteThresholdExceeded?) <==>
        && FirstFailedCheck(cfg, h).None? && (cfg.touch ==> Ok(h, Touch)) && Ok(h, Diff)
        && Exceeds(cfg.deleteThreshold, DiffOf(h).remove)
  {
    if FirstFailedCheck(cfg, h).Some? {
      PreflightStops(cfg, h);
    } else {
      TraceIsPlan(cfg, h);
      if Exceeds(cfg.deleteThreshold, DiffOf(h).remove) {
        GuardOutcome(cfg, h, RunModel(cfg, h).trace);
      }
    }
  }

  /** With the guard condition met, the planned calls end in a failure exactly when touch or diff failed. */
  lemma GuardOutcome(cfg: Config, h: Host, trace: seq<Invocation>)
    requires Exceeds(cfg.deleteThreshold, DiffOf(h).remove)
    requires trace == UpToFailure(Invs(cfg, h, InitialBtrfsArgs(cfg), PoolArgs(cfg), Planned(cfg, h)))
    ensures (|trace| > 0 && trace[|trace| - 1].result.Failure?) <==> !((cfg.touch ==> Ok(h, Touch)) && Ok(h, Diff))
  {
    var invs := Invs(cfg, h, InitialBtrfsArgs(cfg), PoolArgs(cfg), Planned(cfg, h));
    var t, d := Expected(cfg, h, Touch), Expected(cfg, h, Diff);
    PlanHead(cfg, h);
    PlanGuard(cfg, h);
    OkIsSuccess(cfg, h, Touch, [], InitialBtrfsArgs(cfg));
    OkIsSuccess(cfg, h, Diff, [], InitialBtrfsArgs(cfg));
    assert UpToFailure([d]) == [d];
    if cfg.touch {
      assert invs == [t] + [d];
      UpToFailureCons(t, [d]);
    } else {
      assert invs == [d];
    }
  }

  /** The guard's failure reports the removed count diff produced and the threshold it went over. */
  lemma GuardReports(cfg: Config, h: Host)
    ensures var r := RunModel(cfg, h);
      r.failure.Some? && r.failure.value.DeleteThresholdExceeded? ==>
        r.failure.value == DeleteThresholdExceeded(DiffOf(h).remove, cfg.deleteThreshold)
  {
    if FirstFailedCheck(cfg, h).Some? {
      PreflightStops(cfg, h);
    } else {
      TraceIsPlan(cfg, h);
    }
  }

  /**
   * A stage after the guard whose command `c` opens what the guard lets
   * through is reached, with its planned call, once touch and diff succeed.
   */
  lemma ReachedAfterGuard(cfg: Config, h: Host, c: Cmd, tail: seq<Cmd>)
    requires FirstFailedCheck(cfg, h).None? && (cfg.touch ==> Ok(h, Touch)) && Ok(h, Diff)
    requires PlanFrom(cfg, h, AtGuard) == [c] + tail
    ensures Expected(cfg, h, c) in RunModel(cfg, h).trace
  {
    var p := Planned(cfg, h);
    var invs := Invs(cfg, h, InitialBtrfsArgs(cfg), PoolArgs(cfg), p);
    PlanHead(cfg, h);
    OkIsSuccess(cfg, h, Touch, [], InitialBtrfsArgs(cfg));
    OkIsSuccess(cfg, h, Diff, [], InitialBtrfsArgs(cfg));
    var k := if cfg.touch then 2 else 1;
    assert p[k] == c;
    UpToFailureKeeps(invs, k);
    TraceIsPlan(cfg, h);
    assert RunModel(cfg, h).trace[k] == invs[k];
  }

  /** When the guard goes straight on to pool, sync is never issued. */
  lemma SkipsSync(cfg: Config, h: Host)
    requires PlanFrom(cfg, h, AtGuard) == PlanFrom(cfg, h, AtPool)
    ensures forall i :: 0 <= i < |RunModel(cfg, h).trace| ==> RunModel(cfg, h).trace[i].cmd != Sync
  {
    PlanWithoutSync(cfg, h);
    TraceFollowsPlan(cfg, h);
    var r := RunModel(cfg, h);
    assert forall i :: 0 <= i < |r.trace| ==> r.trace[i].cmd == Planned(cfg, h)[i];
  }

  /** When the guard goes straight on to pool, the plan holds no sync. */
  lemma PlanWithoutSync(cfg: Config, h: Host)
    requires PlanFrom(cfg, h, AtGuard) == PlanFrom(cfg, h, AtPool)
    ensures forall i :: 0 <= i < |Planned(cfg, h)| ==> Planned(cfg, h)[i] != Sync
  {
    PlanHead(cfg, h);
    AscendingFromPool(cfg, h);
    var head: seq<Cmd> := if cfg.touch then [Touch, Diff] else [Diff];
    Missing(Planned(cfg, h), head, PlanFrom(cfg, h, AtPool), Sync);
  }

  /** A command that is not in `head` and ranks below all of `tail` is not in `head + tail`. */
  lemma Missing(p: seq<Cmd>, head: seq<Cmd>, tail: seq<Cmd>, c: Cmd)
    requires p == head + tail && c !in head && RanksFrom(tail, CmdRank(c) + 1)
    ensures forall i :: 0 <= i < |p| ==> p[i] != c
  {
    forall i | 0 <= i < |p|
      ensures p[i] != c
    {
      if i >= |head| {
        assert p[i] == tail[i - |head|];
      }
    }
  }

  /** When the guard goes straight on to pool, pool runs once touch and diff succeed. */
  lemma SkipsToPool(cfg: Config, h: Host)
    requires PlanFrom(cfg, h, AtGuard) == PlanFrom(cfg, h, AtPool)
    requires FirstFailedCheck(cfg, h).None? && (cfg.touch ==> Ok(h, Touch)) && Ok(h, Diff) && cfg.pool
    ensures Expected(cfg, h, Pool) in RunModel(cfg, h).trace
  {
    assert PlanFrom(cfg, h, AtPool) == [Pool] + PlanFrom(cfg, h, AtCleanup);
    ReachedAfterGuard(cfg, h, Pool, PlanFrom(cfg, h, AtCleanup));
  }

  /**
   * When diff reports no change at all, the guard cannot fire and sync is
   * never issued; pool, if enabled, still runs once touch and diff succeed.
   */
  lemma NoChangeSkipsSync(cfg: Config, h: Host)
    requires Total(DiffOf(h)) == 0
    ensures !Exceeds(cfg.deleteThreshold, DiffOf(h).remove)
    ensures forall i :: 0 <= i < |RunModel(cfg, h).trace| ==> RunModel(cfg, h).trace[i].cmd != Sync
    ensures FirstFailedCheck(cfg, h).None? && (cfg.touch ==> Ok(h, Touch)) && Ok(h, Diff) && cfg.pool ==>
      Expected(cfg, h, Pool) in RunModel(cfg, h).trace
  {
    PlanGuard(cfg, h);
    SkipsSync(cfg, h);
    if FirstFailedCheck(cfg, h).None? && (cfg.touch ==> Ok(h, Touch)) && Ok(h, Diff) && cfg.pool {
      SkipsToPool(cfg, h);
    }
  }

  /**
   * A negative threshold switches the guard off: the run never fails on
   * it, and sync runs on any change once touch and diff succeed.
   */
  lemma NegativeThresholdNeverStops(cfg: Config, h: Host)
    requires cfg.deleteThreshold < 0
    ensures var r := RunModel(cfg, h); !(r.failure.Some? && r.failure.value.DeleteThresholdExceeded?)
    ensures FirstFailedCheck(cfg, h).None? && (cfg.touch ==> Ok(h, Touch)) && Ok(h, Diff) && Total(DiffOf(h)) != 0 ==>
      Expected(cfg, h, Sync) in RunModel(cfg, h).trace
  {
    GuardStopsRun(cfg, h);
    if FirstFailedCheck(cfg, h).None? && (cfg.touch ==> Ok(h, Touch)) && Ok(h, Diff) && Total(DiffOf(h)) != 0 {
      PlanGuard(cfg, h);
      assert PlanFrom(cfg, h, AtSync) == [Sync] + PlanFrom(cfg, h, AtPool);
      ReachedAfterGuard(cfg, h, Sync, PlanFrom(cfg, h, AtPool));
    }
  }

  /** With `--ignore-deletethreshold`, whatever the file and `-d` say, the guard never ends a run. */
  lemma IgnoreDeleteThreshold(ps: seq<ParsedSection>, args: Args, h: Host)
    requires args.ignoreDeleteThreshold
    ensures var r := RunModel(Normalise(ps, args), h); !(r.failure.Some? && r.failure.value.DeleteThresholdExceeded?)
  {
    ThresholdPrecedence(ps, args);
    NegativeThresholdNeverStops(Normalise(ps, args), h);
  }

  /** Pool's arguments: the initial ones, with `pool-dir` appended when pool is enabled with a directory. */
  lemma PoolArgsShape(cfg: Config)
    ensures cfg.pool && |cfg.poolDir| > 0 ==> PoolArgs(cfg) == InitialBtrfsArgs(cfg) + [("pool-dir", Text(cfg.poolDir))]
    ensures !(cfg.pool && |cfg.poolDir| > 0) ==> PoolArgs(cfg) == InitialBtrfsArgs(cfg)
  {
    if cfg.pool && |cfg.poolDir| > 0 {
      PutNew(InitialBtrfsArgs(cfg), "pool-dir", Text(cfg.poolDir));
    }
  }

  /** Each call a run issues is the planned call of its own command. */
  lemma TraceCalls(cfg: Config, h: Host)
    ensures var r := RunModel(cfg, h);
      forall i :: 0 <= i < |r.trace| ==> r.trace[i] == Expected(cfg, h, r.trace[i].cmd)
  {
    if FirstFailedCheck(cfg, h).Some? {
      PreflightStops(cfg, h);
    } else {
      IssuedAsPlanned(cfg, h);
    }
  }

  lemma ExpectedParts(cfg: Config, h: Host, c: Cmd)
    ensures Expected(cfg, h, c).cmd == c
    ensures Expected(cfg, h, c).snapraidArgs == SnapraidArgsFor(cfg, c)
    ensures Expected(cfg, h, c).btrfsArgs == ArgsFor(InitialBtrfsArgs(cfg), PoolArgs(cfg), c)
  {
  }

  /** From pool on, with pool enabled and a directory set, `pool-dir` follows the initial shared arguments. */
  lemma PoolDirAppended(cfg: Config, c: Cmd)
    requires CmdRank(c) >= CmdRank(Pool) && cfg.pool && |cfg.poolDir| > 0
    ensures ArgsFor(InitialBtrfsArgs(cfg), PoolArgs(cfg), c) == InitialBtrfsArgs(cfg) + [("pool-dir", Text(cfg.poolDir))]
  {
    PoolArgsShape(cfg);
  }

  /** Where `pool-dir` is among the shared arguments a command is planned with, and what it names. */
  lemma PoolDirOf(cfg: Config, c: Cmd)
    ensures var ba := ArgsFor(InitialBtrfsArgs(cfg), PoolArgs(cfg), c);
      && ("pool-dir" in Keys(ba) <==> CmdRank(c) >= CmdRank(Pool) && cfg.pool && |cfg.poolDir| > 0)
      && (forall j :: 0 <= j < |ba| && ba[j].0 == "pool-dir" ==> ba[j].1 == Text(cfg.poolDir))
  {
    var ia := InitialBtrfsArgs(cfg);
    forall j | 0 <= j < |ia|
      ensures ia[j].0 != "pool-dir"
    {
      assert Keys(ia)[j] == ia[j].0;
    }
    if CmdRank(c) >= CmdRank(Pool) && cfg.pool && |cfg.poolDir| > 0 {
      PoolDirAppended(cfg, c);
      assert Keys(ia + [("pool-dir", Text(cfg.poolDir))]) == Keys(ia) + ["pool-dir"];
    } else {
      PoolArgsShape(cfg);
    }
  }

  /**
   * `pool-dir` is among the shared arguments of exactly the pool, cleanup
   * and scrub calls when pool is enabled with a directory, and then names
   * that directory; sync and the commands before it never carry it.
   */
  lemma PoolDirPropagation(cfg: Config, h: Host)
    ensures var r := RunModel(cfg, h);
      && (forall i :: 0 <= i < |r.trace| ==>
            ("pool-dir" in Keys(r.trace[i].btrfsArgs) <==> CmdRank(r.trace[i].cmd) >= CmdRank(Pool) && cfg.pool && |cfg.poolDir| > 0))
      && (forall i, j :: 0 <= i < |r.trace| && 0 <= j < |r.trace[i].btrfsArgs| && r.trace[i].btrfsArgs[j].0 == "pool-dir" ==>
            r.trace[i].btrfsArgs[j].1 == Text(cfg.poolDir))
  {
    TraceCalls(cfg, h);
    var r := RunModel(cfg, h);
    forall i | 0 <= i < |r.trace|
      ensures "pool-dir" in Keys(r.trace[i].btrfsArgs) <==> CmdRank(r.trace[i].cmd) >= CmdRank(Pool) && cfg.pool && |cfg.poolDir| > 0
      ensures forall j :: 0 <= j < |r.trace[i].btrfsArgs| && r.trace[i].btrfsArgs[j].0 == "pool-dir" ==> r.trace[i].btrfsArgs[j].1 == Text(cfg.poolDir)
    {
      ExpectedParts(cfg, h, r.trace[i].cmd);
      PoolDirOf(cfg, r.trace[i].cmd);
    }
  }

  /** The command line of one planned call of pool or later carries `--pool-dir` and the directory after the other shared arguments. */
  lemma PoolDirFlag(cfg: Config, h: Host, inv: Invocation)
    requires cfg.pool && |cfg.poolDir| > 0 && CmdRank(inv.cmd) >= CmdRank(Pool) && inv == Expected(cfg, h, inv.cmd)
    ensures var a := Argv(cfg, inv); var n := |InitialBtrfsArgs(cfg)|;
      |a| > 9 + 2 * n && a[8 + 2 * n] == "--pool-dir" && a[9 + 2 * n] == cfg.poolDir
  {
    ExpectedParts(cfg, h, inv.cmd);
    PoolDirAppended(cfg, inv.cmd);
    var ia := InitialBtrfsArgs(cfg);
    assert inv.btrfsArgs == ia + [("pool-dir", Text(cfg.poolDir))];
    AppendedFlag(ToolsOf(cfg), Name(inv.cmd), inv.snapraidArgs, ia, cfg.poolDir);
  }

  /** A `pool-dir` entry appended to the shared arguments lands right after their other flags. */
  lemma AppendedFlag(t: Tools, command: string, sa: Dict<ArgValue>, ia: Dict<ArgValue>, dir: string)
    ensures var a := CommandLine(t, command, sa, ia + [("pool-dir", Text(dir))]);
      |a| > 9 + 2 * |ia| && a[8 + 2 * |ia|] == "--pool-dir" && a[9 + 2 * |ia|] == dir
  {
    var ba := ia + [("pool-dir", Text(dir))];
    CommandLinePositions(t, command, sa, ba);
    assert ba[|ia|] == ("pool-dir", Text(dir));
  }

  /**
   * On the command line of pool, cleanup and scrub, `--pool-dir` and the
   * directory follow the other shared arguments, once pool is enabled with
   * a directory.
   */
  lemma PoolDirOnCommandLine(cfg: Config, h: Host)
    requires cfg.pool && |cfg.poolDir| > 0
    ensures var r := RunModel(cfg, h); var n := |InitialBtrfsArgs(cfg)|;
      forall i :: 0 <= i < |r.trace| && CmdRank(r.trace[i].cmd) >= CmdRank(Pool) ==>
        && |Argv(cfg, r.trace[i])| > 9 + 2 * n
        && Argv(cfg, r.trace[i])[8 + 2 * n] == "--pool-dir"
        && Argv(cfg, r.trace[i])[9 + 2 * n] == cfg.poolDir
  {
    TraceCalls(cfg, h);
    var r := RunModel(cfg, h);
    forall i | 0 <= i < |r.trace| && CmdRank(r.trace[i].cmd) >= CmdRank(Pool)
      ensures |Argv(cfg, r.trace[i])| > 9 + 2 * |InitialBtrfsArgs(cfg)|
      ensures Argv(cfg, r.trace[i])[8 + 2 * |InitialBtrfsArgs(cfg)|] == "--pool-dir"
      ensures Argv(cfg, r.trace[i])[9 + 2 * |InitialBtrfsArgs(cfg)|] == cfg.poolDir
    {
      PoolDirFlag(cfg, h, r.trace[i]);
    }
  }

  /** In stage order, every command but the last comes before scrub. */
  lemma BelowScrubBeforeLast(cs: seq<Cmd>)
    requires Ascending(cs)
    ensures forall i :: 0 <= i < |cs| - 1 ==> CmdRank(cs[i]) < CmdRank(Scrub)
  {
    forall i | 0 <= i < |cs| - 1
      ensures CmdRank(cs[i]) < CmdRank(Scrub)
    {
      assert CmdRank(cs[i]) < CmdRank(cs[|cs| - 1]);
    }
  }

  /** Scrub, when issued, is the last command. */
  lemma ScrubIsLast(cfg: Config, h: Host)
    ensures var r := RunModel(cfg, h);
      forall i :: 0 <= i < |r.trace| && r.trace[i].cmd == Scrub ==> i == |r.trace| - 1
  {
    CommandsInOrder(cfg, h);
    var r := RunModel(cfg, h);
    BelowScrubBeforeLast(Cmds(r.trace));
  }

  /** Scrub gets the plan arguments and every other command gets no snapraid arguments. */
  lemma SnapraidArgsOfCalls(cfg: Config, h: Host)
    ensures var r := RunModel(cfg, h);
      && (forall i :: 0 <= i < |r.trace| && r.trace[i].cmd == Scrub ==> r.trace[i].snapraidArgs == ScrubArgs(cfg.scrubPlan, cfg.olderThan))
      && (forall i :: 0 <= i < |r.trace| && r.trace[i].cmd != Scrub ==> r.trace[i].snapraidArgs == [])
  {
    TraceCalls(cfg, h);
    var r := RunModel(cfg, h);
    forall i | 0 <= i < |r.trace|
      ensures r.trace[i].snapraidArgs == SnapraidArgsFor(cfg, r.trace[i].cmd)
    {
      ExpectedParts(cfg, h, r.trace[i].cmd);
    }
  }

  /**
   * The older-than warning is logged exactly when scrub was issued with a
   * plan `int()` refuses and a positive older-than.
   */
  lemma ScrubWarning(cfg: Config, h: Host)
    ensures var r := RunModel(cfg, h);
      r.warnedOlderThan <==> Scrub in Cmds(r.trace) && WarnsOlderThan(cfg.scrubPlan, cfg.olderThan)
  {
    RunMatchesPlan(cfg, h);
    CommandsInOrder(cfg, h);
    WarnedIff(cfg, RunModel(cfg, h).trace);
  }

  /** On calls in stage order, the warning condition is: scrub among them and the plan warns. */
  lemma WarnedIff(cfg: Config, trace: seq<Invocation>)
    requires Ascending(Cmds(trace))
    ensures ScrubWarned(cfg, trace) <==> Scrub in Cmds(trace) && WarnsOlderThan(cfg.scrubPlan, cfg.olderThan)
  {
    BelowScrubBeforeLast(Cmds(trace));
    if Scrub in Cmds(trace) {
      var i :| 0 <= i < |trace| && Cmds(trace)[i] == Scrub;
    }
  }

  /**
   * The scrub arguments: always the plan first; `older-than` exactly when
   * `int()` accepts the plan, carrying the configured value; the warning
   * exactly when `older-than` is dropped though positive.
   */
  lemma ScrubArgsChoice(plan: string, olderThan: int)
    ensures var sa := ScrubArgs(plan, olderThan);
      && |sa| > 0 && sa[0] == ("plan", Text(plan))
      && ("older-than" in Keys(sa) <==> PyText.ParseInt(plan).Some?)
      && (forall j :: 0 <= j < |sa| && sa[j].0 == "older-than" ==> sa[j].1 == Number(olderThan))
      && (WarnsOlderThan(plan, olderThan) <==> "older-than" !in Keys(sa) && olderThan > 0)
  {
    var sa := ScrubArgs(plan, olderThan);
    assert Keys(sa)[0] == "plan";
  }

  /** A percentage plan keeps `older-than`; a named plan drops it, with the warning when it was positive. */
  lemma ScrubExamples(percent: int, named: string, olderThan: int)
    requires |named| > 0 && 'a' <= named[0] <= 'z'
    ensures var plan := PyText.IntToString(percent);
      ScrubArgs(plan, olderThan) == [("plan", Text(plan)), ("older-than", Number(olderThan))]
      && !WarnsOlderThan(plan, olderThan)
    ensures ScrubArgs(named, olderThan) == [("plan", Text(named))]
    ensures WarnsOlderThan(named, olderThan) <==> olderThan > 0
  {
    PyText.IntRoundTrip(percent);
    PyText.ParseIntLetter(named);
  }

  /**
   * The sample diff of two added files and one removed one, once the
   * preflight checks, touch and diff pass: with a threshold of 0 the guard
   * ends the run reporting one removal against 0, and sync never runs.
   */
  lemma SampleDiffStopsAtZero(cfg: Config, h: Host, a: string, b: string, c: string)
    requires FirstFailedCheck(cfg, h).None? && (cfg.touch ==> Ok(h, Touch)) && Ok(h, Diff)
    requires h.diff.stdout == ["add " + a, "add " + b, "remove " + c]
    requires cfg.deleteThreshold == 0
    ensures RunModel(cfg, h).failure == Some(DeleteThresholdExceeded(1, 0))
    ensures forall i :: 0 <= i < |RunModel(cfg, h).trace| ==> RunModel(cfg, h).trace[i].cmd != Sync
  {
    ScenarioCounts(a, b, c);
    GuardStopsRun(cfg, h);
    GuardReports(cfg, h);
    GuardSkipsRest(cfg, h);
  }

  /**
   * The same sample diff against a threshold of 1 or more (5, say): the
   * guard lets the run go on and sync runs.
   */
  lemma SampleDiffSyncsAboveOne(cfg: Config, h: Host, a: string, b: string, c: string)
    requires FirstFailedCheck(cfg, h).None? && (cfg.touch ==> Ok(h, Touch)) && Ok(h, Diff)
    requires h.diff.stdout == ["add " + a, "add " + b, "remove " + c]
    requires cfg.deleteThreshold >= 1
    ensures var r := RunModel(cfg, h); !(r.failure.Some? && r.failure.value.DeleteThresholdExceeded?)
    ensures Expected(cfg, h, Sync) in RunModel(cfg, h).trace
  {
    ScenarioCounts(a, b, c);
    GuardStopsRun(cfg, h);
    PlanGuard(cfg, h);
    assert PlanFrom(cfg, h, AtSync) == [Sync] + PlanFrom(cfg, h, AtPool);
    ReachedAfterGuard(cfg, h, Sync, PlanFrom(cfg, h, AtPool));
  }
}
