# snapraid-btrfs-runner, modelled in Dafny

`snapraid-btrfs-runner.py` runs one maintenance cycle of a SnapRAID array whose
data disks are btrfs subvolumes. The cycle works like this:

- It loads an INI configuration and applies command-line overrides.
- It checks that the configured tools exist.
- It calls `snapraid-btrfs` for touch, diff, sync, pool, cleanup and scrub, in that order.
- It classifies diff's output into added, removed, moved and updated files.
- It refuses to sync when more files were removed than a configured threshold.
- It ends in `finish`, which emails the captured log (shortened when too big), may post to a Discord webhook, and exits.

This project models the following in Dafny:

| Module | What it models |
|---|---|
| `CommandRunner` | The command builder and the exit-status classifier. |
| `DiffClassifier` | The diff classifier. |
| `Settings` | `load_config`. |
| `Orchestrator` | `run`, as a state machine (`Step`/`Exec`) plus an imperative `Run` method proved equal to it. |
| `Finalizer` | `finish` and the email truncation. |
| `Program` | `main`'s set-up steps and its catch-all. |

`RunProperties` and `RunTheorems` prove properties of the cycle against an independent reference: the *plan*, which is the list of commands a run would issue if none failed. `PyText` models the Python string operations the script relies on: `strip`, `lower`, `int()`, `str()`, `split(" ")[0]`, slicing with negative bounds, `count` and `in`. `OrderedDict` models a Python dictionary's insertion order.

The world outside is a parameter:

- `Host`: which executables `shutil.which` finds, which paths are files, and the exit status and stdout of each command's child.
- The parsed INI sections.
- Whether the logger set-up raises.
- The captured log text.
- What a failed email attempt adds to the email log before Discord reads it.
- Whether each notification transport delivers.

Behaviour of the code that is easy to misread:

- Diff's error is not caught at its call site, just like touch's. Both escape to `main`'s catch-all (`Handler.InMain`). The exit status and notifications are the same as for a locally caught error.
- The email size budget counts characters of the log string, not bytes.
- The Discord notification carries the whole log, not the shortened one. `finish` reads the email log a second time for it, so it also holds what `send_email` logged in between: the error about a missing SMTP host, or the traceback of a raising transport (`Finalizer.DiscordLog`).
- The Discord notification is never sent when the email `sendon` option is empty. The email log object then does not exist, and reading it raises inside a `try`.
- Discord `enabled` is never converted to a boolean: any non-empty text enables it.
- The `email.maxsize` default of 500 in `send_email` is never used, because `load_config` always stores the key (0 when absent).
- A negative `email.maxsize` counts as "too big" for every log, so `finish` then shortens even an empty log (`NegativeMaxsizeAlwaysShortens`).

## Model

| member | source | states |
|---|---|---|
| PyText.LStrip | snapraid-btrfs-runner.py:193 | result is a suffix of the input; everything dropped is whitespace; the result does not start with whitespace |
| PyText.RStrip | snapraid-btrfs-runner.py:193 | result is a prefix of the input; everything dropped is whitespace; the result does not end with whitespace |
| PyText.StripUnpadded | snapraid-btrfs-runner.py:193 | `strip` leaves a string without surrounding whitespace unchanged |
| PyText.Strip | snapraid-btrfs-runner.py:193 | `v.strip()`: its meaning is stated by `LStrip`, `RStrip` and `StripUnpadded`, and it is what `Settings.CopyIsLastWrite` says each option holds |
| PyText.Lower | snapraid-btrfs-runner.py:210-216 | same length; ASCII letters lower-cased, every other character kept |
| PyText.IsTrueSpelling | snapraid-btrfs-runner.py:210-216 | a value reads as true iff it spells `true` in any letter case (both directions) |
| PyText.IsTrue | snapraid-btrfs-runner.py:210-216 | `value.lower() == "true"`: its meaning is stated by `IsTrueSpelling` |
| PyText.ParseInt | snapraid-btrfs-runner.py:199-203 | `int()` only accepts text that is non-empty after stripping |
| PyText.ParseIntLetter | snapraid-btrfs-runner.py:413-415 | `int()` refuses text that starts with a letter, such as a named scrub plan |
| PyText.IntOrZero | snapraid-btrfs-runner.py:199-203 | the integer `int()` yields, or 0 when it raises `ValueError` |
| PyText.NatToString | snapraid-btrfs-runner.py:79-85 | `str(n)` of a natural number is a non-empty run of digits |
| PyText.NatToStringValue | snapraid-btrfs-runner.py:79-85 | the digits of `str(n)` denote `n` |
| PyText.IntRoundTrip | snapraid-btrfs-runner.py:413-425 | `int(str(n)) == n` for every integer |
| PyText.IntToString | snapraid-btrfs-runner.py:79-85 | `str(v)` of an integer: its meaning is stated by `IntRoundTrip`, `NatToString` and `NatToStringValue` |
| PyText.FirstField | snapraid-btrfs-runner.py:362 | `split(" ")[0]` is a space-free prefix of the line, ending at the first space |
| PyText.FirstFieldIs | snapraid-btrfs-runner.py:362 | the first field is word `w` iff the line is `w` or starts with `w` and a space |
| PyText.FirstFieldWhole | snapraid-btrfs-runner.py:362 | a line without spaces is its own first field |
| PyText.FirstFieldBeforeSpace | snapraid-btrfs-runner.py:362 | a line that starts with `w` and a space has first field `w` |
| PyText.SliceBound | snapraid-btrfs-runner.py:130-136 | Python's normalisation of a slice bound: in-range bounds kept, negative bounds counted from the end, clamped to the length |
| PyText.Slice | snapraid-btrfs-runner.py:130-136 | a slice is never longer than its string |
| PyText.Occurrences | snapraid-btrfs-runner.py:130 | `count` never exceeds the length |
| PyText.ContainsAt | snapraid-btrfs-runner.py:163 | an occurrence at any position makes `needle in hay` true |
| PyText.ContainsWitness | snapraid-btrfs-runner.py:163 | `needle in hay` gives a position where the needle occurs |
| PyText.Contains | snapraid-btrfs-runner.py:163 | `needle in hay`: its meaning is stated by `ContainsAt` and `ContainsWitness` (both directions) |
| OrderedDict.Keys | snapraid-btrfs-runner.py:348-351 | the keys of a dictionary, in insertion order |
| OrderedDict.Put | snapraid-btrfs-runner.py:348-351 | `d[k] = v` keeps keys unique; an existing key keeps its place and gets the new value; a new key goes last; other values are unchanged |
| OrderedDict.IndexOf | snapraid-btrfs-runner.py:391-392 | the position of a key that is present |
| OrderedDict.PutNew | snapraid-btrfs-runner.py:391-392 | inserting an absent key appends it and changes nothing else |
| CommandRunner.FlagsAt | snapraid-btrfs-runner.py:78-79 | flag pair `i` is `"--" + key` then `str(value)` of entry `i`; two vector items per entry |
| CommandRunner.FlagsLength | snapraid-btrfs-runner.py:84-85 | two vector items per dictionary entry |
| CommandRunner.CommandLine | snapraid-btrfs-runner.py:72-87 | the vector `Popen` is given: its exact layout and length are stated by `CommandLinePositions`, and `BuildArgv` proves the imperative builder equal to it |
| CommandRunner.CommandLinePositions | snapraid-btrfs-runner.py:72-87 | exact layout of the vector: executable and the fixed connection flags, one pair per btrfs-args entry, the command, `--quiet` for every command except cleanup, one pair per snapraid-args entry; exact length |
| CommandRunner.ExtendFlags | snapraid-btrfs-runner.py:78-79 | the `extend` loop appends exactly the flag pairs of the dictionary, in order |
| CommandRunner.BuildArgv | snapraid-btrfs-runner.py:72-87 | the imperative vector builder produces exactly the reference layout |
| CommandRunner.CheckExit | snapraid-btrfs-runner.py:105-108 | success iff the status is 0 or allowed; success returns stdout unchanged; failure is the error carrying that status and `snapraid-btrfs <command>` |
| CommandRunner.SnapraidBtrfsCommand | snapraid-btrfs-runner.py:67-107 | one call: the vector it starts, and success/failure exactly as classified |
| DiffClassifier.Kinds | snapraid-btrfs-runner.py:362 | the kind of each line, in order |
| DiffClassifier.Classify | snapraid-btrfs-runner.py:362-364 | the four counts together never exceed the number of lines |
| DiffClassifier.TallyCounts | snapraid-btrfs-runner.py:362-364 | one line adds one to its own kind's count and nothing to the others |
| DiffClassifier.ClassifyIsCounter | snapraid-btrfs-runner.py:362-364 | each count equals the `Counter` multiplicity of its kind among the lines |
| DiffClassifier.KindOfLine | snapraid-btrfs-runner.py:362 | a line is of kind `k` iff it is `k` alone or starts with `k` and a space |
| DiffClassifier.ScenarioCounts | snapraid-btrfs-runner.py:362-364 | two add lines and one remove line give counts (2, 1, 0, 0), whatever the paths |
| DiffClassifier.UncountedLines | snapraid-btrfs-runner.py:362-364 | a bare kind with its trailing newline, and an unknown kind, count nothing |
| Settings.SectionEntries | snapraid-btrfs-runner.py:191-192 | one assignment per item of a section |
| Settings.EmptySections | snapraid-btrfs-runner.py:189-190 | the initial configuration has exactly the eight known sections |
| Settings.CopyKeys | snapraid-btrfs-runner.py:189-193 | copying never adds or removes a section |
| Settings.CopySnoc | snapraid-btrfs-runner.py:191-192 | copying one more item is one more assignment |
| Settings.EntriesSnoc | snapraid-btrfs-runner.py:191 | the assignments of one more section follow those before |
| Settings.SectionEntriesSnoc | snapraid-btrfs-runner.py:192-193 | the assignments of one more item follow those before |
| Settings.CopyIsLastWrite | snapraid-btrfs-runner.py:190-193 | in a known section, each option holds the stripped value of its last assignment, or "" when it has none |
| Settings.FirstForeign | snapraid-btrfs-runner.py:191-192 | no section is reported iff no section outside the known eight has an item |
| Settings.FirstForeignAt | snapraid-btrfs-runner.py:191-192 | the reported section is the first one that has an item and is not known |
| Settings.CopySection | snapraid-btrfs-runner.py:192-193 | the inner copy loop leaves the configuration as the reference copy does |
| Settings.CopySections | snapraid-btrfs-runner.py:190-193 | the outer loop raises `KeyError` for the first unknown section with items; otherwise it yields the reference copy |
| Settings.Coerce | snapraid-btrfs-runner.py:195-223 | the `int()` and `lower() == "true"` conversions, the `cleanup` default and the `percentage` migration: stated by `ThresholdPrecedence`, `StepSwitches`, `ScrubSettings` and `PathSettings` |
| Settings.ApplyArgs | snapraid-btrfs-runner.py:225-238 | the command-line overrides: stated by `Override`, `ThresholdPrecedence` and `StepSwitches` |
| Settings.Normalise | snapraid-btrfs-runner.py:183-238 | the configuration `load_config` leaves: what `LoadConfig` yields, described field by field by `ThresholdPrecedence`, `StepSwitches`, `ScrubSettings` and `PathSettings` |
| Settings.Override | snapraid-btrfs-runner.py:225-238 | the sequential overrides equal the reference override precedence |
| Settings.LoadConfig | snapraid-btrfs-runner.py:183-238 | fails with the unknown section, or yields the normalised configuration |
| Settings.ThresholdPrecedence | snapraid-btrfs-runner.py:195-235 | `--ignore-deletethreshold` gives -1, else `-d N`, else the file's last value read by `int()`, or 0 |
| Settings.StepSwitches | snapraid-btrfs-runner.py:211-238 | each step switch is the file's last value compared with "true" after lower-casing; `--no-pool`, `--no-cleanup` and `--no-scrub` turn theirs off |
| Settings.ScrubSettings | snapraid-btrfs-runner.py:195-224 | a non-empty `percentage` replaces `plan`; `older-than` is `int()` of the file's value, or 0 |
| Settings.PathSettings | snapraid-btrfs-runner.py:190-193 | the tool paths and the pool directory are the file's last stripped values |
| Orchestrator.Argvs | snapraid-btrfs-runner.py:86-87 | one vector per issued call, in order |
| Orchestrator.ArgvsSnoc | snapraid-btrfs-runner.py:86-87 | one more call adds its vector at the end |
| Orchestrator.InitialBtrfsArgs | snapraid-btrfs-runner.py:345-351 | the initial shared arguments have unique keys and no `pool-dir` |
| Orchestrator.FirstFailedCheck | snapraid-btrfs-runner.py:327-343 | the four preflight checks in order: stated by `RunTheorems.PreflightStops` |
| Orchestrator.AllowedCodes | snapraid-btrfs-runner.py:359 | diff alone accepts status 2: stated by `RunProperties.OkIsSuccess` |
| Orchestrator.Exceeds | snapraid-btrfs-runner.py:368-369 | the delete guard's test: stated by `RunTheorems.GuardStopsRun`, `NegativeThresholdNeverStops`, `SampleDiffStopsAtZero` and `SampleDiffSyncsAboveOne` |
| Orchestrator.NumericPlan | snapraid-btrfs-runner.py:413-415 | whether `int()` accepts the scrub plan: stated by `RunTheorems.ScrubArgsChoice` and `ScrubExamples` |
| Orchestrator.ScrubArgs | snapraid-btrfs-runner.py:413-427 | scrub's `snapraid_args`: stated by `RunTheorems.ScrubArgsChoice` and `ScrubExamples` |
| Orchestrator.WarnsOlderThan | snapraid-btrfs-runner.py:419-422 | the older-than warning's condition: stated by `RunTheorems.ScrubWarning` and `ScrubArgsChoice` |
| Orchestrator.Record | snapraid-btrfs-runner.py:380-386 | a call is appended to the trace; an error finishes the run with that error as the failure; nothing else changes |
| Orchestrator.Step | snapraid-btrfs-runner.py:322-436 | every stage strictly advances and keeps the shared arguments' keys unique |
| Orchestrator.Exec | snapraid-btrfs-runner.py:322-436 | every run finishes |
| Orchestrator.ExecStep | snapraid-btrfs-runner.py:322-436 | running from a stage is running from its successor |
| Orchestrator.Call | snapraid-btrfs-runner.py:67-107 | one call yields the modelled invocation and its vector |
| Orchestrator.Note | snapraid-btrfs-runner.py:380-386 | recording a call extends both the trace and the vectors |
| Orchestrator.Preflight | snapraid-btrfs-runner.py:327-351 | the four checks and the initial arguments, as the machine's first stage |
| Orchestrator.TouchPhase | snapraid-btrfs-runner.py:353-356 | the touch stage, as the machine's step |
| Orchestrator.DiffPhase | snapraid-btrfs-runner.py:358-364 | the diff stage, as the machine's step |
| Orchestrator.GuardPhase | snapraid-btrfs-runner.py:368-378 | the delete guard and the no-change test, as the machine's step |
| Orchestrator.SyncPhase | snapraid-btrfs-runner.py:379-386 | the sync stage, as the machine's step |
| Orchestrator.PoolPhase | snapraid-btrfs-runner.py:388-398 | the pool stage with `pool-dir` insertion, as the machine's step |
| Orchestrator.CleanupPhase | snapraid-btrfs-runner.py:400-408 | the cleanup stage, as the machine's step |
| Orchestrator.ScrubPhase | snapraid-btrfs-runner.py:410-433 | the scrub stage, as the machine's step; it always finishes |
| Orchestrator.RunModel | snapraid-btrfs-runner.py:322-436 | the outcome of `run`: stated by `RunProperties.RunMatchesPlan`, `RunTheorems.SucceedsIff` and the other `RunTheorems` lemmas, and reached by `Run` |
| Orchestrator.Run | snapraid-btrfs-runner.py:322-436 | the imperative `run` reaches exactly the machine's final state, with the vectors of the commands it started |
| RunProperties.OkIsSuccess | snapraid-btrfs-runner.py:105-108 | a call succeeds iff its child's status is 0, or 2 for diff |
| RunProperties.PlanFrom | snapraid-btrfs-runner.py:353-433 | the commands a run issues from a stage when none fails: stated by `RunTheorems.PlanHead`, `PlannedAscending` and `ReachedAfterGuard` |
| RunProperties.Planned | snapraid-btrfs-runner.py:353-433 | the whole plan: stated by `RunTheorems.PlannedAscending`, `PlanHead`, `TraceIsPlan` and `SucceedsIff` |
| RunProperties.PoolArgsOf | snapraid-btrfs-runner.py:391-392 | adding `pool-dir` keeps keys unique |
| RunProperties.Invs | snapraid-btrfs-runner.py:322-436 | the planned calls, one per planned command |
| RunProperties.UpToFailure | snapraid-btrfs-runner.py:380-386 | a prefix of the calls; every call but the last succeeds; it stops short only at a failure |
| RunProperties.RunMatchesPlan | snapraid-btrfs-runner.py:322-436 | the machine's trace, failure and warning are those of the plan cut at the first failure |
| RunTheorems.Cmds | snapraid-btrfs-runner.py:322-436 | the commands of a trace, in order |
| RunTheorems.PlannedAscending | snapraid-btrfs-runner.py:353-433 | the plan is in stage order, each command at most once |
| RunTheorems.PlanHead | snapraid-btrfs-runner.py:353-359 | the plan starts with touch (if enabled) then diff |
| RunTheorems.UpToFailureEnds | snapraid-btrfs-runner.py:380-386 | the cut calls end in a failure iff some call fails; with no failure, nothing is cut |
| RunTheorems.UpToFailureKeeps | snapraid-btrfs-runner.py:380-386 | a call preceded only by successes is issued |
| RunTheorems.TraceIsPlan | snapraid-btrfs-runner.py:345-436 | past the preflight checks, the trace is the planned calls cut at the first failure |
| RunTheorems.PreflightStops | snapraid-btrfs-runner.py:327-343 | a failed check issues no command and is the run's failure |
| RunTheorems.IssuedAsPlanned | snapraid-btrfs-runner.py:345-436 | past the checks, each issued call is the planned one with its due arguments; all but the last succeed; the run stops short only at a failing command |
| RunTheorems.TraceFollowsPlan | snapraid-btrfs-runner.py:322-436 | the issued commands are a prefix of the plan |
| RunTheorems.GuardSkipsRest | snapraid-btrfs-runner.py:368-374 | once the guard fires, nothing after diff is issued |
| RunTheorems.CommandsInOrder | snapraid-btrfs-runner.py:353-433 | every run issues its commands in stage order, each at most once |
| RunTheorems.OnlyLastFails | snapraid-btrfs-runner.py:380-432 | only the last issued command can have failed |
| RunTheorems.FailureIsLastCall | snapraid-btrfs-runner.py:353-432 | a run ends with a command error iff its last command failed; the error carries that command's status and name; it is handled in `main` exactly for touch and diff |
| RunTheorems.SucceedsIff | snapraid-btrfs-runner.py:322-436 | success iff the checks pass, every planned command is accepted and the guard does not fire; a success issued the whole plan |
| RunTheorems.GuardStopsRun | snapraid-btrfs-runner.py:368-374 | the guard ends the run iff the checks, touch and diff pass and more files were removed than a non-negative threshold allows |
| RunTheorems.GuardReports | snapraid-btrfs-runner.py:368-374 | the guard's failure carries the removed count and the threshold |
| RunTheorems.ReachedAfterGuard | snapraid-btrfs-runner.py:376-433 | the first command after the guard is issued once touch and diff succeed |
| RunTheorems.SkipsSync | snapraid-btrfs-runner.py:376-378 | when the plan goes straight to pool, sync is never issued |
| RunTheorems.NoChangeSkipsSync | snapraid-btrfs-runner.py:376-398 | with no change, the guard cannot fire, sync never runs, and an enabled pool still runs |
| RunTheorems.SampleDiffStopsAtZero | snapraid-btrfs-runner.py:362-374 | two added files and one removed one against threshold 0: the run fails with one removal over 0 and sync never runs |
| RunTheorems.SampleDiffSyncsAboveOne | snapraid-btrfs-runner.py:362-386 | the same diff against a threshold of 1 or more: the guard does not fire and sync runs |
| RunTheorems.NegativeThresholdNeverStops | snapraid-btrfs-runner.py:368-386 | a negative threshold never stops a run, and sync runs on any change |
| RunTheorems.IgnoreDeleteThreshold | snapraid-btrfs-runner.py:233-235 | with `--ignore-deletethreshold` the guard never ends a run |
| RunTheorems.PoolArgsShape | snapraid-btrfs-runner.py:389-392 | pool's shared arguments are the initial ones, plus `pool-dir` exactly when pool is enabled with a directory |
| RunTheorems.TraceCalls | snapraid-btrfs-runner.py:345-433 | each issued call is the planned call of its command |
| RunTheorems.PoolDirPropagation | snapraid-btrfs-runner.py:389-433 | `pool-dir` is passed to exactly the pool, cleanup and scrub calls when pool is enabled with a directory, naming that directory |
| RunTheorems.PoolDirFlag | snapraid-btrfs-runner.py:389-394 | a planned call from pool on carries `--pool-dir` and the directory right after the other shared flags |
| RunTheorems.PoolDirOnCommandLine | snapraid-btrfs-runner.py:389-433 | every issued pool, cleanup and scrub vector carries `--pool-dir` and the directory at that position |
| RunTheorems.ScrubIsLast | snapraid-btrfs-runner.py:410-436 | scrub, when issued, is the last command |
| RunTheorems.SnapraidArgsOfCalls | snapraid-btrfs-runner.py:410-429 | scrub gets the plan arguments; every other command gets no snapraid arguments |
| RunTheorems.ScrubWarning | snapraid-btrfs-runner.py:410-422 | the older-than warning is logged iff scrub was issued with a plan `int()` refuses and a positive older-than |
| RunTheorems.ScrubArgsChoice | snapraid-btrfs-runner.py:413-427 | the plan comes first; `older-than` is present iff `int()` accepts the plan, with the configured value; the warning is logged iff `older-than` is dropped though positive |
| RunTheorems.ScrubExamples | snapraid-btrfs-runner.py:413-427 | a numeric plan keeps `older-than` without warning; a named plan drops it and warns iff it is positive |
| Finalizer.Word | snapraid-btrfs-runner.py:163 | the outcome word is never empty |
| Finalizer.ShortenLog | snapraid-btrfs-runner.py:128-136 | a log within a non-zero budget, or any log when the budget is 0, is sent unchanged |
| Finalizer.OccurrencesAppend | snapraid-btrfs-runner.py:130 | counting newlines is additive over concatenation |
| Finalizer.ShortenedLayout | snapraid-btrfs-runner.py:128-136 | an oversized log keeps exactly its first and last `maxsize / 2` characters, which partition it with the removed middle, around the note and the marker counting the middle's newlines |
| Finalizer.CutCountsRemovedLines | snapraid-btrfs-runner.py:130 | the reported count is the log's newlines minus those of the kept head and tail |
| Finalizer.EmailBody | snapraid-btrfs-runner.py:122-137 | the body is the outcome header followed by the shortened log |
| Finalizer.DiscordPayload | snapraid-btrfs-runner.py:42-52 | the webhook payload's content, description and color: stated by `DiscordWhen` and `NotifierFailuresSwallowed` |
| Finalizer.EmailWanted | snapraid-btrfs-runner.py:116-165 | `send_email` is reached with a host: stated by `EmailNotice` and `EmailWhen` |
| Finalizer.DiscordWanted | snapraid-btrfs-runner.py:169-172 | `send_discord_notification` is reached: stated by `DiscordNotice` and `DiscordWhen` |
| Finalizer.EmailLogsTrail | snapraid-btrfs-runner.py:116-167 | `send_email` logs before Discord reads the log: stated by `DiscordLog` and `DiscordWhen` |
| Finalizer.DiscordLog | snapraid-btrfs-runner.py:116-172 | the text Discord reads starts with the log `send_email` read, and equals it unless the email was wanted and had no host or its transport raised |
| Finalizer.EmailNotice | snapraid-btrfs-runner.py:116-165 | at most one email; present iff `sendon` names the outcome and an SMTP host is set |
| Finalizer.DiscordNotice | snapraid-btrfs-runner.py:169-172 | at most one Discord notice; present iff Discord is enabled, its `sendon` names the outcome and the email log exists |
| Finalizer.Finish | snapraid-btrfs-runner.py:162-180 | the notifications tried are the email, then the Discord notice built from the email log as it stands after `send_email` (`DiscordLog`) |
| Finalizer.NotifierFailuresSwallowed | snapraid-btrfs-runner.py:162-180 | whether the transports raise changes neither the exit status (0 iff success, else 1) nor how many notifications are tried; each one keeps its kind, content and color, an email stays the same, and a Discord description still starts with the log; with the same email outcome the notifications are identical; only tried notifications are delivered |
| Finalizer.Arrangement | snapraid-btrfs-runner.py:162-174 | the email, if any, is first; the Discord notice, if any, is last |
| Finalizer.EmailWhen | snapraid-btrfs-runner.py:116-165 | an email is tried iff `sendon` names the outcome and an SMTP host is set; it comes first with the outcome header and the shortened log |
| Finalizer.DiscordWhen | snapraid-btrfs-runner.py:163-172 | a Discord notice is tried iff enabled, named in its `sendon`, and the email log exists; it comes last with the outcome's payload, and its description is the whole log, followed by what `send_email` logged exactly when the email was wanted and had no SMTP host or its transport raised |
| Finalizer.NoEmailLogNoNotice | snapraid-btrfs-runner.py:163-174 | with an empty email `sendon`, nothing at all is sent |
| Finalizer.SendonSubstring | snapraid-btrfs-runner.py:163 | the outcome word anywhere in `sendon` selects that outcome |
| Program.MainModel | snapraid-btrfs-runner.py:274-319 | how `main` ends: the exit status, the vectors started and the notifications tried, stated by `ExitStatus` and reached by `RunnerMain` |
| Program.RunnerMain | snapraid-btrfs-runner.py:296-319 | the imperative `main` ends exactly as its reference does |
| Program.ExitStatus | snapraid-btrfs-runner.py:296-319 | exit 2 iff set-up fails, and then nothing runs or is sent; otherwise exit 0 iff the checks pass, every planned command is accepted and the guard does not fire; exit 1 in every other case |

## Left out

- Process spawning, the two stdout/stderr tee threads and the 0.3 s delay (lines 25-40, 86-103). Each child is reduced to its exit status and stdout lines, which `Host` supplies.
- Logging: console, rotating file, email log handler, levels, and the `short` option that filters program output. The captured log and what a failed email attempt appends to it (`Environment.emailTrail`) are inputs to `finish`; their wording, timestamps and tracebacks are not modelled.
- SMTP and MIME: the subject, sender, recipient, port, SSL/TLS, login and quoted-printable charset (lines 112-159). An email is reduced to its body and whether the transport delivered it.
- The Discord HTTP POST and its per-exception logging (lines 54-65). A notice is reduced to its payload fields and whether it was delivered.
- `configparser` and `argparse`. The parsed sections and the parsed flags are inputs. A parser exception is `Environment.parsed == None`.
- `shutil.which` and `os.path.isfile`/`exists` are reduced to sets of names in `Host` and to a boolean in `Environment`.
- `sys.exit` as control flow. `finish` returns its exit status. Each `finish(False)` inside `run` ends the machine at the stage that calls it.
- PyText.ParseInt: only ASCII digits are modelled. Python's `int()` also accepts other Unicode decimal digits (`int("５") == 5`, `int("٨٠") == 80`). In the model such text reads as not a number, which affects `snapraid.deletethreshold`, `scrub.older-than`, `logging.maxsize` and `email.maxsize` (0 instead of the value) and the numeric-or-named choice of the scrub plan.
- PyText.Lower: only `A`-`Z` are lower-cased. Python's `lower()` maps every cased character and can change the length (`"İ".lower()` has two characters). The one use, the `lower() == "true"` test of `IsTrue`, is still exact, because no character outside `A`-`Z` lower-cases to `t`, `r`, `u` or `e`.
- Finalizer.NegativeMaxsizeAlwaysShortens: states only that the note is added. It does not describe the overlapping head and tail Python then keeps.
- `discord_webhook_url` (line 219) is not modelled. The webhook address never affects what the runner decides.
