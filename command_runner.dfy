/**
 * `snapraid_btrfs_command`: the argument vector handed to `snapraid-btrfs`
 * and the classification of the child's exit status. The child itself is an
 * input: its exit code and the stdout lines its tee thread collected.
 */
module CommandRunner {
  import opened Wrappers
  import opened OrderedDict
  import PyText

  /** A value stored in an argument dictionary; `str(v)` renders it. */
  datatype ArgValue = Text(s: string) | Number(n: int)

  function Render(v: ArgValue): string {
    match v
    case Text(s) => s
    case Number(n) => PyText.IntToString(n)
  }

  /** The four configured paths every invocation passes. */
  datatype Tools = Tools(btrfsExe: string, snapraidConf: string, snapperExe: string, snapraidExe: string)

  /** What the child left behind: its exit status and the lines read from its stdout. */
  datatype ProcessResult = ProcessResult(exitCode: int, stdout: seq<string>)

  /** `subprocess.CalledProcessError(returncode, cmd)`. */
  datatype CalledProcessError = CalledProcessError(returncode: int, cmd: string)

  /** The `"--" + k, str(v)` pairs for a dictionary, in insertion order. */
  function Flags(d: Dict<ArgValue>): seq<string> {
    if d == [] then [] else Flags(d[..|d| - 1]) + ["--" + d[|d| - 1].0, Render(d[|d| - 1].1)]
  }

  lemma {:induction false} FlagsAt(d: Dict<ArgValue>, i: nat)
    requires i < |d|
    ensures |Flags(d)| == 2 * |d|
    ensures Flags(d)[2 * i] == "--" + d[i].0 && Flags(d)[2 * i + 1] == Render(d[i].1)
    decreases |d|
  {
    if i < |d| - 1 {
      FlagsAt(d[..|d| - 1], i);
    } else if |d| > 1 {
      FlagsAt(d[..|d| - 1], 0);
    }
  }

  lemma FlagsLength(d: Dict<ArgValue>)
    ensures |Flags(d)| == 2 * |d|
  {
    if d != [] {
      FlagsAt(d, 0);
    }
  }

  /** The argument vector for `command`, laid out as the runner lays it out. */
  function CommandLine(t: Tools, command: string, snapraidArgs: Dict<ArgValue>, btrfsArgs: Dict<ArgValue>): seq<string> {
    [t.btrfsExe, "--quiet", "--conf", t.snapraidConf, "--snapper-path", t.snapperExe, "--snapraid-path", t.snapraidExe]
    + Flags(btrfsArgs) + [command]
    + (if command == "cleanup" then [] else ["--quiet"])
    + Flags(snapraidArgs)
  }

  /**
   * Where each piece sits in the vector: the fixed connection flags, one
   * `--k v` pair per btrfs-args entry, the command, the `--quiet` that every
   * command but `cleanup` gets, then one pair per snapraid-args entry.
   */
  lemma CommandLinePositions(t: Tools, command: string, sa: Dict<ArgValue>, ba: Dict<ArgValue>)
    ensures var argv := CommandLine(t, command, sa, ba);
      var q := if command == "cleanup" then 0 else 1;
      && |argv| == 9 + 2 * |ba| + q + 2 * |sa|
      && argv[..8] == [t.btrfsExe, "--quiet", "--conf", t.snapraidConf, "--snapper-path", t.snapperExe, "--snapraid-path", t.snapraidExe]
      && (forall i :: 0 <= i < |ba| ==> argv[8 + 2 * i] == "--" + ba[i].0 && argv[9 + 2 * i] == Render(ba[i].1))
      && argv[8 + 2 * |ba|] == command
      && (q == 1 ==> argv[9 + 2 * |ba|] == "--quiet")
      && (forall j :: 0 <= j < |sa| ==>
            argv[9 + 2 * |ba| + q + 2 * j] == "--" + sa[j].0 && argv[10 + 2 * |ba| + q + 2 * j] == Render(sa[j].1))
  {
    FlagsLength(ba);
    FlagsLength(sa);
    forall i | 0 <= i < |ba| {
      FlagsAt(ba, i);
    }
    forall j | 0 <= j < |sa| {
      FlagsAt(sa, j);
    }
  }

  /**
   * Builds the vector the way the runner does: two lists grown by `extend`
   * inside `for` loops over the dictionaries, then concatenated.
   */
  method BuildArgv(t: Tools, command: string, snapraidArgs: Dict<ArgValue>, btrfsArgs: Dict<ArgValue>)
    returns (argv: seq<string>)
    ensures argv == CommandLine(t, command, snapraidArgs, btrfsArgs)
  {
    var btrfsArguments := ["--quiet", "--conf", t.snapraidConf, "--snapper-path", t.snapperExe, "--snapraid-path", t.snapraidExe];
    btrfsArguments := ExtendFlags(btrfsArguments, btrfsArgs);
    var snapraidArguments: seq<string>;
    if command == "cleanup" {
      snapraidArguments := [];
    } else {
      snapraidArguments := ["--quiet"];
    }
    snapraidArguments := ExtendFlags(snapraidArguments, snapraidArgs);
    argv := [t.btrfsExe] + btrfsArguments + [command] + snapraidArguments;
  }

  /** One of the `for k, v in ...: args.extend(["--" + k, str(v)])` loops. */
  method ExtendFlags(acc: seq<string>, d: Dict<ArgValue>) returns (r: seq<string>)
    ensures r == acc + Flags(d)
  {
    r := acc;
    for i := 0 to |d|
      invariant r == acc + Flags(d[..i])
    {
      assert d[..i + 1][..i] == d[..i];
      r := r + ["--" + d[i].0, Render(d[i].1)];
    }
    assert d[..|d|] == d;
  }

  /**
   * Exit-status classification: 0 or a listed status returns the captured
   * stdout; anything else is the error naming that status and the command.
   */
  function CheckExit(command: string, p: ProcessResult, allowStatuscodes: seq<int>): (r: Result<seq<string>, CalledProcessError>)
    ensures r.Success? <==> (p.exitCode == 0 || p.exitCode in allowStatuscodes)
    ensures r.Success? ==> r.value == p.stdout
    ensures r.Failure? ==> r.error == CalledProcessError(p.exitCode, "snapraid-btrfs " + command)
  {
    if p.exitCode == 0 || p.exitCode in allowStatuscodes then Success(p.stdout)
    else Failure(CalledProcessError(p.exitCode, "snapraid-btrfs " + command))
  }

  /**
   * One call of `snapraid_btrfs_command`: the vector the child is started
   * with, and what the call returns or raises once the child has exited.
   */
  method SnapraidBtrfsCommand(t: Tools, command: string, snapraidArgs: Dict<ArgValue>, btrfsArgs: Dict<ArgValue>,
                              allowStatuscodes: seq<int>, child: ProcessResult)
    returns (argv: seq<string>, r: Result<seq<string>, CalledProcessError>)
    ensures argv == CommandLine(t, command, snapraidArgs, btrfsArgs)
    ensures r == CheckExit(command, child, allowStatuscodes)
    ensures r.Success? <==> (child.exitCode == 0 || child.exitCode in allowStatuscodes)
    ensures r.Success? ==> r.value == child.stdout
    ensures r.Failure? ==> r.error == CalledProcessError(child.exitCode, "snapraid-btrfs " + command)
  {
    argv := BuildArgv(t, command, snapraidArgs, btrfsArgs);
    var out := child.stdout;
    var ret := child.exitCode;
    if ret == 0 || ret in allowStatuscodes {
      r := Success(out);
    } else {
      r := Failure(CalledProcessError(ret, "snapraid-btrfs " + command));
    }
  }
}
