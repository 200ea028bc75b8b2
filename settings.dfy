/**
 * `load_config`: copying the parsed sections into the eight default-empty
 * dictionaries, coercing the integer and boolean options, migrating the old
 * scrub `percentage` key and applying the command-line overrides.
 */
module Settings {
  import opened Wrappers
  import PyText

  /** One section as `configparser` hands it over: its name and its (already lower-cased) items. */
  datatype ParsedSection = ParsedSection(name: string, items: seq<(string, string)>)

  /** The command-line flags that override the file. */
  datatype Args = Args(
    conf: string,
    noPool: bool,                 // --no-pool
    noCleanup: bool,              // --no-cleanup
    noScrub: bool,                // --no-scrub
    ignoreDeleteThreshold: bool,  // --ignore-deletethreshold
    deleteThreshold: Option<int>) // -d N

  /** The `KeyError` raised when a section outside the known eight has an item. */
  datatype LoadError = UnknownSection(name: string)

  const SectionNames: set<string> := {"snapraid-btrfs", "snapper", "snapraid", "logging", "email", "smtp", "scrub", "discord"}

  /** The normalised configuration the rest of the runner reads. */
  datatype Config = Config(
    snapraidExe: string, snapraidConf: string, deleteThreshold: int, touch: bool,
    snapperExe: string,
    btrfsExe: string, snapperConfigs: string, snapperConfigsFile: string, poolDir: string, pool: bool, cleanup: bool,
    scrubEnabled: bool, scrubPlan: string, olderThan: int,
    emailSendon: string, emailMaxsize: int, emailShort: bool,
    smtpHost: string, smtpSsl: bool, smtpTls: bool,
    loggingMaxsize: int,
    discordEnabled: string, discordSendon: string, discordWebhook: Option<string>)

  /** The global `config` before coercion: section name to option name to text. */
  type Raw = map<string, map<string, string>>

  /** Reading `config[section][key]` from a `defaultdict(lambda: "")`. */
  function Get(raw: Raw, section: string, key: string): string {
    if section in raw && key in raw[section] then raw[section][key] else ""
  }

  /** One `(section, key, value)` assignment, in the order the nested loops visit them. */
  type Entry = (string, string, string)

  function SectionEntries(name: string, items: seq<(string, string)>): (es: seq<Entry>)
    ensures |es| == |items|
  {
    if items == [] then [] else SectionEntries(name, items[..|items| - 1]) + [(name, items[|items| - 1].0, items[|items| - 1].1)]
  }

  function Entries(ps: seq<ParsedSection>): seq<Entry> {
    if ps == [] then [] else Entries(ps[..|ps| - 1]) + SectionEntries(ps[|ps| - 1].name, ps[|ps| - 1].items)
  }

  /** The eight empty sections `load_config` starts from. */
  function EmptySections(): (raw: Raw)
    ensures raw.Keys == SectionNames
  {
    map n | n in SectionNames :: map[]
  }

  /** `config[section][key] = value.strip()` for a known section; `Copy` skips any other. */
  function Assign(raw: Raw, e: Entry): Raw {
    if e.0 in raw then raw[e.0 := raw[e.0][e.1 := PyText.Strip(e.2)]] else raw
  }

  /** The state of `config` after the assignments `es`, each storing its stripped value. */
  function Copy(es: seq<Entry>): Raw {
    if es == [] then EmptySections() else Assign(Copy(es[..|es| - 1]), es[|es| - 1])
  }

  /** Copying never adds or drops a section: the eight dictionaries are all there is. */
  lemma {:induction false} CopyKeys(es: seq<Entry>)
    ensures Copy(es).Keys == SectionNames
    decreases |es|
  {
    if es != [] {
      CopyKeys(es[..|es| - 1]);
    }
  }

  lemma CopySnoc(es: seq<Entry>, e: Entry)
    ensures Copy(es + [e]) == Assign(Copy(es), e)
  {
    assert (es + [e])[..|es|] == es;
  }

  lemma EntriesSnoc(ps: seq<ParsedSection>, i: nat)
    requires i < |ps|
    ensures Entries(ps[..i + 1]) == Entries(ps[..i]) + SectionEntries(ps[i].name, ps[i].items)
  {
    assert ps[..i + 1][..i] == ps[..i];
  }

  lemma SectionEntriesSnoc(name: string, items: seq<(string, string)>, j: nat)
    requires j < |items|
    ensures SectionEntries(name, items[..j + 1]) == SectionEntries(name, items[..j]) + [(name, items[j].0, items[j].1)]
  {
    assert items[..j + 1][..j] == items[..j];
  }

  /** Reference reading: the stripped value of the LAST assignment to `key` in `section`, or "". */
  function Lookup(es: seq<Entry>, section: string, key: string): string {
    if es == [] then ""
    else if es[|es| - 1].0 == section && es[|es| - 1].1 == key then PyText.Strip(es[|es| - 1].2)
    else Lookup(es[..|es| - 1], section, key)
  }

  /** For a known section, the copied dictionaries answer with the last assignment: later items overwrite earlier ones. */
  lemma {:induction false} CopyIsLastWrite(es: seq<Entry>, section: string, key: string)
    requires section in SectionNames
    ensures Get(Copy(es), section, key) == Lookup(es, section, key)
    decreases |es|
  {
    if es != [] {
      CopyIsLastWrite(es[..|es| - 1], section, key);
      CopyKeys(es[..|es| - 1]);
    }
  }

  predicate Foreign(p: ParsedSection) {
    p.name !in SectionNames && |p.items| > 0
  }

  /** The first section whose first item makes `config[section]` raise. */
  function FirstForeign(ps: seq<ParsedSection>): (r: Option<string>)
    ensures r.None? <==> forall k :: 0 <= k < |ps| ==> !Foreign(ps[k])
  {
    if ps == [] then None else if Foreign(ps[0]) then Some(ps[0].name) else FirstForeign(ps[1..])
  }

  lemma {:induction false} FirstForeignAt(ps: seq<ParsedSection>, i: nat)
    requires i < |ps| && Foreign(ps[i])
    requires forall k :: 0 <= k < i ==> !Foreign(ps[k])
    ensures FirstForeign(ps) == Some(ps[i].name)
    decreases i
  {
    if i > 0 {
      FirstForeignAt(ps[1..], i - 1);
    }
  }

  /** Lines 195-223: integer options fall back to 0, booleans are `lower() == "true"`, `percentage` replaces `plan`. */
  function Coerce(raw: Raw): Config {
    var percentage := Get(raw, "scrub", "percentage");
    var discordEnabled := Get(raw, "discord", "enabled");
    Config(
      snapraidExe := Get(raw, "snapraid", "executable"),
      snapraidConf := Get(raw, "snapraid", "config"),
      deleteThreshold := PyText.IntOrZero(Get(raw, "snapraid", "deletethreshold")),
      touch := PyText.IsTrue(Get(raw, "snapraid", "touch")),
      snapperExe := Get(raw, "snapper", "executable"),
      btrfsExe := Get(raw, "snapraid-btrfs", "executable"),
      snapperConfigs := Get(raw, "snapraid-btrfs", "snapper-configs"),
      snapperConfigsFile := Get(raw, "snapraid-btrfs", "snapper-configs-file"),
      poolDir := Get(raw, "snapraid-btrfs", "pool-dir"),
      pool := PyText.IsTrue(Get(raw, "snapraid-btrfs", "pool")),
      cleanup := PyText.IsTrue(Get(raw, "snapraid-btrfs", "cleanup")),
      scrubEnabled := PyText.IsTrue(Get(raw, "scrub", "enabled")),
      scrubPlan := if percentage != "" then percentage else Get(raw, "scrub", "plan"),
      olderThan := PyText.IntOrZero(Get(raw, "scrub", "older-than")),
      emailSendon := Get(raw, "email", "sendon"),
      emailMaxsize := PyText.IntOrZero(Get(raw, "email", "maxsize")),
      emailShort := PyText.IsTrue(Get(raw, "email", "short")),
      smtpHost := Get(raw, "smtp", "host"),
      smtpSsl := PyText.IsTrue(Get(raw, "smtp", "ssl")),
      smtpTls := PyText.IsTrue(Get(raw, "smtp", "tls")),
      loggingMaxsize := PyText.IntOrZero(Get(raw, "logging", "maxsize")),
      discordEnabled := discordEnabled,
      discordSendon := Get(raw, "discord", "sendon"),
      discordWebhook := if discordEnabled != "" then Some(Get(raw, "discord", "webhook_url")) else None)
  }

  /**
   * The command-line overrides by precedence: each `--no-…` flag turns its
   * step off, and `--ignore-deletethreshold` beats `-d`, which beats the file.
   */
  function ApplyArgs(c: Config, args: Args): Config {
    c.(
      scrubEnabled := if args.noScrub then false else c.scrubEnabled,
      deleteThreshold :=
        if args.ignoreDeleteThreshold then -1
        else if args.deleteThreshold.Some? then args.deleteThreshold.value
        else c.deleteThreshold,
      pool := if args.noPool then false else c.pool,
      cleanup := if args.noCleanup then false else c.cleanup)
  }

  /** The configuration `load_config` leaves behind for parsed sections `ps` and flags `args`. */
  function Normalise(ps: seq<ParsedSection>, args: Args): Config {
    ApplyArgs(Coerce(Copy(Entries(ps))), args)
  }

  /** The inner copy loop for one known section: `config[section][k] = v.strip()` for each item. */
  method CopySection(config: Raw, ghost before: seq<Entry>, section: ParsedSection) returns (config': Raw)
    requires section.name in SectionNames && config == Copy(before)
    ensures config' == Copy(before + SectionEntries(section.name, section.items))
  {
    CopyKeys(before);
    config' := config;
    assert section.items[..0] == [] && before + [] == before;
    for j := 0 to |section.items|
      invariant config' == Copy(before + SectionEntries(section.name, section.items[..j]))
    {
      var (k, v) := section.items[j];
      ghost var done := before + SectionEntries(section.name, section.items[..j]);
      SectionEntriesSnoc(section.name, section.items, j);
      assert before + SectionEntries(section.name, section.items[..j + 1]) == done + [(section.name, k, v)];
      CopySnoc(done, (section.name, k, v));
      CopyKeys(done);
      config' := config'[section.name := config'[section.name][k := PyText.Strip(v)]];
    }
    assert section.items[..|section.items|] == section.items;
  }

  /** Lines 225-238: the overrides, assigned one after the other as the source does. */
  method Override(c: Config, args: Args) returns (c': Config)
    ensures c' == ApplyArgs(c, args)
  {
    var scrubEnabled, deleteThreshold, pool, cleanup := c.scrubEnabled, c.deleteThreshold, c.pool, c.cleanup;
    if args.noScrub {
      scrubEnabled := false;
    }
    if args.deleteThreshold.Some? {
      deleteThreshold := args.deleteThreshold.value;
    }
    if args.ignoreDeleteThreshold {
      deleteThreshold := -1;
    }
    if args.noPool {
      pool := false;
    }
    if args.noCleanup {
      cleanup := false;
    }
    c' := c.(scrubEnabled := scrubEnabled, deleteThreshold := deleteThreshold, pool := pool, cleanup := cleanup);
  }

  /** Lines 190-193: the outer loop over the parsed sections, copying each into `config`. */
  method CopySections(ps: seq<ParsedSection>) returns (r: Result<Raw, LoadError>)
    ensures FirstForeign(ps).Some? ==> r == Failure(UnknownSection(FirstForeign(ps).value))
    ensures FirstForeign(ps).None? ==> r == Success(Copy(Entries(ps)))
  {
    var config := EmptySections();
    for i := 0 to |ps|
      invariant forall k :: 0 <= k < i ==> !Foreign(ps[k])
      invariant config == Copy(Entries(ps[..i]))
    {
      var section := ps[i];
      CopyKeys(Entries(ps[..i]));
      if |section.items| > 0 && section.name !in config {
        FirstForeignAt(ps, i);
        return Failure(UnknownSection(section.name));
      }
      EntriesSnoc(ps, i);
      if |section.items| > 0 {
        config := CopySection(config, Entries(ps[..i]), section);
      } else {
        assert SectionEntries(section.name, section.items) == [];
        assert Entries(ps[..i + 1]) == Entries(ps[..i]);
      }
    }
    assert ps[..|ps|] == ps;
    r := Success(config);
  }

  /**
   * `load_config` after the file has been parsed: the copy loops, then
   * coercion, then the overrides.
   */
  method LoadConfig(ps: seq<ParsedSection>, args: Args) returns (r: Result<Config, LoadError>)
    ensures FirstForeign(ps).Some? ==> r == Failure(UnknownSection(FirstForeign(ps).value))
    ensures FirstForeign(ps).None? ==> r == Success(Normalise(ps, args))
  {
    var copied := CopySections(ps);
    if copied.Failure? {
      return Failure(copied.error);
    }
    var cfg := Override(Coerce(copied.value), args);
    r := Success(cfg);
  }

  /**
   * The delete threshold by precedence: `--ignore-deletethreshold` gives -1
   * whatever else is set, then `-d N`, then the file's last
   * `deletethreshold`, read as an integer or 0.
   */
  lemma ThresholdPrecedence(ps: seq<ParsedSection>, args: Args)
    ensures Normalise(ps, args).deleteThreshold ==
      if args.ignoreDeleteThreshold then -1
      else if args.deleteThreshold.Some? then args.deleteThreshold.value
      else PyText.IntOrZero(Lookup(Entries(ps), "snapraid", "deletethreshold"))
  {
    CopyIsLastWrite(Entries(ps), "snapraid", "deletethreshold");
  }

  /**
   * Each step switch is the file's last value for it compared with "true"
   * after lower-casing; `--no-pool`, `--no-cleanup` and `--no-scrub` turn
   * theirs off.
   */
  lemma StepSwitches(ps: seq<ParsedSection>, args: Args)
    ensures var c := Normalise(ps, args); var es := Entries(ps);
      && c.touch == PyText.IsTrue(Lookup(es, "snapraid", "touch"))
      && c.pool == (!args.noPool && PyText.IsTrue(Lookup(es, "snapraid-btrfs", "pool")))
      && c.cleanup == (!args.noCleanup && PyText.IsTrue(Lookup(es, "snapraid-btrfs", "cleanup")))
      && c.scrubEnabled == (!args.noScrub && PyText.IsTrue(Lookup(es, "scrub", "enabled")))
  {
    var es := Entries(ps);
    CopyIsLastWrite(es, "snapraid", "touch");
    CopyIsLastWrite(es, "snapraid-btrfs", "pool");
    CopyIsLastWrite(es, "snapraid-btrfs", "cleanup");
    CopyIsLastWrite(es, "scrub", "enabled");
  }

  /**
   * The scrub plan: a non-empty `percentage` replaces `plan`; `older-than`
   * is read as an integer, falling back to 0 when `int()` refuses it.
   */
  lemma ScrubSettings(ps: seq<ParsedSection>, args: Args)
    ensures var c := Normalise(ps, args); var es := Entries(ps);
      var percentage := Lookup(es, "scrub", "percentage");
      && c.scrubPlan == (if percentage != "" then percentage else Lookup(es, "scrub", "plan"))
      && (PyText.ParseInt(Lookup(es, "scrub", "older-than")).None? ==> c.olderThan == 0)
      && (PyText.ParseInt(Lookup(es, "scrub", "older-than")).Some? ==> c.olderThan == PyText.ParseInt(Lookup(es, "scrub", "older-than")).value)
  {
    var es := Entries(ps);
    CopyIsLastWrite(es, "scrub", "percentage");
    CopyIsLastWrite(es, "scrub", "plan");
    CopyIsLastWrite(es, "scrub", "older-than");
  }

  /** The paths and the pool directory are the file's last values for them, stripped, or "" when absent. */
  lemma PathSettings(ps: seq<ParsedSection>, args: Args)
    ensures var c := Normalise(ps, args); var es := Entries(ps);
      && c.snapraidExe == Lookup(es, "snapraid", "executable")
      && c.snapraidConf == Lookup(es, "snapraid", "config")
      && c.snapperExe == Lookup(es, "snapper", "executable")
      && c.btrfsExe == Lookup(es, "snapraid-btrfs", "executable")
      && c.poolDir == Lookup(es, "snapraid-btrfs", "pool-dir")
  {
    var es := Entries(ps);
    CopyIsLastWrite(es, "snapraid", "executable");
    CopyIsLastWrite(es, "snapraid", "config");
    CopyIsLastWrite(es, "snapper", "executable");
    CopyIsLastWrite(es, "snapraid-btrfs", "executable");
    CopyIsLastWrite(es, "snapraid-btrfs", "pool-dir");
  }
}
