/**
 * `finish` and the bit of `send_email` that decides what the mail says:
 * which notifications go out for an outcome, the shortened log the email
 * carries, and the exit status. The transports themselves (SMTP, the
 * Discord webhook) are a yes-or-no input: whether they deliver or raise.
 */
module Finalizer {
  import opened Wrappers
  import opened PyText
  import opened Settings

  /** `("error", "success")[is_success]`: the word looked for in a `sendon` option. */
  function Word(isSuccess: bool): (w: string)
    ensures |w| > 0
  {
    if isSuccess then "success" else "error"
  }

  // ------------------------------------------------------------ the email log

  const TooBigNote := "NOTE: Log was too big for email and was shortened\n\n"

  /** The marker put where the middle of an oversized log was removed. */
  function CutMarker(cutLines: nat): string {
    "[...]\n\n\n --- LOG WAS TOO BIG - " + IntToString(cutLines) + " LINES REMOVED --\n\n\n[...]"
  }

  /**
   * The log as the email carries it. With `maxsize` the option times 1024,
   * a log longer than a non-zero `maxsize` keeps `log[:maxsize // 2]` and
   * `log[-maxsize // 2:]` around a marker that counts the newlines of
   * `log[maxsize // 2:-maxsize // 2]`; `//` floors, and a negative bound
   * counts from the end, as Python reads it.
   */
  function ShortenLog(log: string, maxsizeKiB: int): (r: string)
    ensures maxsizeKiB * 1024 == 0 || |log| <= maxsizeKiB * 1024 ==> r == log
  {
    var maxsize := maxsizeKiB * 1024;
    if maxsize != 0 && |log| > maxsize then
      var cut := Occurrences(Slice(log, maxsize / 2, (-maxsize) / 2), '\n');
      TooBigNote + Slice(log, 0, maxsize / 2) + CutMarker(cut) + Slice(log, (-maxsize) / 2, |log|)
    else log
  }

  /** Counting a character is additive over concatenation. */
  lemma {:induction false} OccurrencesAppend(a: string, b: string, c: char)
    ensures Occurrences(a + b, c) == Occurrences(a, c) + Occurrences(b, c)
    decreases |b|
  {
    if b != [] {
      var b' := b[..|b| - 1];
      OccurrencesAppend(a, b', c);
      assert (a + b)[..|a + b| - 1] == a + b';
    } else {
      assert a + b == a;
    }
  }

  /**
   * An oversized log with a positive `maxsize` keeps exactly its first and
   * last `maxsize / 2` characters, the marker counting the newlines of the
   * part in between, which is all that is dropped.
   */
  lemma ShortenedLayout(log: string, maxsizeKiB: int)
    requires maxsizeKiB > 0 && |log| > maxsizeKiB * 1024
    ensures var half := maxsizeKiB * 512;
      var head, middle, tail := log[..half], log[half..|log| - half], log[|log| - half..];
      && log == head + middle + tail
      && ShortenLog(log, maxsizeKiB) == TooBigNote + head + CutMarker(Occurrences(middle, '\n')) + tail
      && |head| + |tail| == maxsizeKiB * 1024
  {
    var maxsize := maxsizeKiB * 1024;
    var half := maxsizeKiB * 512;
    assert maxsize / 2 == half && (-maxsize) / 2 == -half;
    assert Slice(log, 0, half) == log[..half];
    assert Slice(log, half, -half) == log[half..|log| - half];
    assert Slice(log, -half, |log|) == log[|log| - half..];
    assert log == log[..half] + log[half..|log| - half] + log[|log| - half..];
  }

  /** The removed-lines count is the newlines of the log less those of the parts kept. */
  lemma CutCountsRemovedLines(log: string, maxsizeKiB: int)
    requires maxsizeKiB > 0 && |log| > maxsizeKiB * 1024
    ensures var half := maxsizeKiB * 512;
      Occurrences(log[half..|log| - half], '\n') ==
        Occurrences(log, '\n') - Occurrences(log[..half], '\n') - Occurrences(log[|log| - half..], '\n')
  {
    var half := maxsizeKiB * 512;
    var head, middle, tail := log[..half], log[half..|log| - half], log[|log| - half..];
    ShortenedLayout(log, maxsizeKiB);
    OccurrencesAppend(head, middle, '\n');
    OccurrencesAppend(head + middle, tail, '\n');
  }

  /**
   * A negative `maxsize` is below every length, so even a short log gets
   * the note and the marker; the two kept slices then overlap.
   */
  lemma NegativeMaxsizeAlwaysShortens(log: string, maxsizeKiB: int)
    requires maxsizeKiB < 0
    ensures TooBigNote <= ShortenLog(log, maxsizeKiB)
  {
  }

  /** The email text: the outcome line, then the log as shortened. */
  function EmailBody(isSuccess: bool, log: string, maxsizeKiB: int): (body: string)
    ensures var header := if isSuccess then "SnapRAID job completed successfully:\n\n\n" else "Error during SnapRAID job:\n\n\n";
      header <= body && body[|header|..] == ShortenLog(log, maxsizeKiB)
  {
    (if isSuccess then "SnapRAID job completed successfully:\n\n\n" else "Error during SnapRAID job:\n\n\n")
    + ShortenLog(log, maxsizeKiB)
  }

  // ------------------------------------------------------------ finish

  /** A notification `finish` hands to a transport. */
  datatype Notice =
    | Email(body: string)
    | Discord(content: string, description: string, color: int)

  /** The webhook payload of `send_discord_notification`: the log unshortened. */
  function DiscordPayload(isSuccess: bool, log: string): Notice {
    if isSuccess then Discord("SnapRAID job completed successfully.", log, 65280)
    else Discord("Error during SnapRAID job:", log, 16711680)
  }

  /** What `finish` did: the notifications it tried, those that went through, and the exit status. */
  datatype Finished = Finished(attempted: seq<Notice>, delivered: seq<Notice>, exitCode: int)

  /** `setup_logger` creates `email_log` only when the email `sendon` option is non-empty. */
  predicate HasEmailLog(cfg: Config) {
    |cfg.emailSendon| > 0
  }

  /** `send_email` is called for this outcome and gets past its SMTP host test. */
  predicate EmailWanted(cfg: Config, isSuccess: bool) {
    Contains(cfg.emailSendon, Word(isSuccess)) && |cfg.smtpHost| > 0
  }

  /**
   * `send_discord_notification` is reached: the section's `enabled` text is
   * only checked for being non-empty, and reading `email_log` when it was
   * never created raises inside the `try`, so nothing is sent then.
   */
  predicate DiscordWanted(cfg: Config, isSuccess: bool) {
    |cfg.discordEnabled| > 0 && Contains(cfg.discordSendon, Word(isSuccess)) && HasEmailLog(cfg)
  }

  /**
   * `send_email` writes to the email log before `finish` reads it a second
   * time for Discord: the error it logs when no SMTP host is set, or the
   * traceback `logging.exception` logs when the transport raised. A
   * delivered email, or one the `sendon` option does not ask for, writes
   * nothing.
   */
  predicate EmailLogsTrail(cfg: Config, isSuccess: bool, emailDelivers: bool) {
    Contains(cfg.emailSendon, Word(isSuccess)) && (|cfg.smtpHost| == 0 || !emailDelivers)
  }

  /**
   * The text the Discord notification reads from the email log: the log
   * `send_email` read, followed by `trail`, whatever text that attempt
   * logged, when it logged anything.
   */
  function DiscordLog(cfg: Config, isSuccess: bool, log: string, trail: string, emailDelivers: bool): (r: string)
    ensures log <= r
    ensures !EmailLogsTrail(cfg, isSuccess, emailDelivers) ==> r == log
  {
    if EmailLogsTrail(cfg, isSuccess, emailDelivers) then log + trail else log
  }

  /** The email `send_email` composes, if it gets that far. */
  function EmailNotice(cfg: Config, isSuccess: bool, log: string): (n: seq<Notice>)
    ensures |n| <= 1 && (forall j :: 0 <= j < |n| ==> n[j].Email?)
    ensures n != [] <==> EmailWanted(cfg, isSuccess)
  {
    if EmailWanted(cfg, isSuccess) then [Email(EmailBody(isSuccess, log, cfg.emailMaxsize))] else []
  }

  /** The Discord notification with the log text read at that point, if `finish` gets that far. */
  function DiscordNotice(cfg: Config, isSuccess: bool, log: string): (n: seq<Notice>)
    ensures |n| <= 1 && (forall j :: 0 <= j < |n| ==> n[j].Discord?)
    ensures n != [] <==> DiscordWanted(cfg, isSuccess)
    ensures n != [] ==> n[0] == DiscordPayload(isSuccess, log)
  {
    if DiscordWanted(cfg, isSuccess) then [DiscordPayload(isSuccess, log)] else []
  }

  /**
   * `finish(is_success)` with `log` the text `email_log` holds when
   * `send_email` reads it and `trail` what that call logs before Discord
   * reads the same buffer: the email first, then Discord, each transport's
   * exception swallowed, then `sys.exit`.
   */
  function Finish(cfg: Config, isSuccess: bool, log: string, trail: string, emailDelivers: bool, discordDelivers: bool): (f: Finished)
    ensures f.attempted == EmailNotice(cfg, isSuccess, log) + DiscordNotice(cfg, isSuccess, DiscordLog(cfg, isSuccess, log, trail, emailDelivers))
  {
    var email := EmailNotice(cfg, isSuccess, log);
    var discord := DiscordNotice(cfg, isSuccess, DiscordLog(cfg, isSuccess, log, trail, emailDelivers));
    Finished(email + discord, (if emailDelivers then email else []) + (if discordDelivers then discord else []),
             if isSuccess then 0 else 1)
  }

  /**
   * Two notices agree but for what the email attempt appended to the log:
   * the same email, or Discord notices with the same content and colour
   * whose descriptions both start with `log`.
   */
  predicate SameNotice(x: Notice, y: Notice, log: string) {
    && (x.Email? ==> y == x)
    && (x.Discord? ==> y.Discord? && y.content == x.content && y.color == x.color && log <= x.description && log <= y.description)
  }

  /**
   * A transport that raises changes nothing else: the exit status, 0 for
   * success and 1 for failure, does not depend on either transport; the
   * notices tried are the same but for the text a failed email appends to
   * the log Discord carries; a failing webhook changes nothing at all; and
   * only what was tried can have been delivered.
   */
  lemma NotifierFailuresSwallowed(cfg: Config, isSuccess: bool, log: string, trail: string, e1: bool, d1: bool, e2: bool, d2: bool)
    ensures var f1, f2 := Finish(cfg, isSuccess, log, trail, e1, d1), Finish(cfg, isSuccess, log, trail, e2, d2);
      && f1.exitCode == f2.exitCode
      && (f1.exitCode == 0 <==> isSuccess) && (f1.exitCode == 1 <==> !isSuccess)
      && |f1.attempted| == |f2.attempted|
      && (forall j :: 0 <= j < |f1.attempted| ==> SameNotice(f1.attempted[j], f2.attempted[j], log))
      && (e1 == e2 ==> f1.attempted == f2.attempted)
      && (forall j :: 0 <= j < |f1.delivered| ==> f1.delivered[j] in f1.attempted)
  {
    var email := EmailNotice(cfg, isSuccess, log);
    var l1, l2 := DiscordLog(cfg, isSuccess, log, trail, e1), DiscordLog(cfg, isSuccess, log, trail, e2);
    var disc1, disc2 := DiscordNotice(cfg, isSuccess, l1), DiscordNotice(cfg, isSuccess, l2);
    if disc1 != [] {
      assert disc1[0] == DiscordPayload(isSuccess, l1) && disc2[0] == DiscordPayload(isSuccess, l2);
    }
    SameAttempts(email, disc1, disc2, log);
    DeliveredAmongTried(email, disc1, e1, d1);
  }

  /** Attempt lists that agree on the email and differ at most in the Discord description's appended text. */
  lemma SameAttempts(email: seq<Notice>, disc1: seq<Notice>, disc2: seq<Notice>, log: string)
    requires forall j :: 0 <= j < |email| ==> email[j].Email?
    requires |disc1| == |disc2| <= 1 && (disc1 != [] ==> SameNotice(disc1[0], disc2[0], log) && disc1[0].Discord?)
    ensures |email + disc1| == |email + disc2|
    ensures forall j :: 0 <= j < |email + disc1| ==> SameNotice((email + disc1)[j], (email + disc2)[j], log)
  {
    forall j | 0 <= j < |email + disc1|
      ensures SameNotice((email + disc1)[j], (email + disc2)[j], log)
    {
      if j >= |email| {
        assert (email + disc1)[j] == disc1[0] && (email + disc2)[j] == disc2[0];
      }
    }
  }

  /** Every notice a transport delivered is one that was tried. */
  lemma DeliveredAmongTried(email: seq<Notice>, discord: seq<Notice>, e: bool, d: bool)
    ensures var delivered := (if e then email else []) + (if d then discord else []);
      forall j :: 0 <= j < |delivered| ==> delivered[j] in email + discord
  {
    var em := if e then email else [];
    var delivered := em + (if d then discord else []);
    forall j | 0 <= j < |delivered|
      ensures delivered[j] in email + discord
    {
      if j < |em| {
        assert (email + discord)[j] == email[j];
      } else {
        assert (email + discord)[|email| + j - |em|] == discord[j - |em|];
      }
    }
  }

  /** The attempted list is at most one email followed by at most one Discord notice. */
  lemma Arrangement(all: seq<Notice>, email: seq<Notice>, discord: seq<Notice>)
    requires all == email + discord
    requires |email| <= 1 && (forall j :: 0 <= j < |email| ==> email[j].Email?)
    requires |discord| <= 1 && (forall j :: 0 <= j < |discord| ==> discord[j].Discord?)
    ensures (exists j :: 0 <= j < |all| && all[j].Email?) <==> email != []
    ensures (exists j :: 0 <= j < |all| && all[j].Discord?) <==> discord != []
    ensures email != [] ==> all[0] == email[0]
    ensures discord != [] ==> all[|all| - 1] == discord[0]
  {
    if email != [] {
      assert all[0].Email?;
    }
    if discord != [] {
      assert all[|all| - 1] == discord[0];
    }
  }

  /**
   * The email is tried exactly when its `sendon` contains the outcome's
   * word and an SMTP host is set; it then comes first and carries the
   * outcome line and the shortened log.
   */
  lemma EmailWhen(cfg: Config, isSuccess: bool, log: string, trail: string, emailDelivers: bool, discordDelivers: bool)
    ensures var f := Finish(cfg, isSuccess, log, trail, emailDelivers, discordDelivers);
      (exists j :: 0 <= j < |f.attempted| && f.attempted[j].Email?) <==> EmailWanted(cfg, isSuccess)
    ensures var f := Finish(cfg, isSuccess, log, trail, emailDelivers, discordDelivers);
      EmailWanted(cfg, isSuccess) ==> |f.attempted| > 0 && f.attempted[0] == Email(EmailBody(isSuccess, log, cfg.emailMaxsize))
  {
    var f := Finish(cfg, isSuccess, log, trail, emailDelivers, discordDelivers);
    var email := EmailNotice(cfg, isSuccess, log);
    var discord := DiscordNotice(cfg, isSuccess, DiscordLog(cfg, isSuccess, log, trail, emailDelivers));
    Arrangement(f.attempted, email, discord);
  }

  /**
   * Discord is tried exactly when its section is enabled, its `sendon`
   * contains the outcome's word and the email log exists; it then comes
   * last and carries the whole log, unshortened, as read after the email
   * attempt: the log the email read, followed by what a failed email
   * attempt logged, and exactly that log when the attempt logged nothing.
   */
  lemma DiscordWhen(cfg: Config, isSuccess: bool, log: string, trail: string, emailDelivers: bool, discordDelivers: bool)
    ensures var f := Finish(cfg, isSuccess, log, trail, emailDelivers, discordDelivers);
      (exists j :: 0 <= j < |f.attempted| && f.attempted[j].Discord?) <==> DiscordWanted(cfg, isSuccess)
    ensures var f := Finish(cfg, isSuccess, log, trail, emailDelivers, discordDelivers);
      DiscordWanted(cfg, isSuccess) ==>
        |f.attempted| > 0 &&
        var d := f.attempted[|f.attempted| - 1];
        d == DiscordPayload(isSuccess, d.description) &&
        d.description == (if EmailLogsTrail(cfg, isSuccess, emailDelivers) then log + trail else log)
  {
    var f := Finish(cfg, isSuccess, log, trail, emailDelivers, discordDelivers);
    var email := EmailNotice(cfg, isSuccess, log);
    var discord := DiscordNotice(cfg, isSuccess, DiscordLog(cfg, isSuccess, log, trail, emailDelivers));
    Arrangement(f.attempted, email, discord);
  }

  /** Without the email log no notification at all can be tried, whatever the Discord settings. */
  lemma NoEmailLogNoNotice(cfg: Config, isSuccess: bool, log: string, trail: string, emailDelivers: bool, discordDelivers: bool)
    requires !HasEmailLog(cfg)
    ensures Finish(cfg, isSuccess, log, trail, emailDelivers, discordDelivers).attempted == []
  {
    if Contains(cfg.emailSendon, Word(isSuccess)) {
      ContainsWitness(cfg.emailSendon, Word(isSuccess));
    }
  }

  /** `sendon` is a substring test: the word anywhere in the option's text selects the outcome. */
  lemma SendonSubstring(before: string, after: string, isSuccess: bool)
    ensures Contains(before + Word(isSuccess) + after, Word(isSuccess))
  {
    var s := before + Word(isSuccess) + after;
    assert Word(isSuccess) <= s[|before|..];
    ContainsAt(s, Word(isSuccess), |before|);
  }
}
