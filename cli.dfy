/** The command-line tool (bin/oauth-helper.js): the walk over the arguments
    that fills a mutable `config` object, the required-argument check, the
    yes/no confirmation, and the credentials record printed after a
    successful authorization. */
module Cli {
  import opened Wrappers
  import Text
  import OAuth

  /** The values of the `config` object; `None` is `null`. */
  datatype Settings = Settings(appId: Option<string>, appSecret: Option<string>, redirectUri: string, region: string)

  const Defaults: Settings := Settings(None, None, "http://localhost:5000", "us")

  /** How the walk over the arguments ends: it reaches the end, or it meets
      `--help`/`-h` (with the settings read so far). */
  datatype ParseOutcome = Parsed(settings: Settings) | HelpRequested(settings: Settings)

  /** `arg.split('=')[1]` for an argument `key=...`: the text between the first
      and the second `=`. */
  function EqValue(arg: string, key: string): (v: string)
    requires Text.StartsWith(arg, key + "=")
    ensures '=' !in v
  {
    assert arg[|key|] == (key + "=")[|key|];
    Text.CountPositive(arg, '=', |key|);
    Text.Split(arg, '=')[1]
  }

  /** `args[i + 1] && !args[i + 1].startsWith('--')`: there is a next
      argument that the space form may take as its value. */
  predicate TakesValue(next: Option<string>) {
    next.Some? && next.value != "" && !Text.StartsWith(next.value, "--")
  }

  /** What one pass of the loop body does with the argument `arg`, given the
      argument after it (`None` at the end): assign a setting, taking the next
      argument as the value or not, or stop for help. */
  datatype Step = Assign(settings: Settings, consumed: bool) | Help

  /** The `if`/`else if` ladder of lines 27-46. */
  function StepOf(arg: string, next: Option<string>, s: Settings): (r: Step)
    ensures r.Assign? && r.consumed ==> TakesValue(next)
  {
    if Text.StartsWith(arg, "--id=") then Assign(s.(appId := Some(EqValue(arg, "--id"))), false)
    else if arg == "--id" && TakesValue(next) then Assign(s.(appId := Some(next.value)), true)
    else if Text.StartsWith(arg, "--secret=") then Assign(s.(appSecret := Some(EqValue(arg, "--secret"))), false)
    else if arg == "--secret" && TakesValue(next) then Assign(s.(appSecret := Some(next.value)), true)
    else if Text.StartsWith(arg, "--redirect=") then Assign(s.(redirectUri := EqValue(arg, "--redirect")), false)
    else if arg == "--redirect" && TakesValue(next) then Assign(s.(redirectUri := next.value), true)
    else if Text.StartsWith(arg, "--region=") then Assign(s.(region := EqValue(arg, "--region")), false)
    else if arg == "--region" && TakesValue(next) then Assign(s.(region := next.value), true)
    else if arg == "--help" || arg == "-h" then Help
    else Assign(s, false)
  }

  function NextOf(args: seq<string>, i: nat): Option<string> {
    if i + 1 < |args| then Some(args[i + 1]) else None
  }

  /** The loop of lines 25-47, from index `i` on, as a function of the
      settings reached so far. */
  function Walk(args: seq<string>, i: nat, s: Settings): (r: ParseOutcome)
    requires i <= |args|
    ensures r.HelpRequested? ==> exists j :: i <= j < |args| && (args[j] == "--help" || args[j] == "-h")
    decreases |args| - i
  {
    if i == |args| then Parsed(s)
    else
      match StepOf(args[i], NextOf(args, i), s)
      case Help => HelpRequested(s)
      case Assign(t, consumed) => Walk(args, if consumed then i + 2 else i + 1, t)
  }

  /** The whole argument list, from the defaults. */
  function ParseArgs(args: seq<string>): (r: ParseOutcome)
    ensures args == [] ==> r == Parsed(Defaults)
    ensures r.HelpRequested? ==> "--help" in args || "-h" in args
  {
    Walk(args, 0, Defaults)
  }

  /** The `config` object the script fills in place. */
  class Config {
    var appId: Option<string>
    var appSecret: Option<string>
    var redirectUri: string
    var region: string

    function Values(): Settings
      reads this
    {
      Settings(appId, appSecret, redirectUri, region)
    }

    constructor ()
      ensures Values() == Defaults
    {
      appId := None;
      appSecret := None;
      redirectUri := "http://localhost:5000";
      region := "us";
    }

    /** The `for` loop over `args`, which advances `i` a second time when the
        space form takes its value; `help` says that it stopped at
        `--help`/`-h`, where the script shows the help and exits with 0. */
    method ParseArguments(args: seq<string>) returns (help: bool)
      modifies this
      ensures Walk(args, 0, old(Values())) == (if help then HelpRequested(Values()) else Parsed(Values()))
    {
      var i := 0;
      while i < |args|
        invariant i <= |args|
        invariant Walk(args, 0, old(Values())) == Walk(args, i, Values())
        decreases |args| - i
      {
        var next := if i + 1 < |args| then Some(args[i + 1]) else None;
        var consumed;
        consumed, help := ApplyArgument(args[i], next);
        if help {
          return;
        }
        if consumed {
          i := i + 1;
        }
        i := i + 1;
      }
      return false;
    }

    /** One pass of the loop body: the `if`/`else if` ladder on `arg`, where
        `next` is `args[i + 1]` (`None` past the end) and `consumed` says that
        the body advanced `i` to skip it. */
    method ApplyArgument(arg: string, next: Option<string>) returns (consumed: bool, help: bool)
      modifies this
      ensures StepOf(arg, next, old(Values())) == (if help then Help else Assign(Values(), consumed))
      ensures help ==> Values() == old(Values())
    {
      consumed, help := false, false;
      var takesValue := next.Some? && next.value != "" && !Text.StartsWith(next.value, "--");
      if Text.StartsWith(arg, "--id=") {
        appId := Some(EqValue(arg, "--id"));
      } else if arg == "--id" && takesValue {
        appId, consumed := Some(next.value), true;
      } else if Text.StartsWith(arg, "--secret=") {
        appSecret := Some(EqValue(arg, "--secret"));
      } else if arg == "--secret" && takesValue {
        appSecret, consumed := Some(next.value), true;
      } else if Text.StartsWith(arg, "--redirect=") {
        redirectUri := EqValue(arg, "--redirect");
      } else if arg == "--redirect" && takesValue {
        redirectUri, consumed := next.value, true;
      } else if Text.StartsWith(arg, "--region=") {
        region := EqValue(arg, "--region");
      } else if arg == "--region" && takesValue {
        region, consumed := next.value, true;
      } else if arg == "--help" || arg == "-h" {
        help := true;
      }
    }
  }

  // ---------------------------------------------------------------------------
  // Properties of the walk

  /** Walking the tail of `args + more` from inside `more` is walking `more`. */
  lemma {:induction false} WalkShift(args: seq<string>, more: seq<string>, j: nat, s: Settings)
    requires j <= |more|
    ensures Walk(args + more, |args| + j, s) == Walk(more, j, s)
    decreases |more| - j
  {
    var all := args + more;
    if j < |more| {
      assert all[|args| + j] == more[j];
      assert NextOf(all, |args| + j) == NextOf(more, j) by {
        if j + 1 < |more| {
          assert all[|args| + j + 1] == more[j + 1];
        }
      }
      match StepOf(more[j], NextOf(more, j), s) {
        case Help =>
        case Assign(t, consumed) =>
          WalkShift(args, more, if consumed then j + 2 else j + 1, t);
      }
    }
  }

  /** The next argument matters to a step only when it can be taken as a value. */
  lemma StepIgnoresUntakenNext(arg: string, n1: Option<string>, n2: Option<string>, s: Settings)
    requires !TakesValue(n1) && !TakesValue(n2)
    ensures StepOf(arg, n1, s) == StepOf(arg, n2, s)
  {
  }

  /** An argument list followed by more arguments whose first one starts with
      `--` is read in two parts: the first part cannot take that argument as a
      value, and a help request in it ends everything. */
  lemma {:induction false} WalkAppend(args: seq<string>, more: seq<string>, i: nat, s: Settings)
    requires i <= |args|
    requires more != [] && Text.StartsWith(more[0], "--")
    ensures Walk(args + more, i, s) ==
              match Walk(args, i, s)
              case Parsed(t) => Walk(more, 0, t)
              case HelpRequested(t) => HelpRequested(t)
    decreases |args| - i
  {
    var all := args + more;
    if i == |args| {
      WalkShift(args, more, 0, s);
    } else {
      assert all[i] == args[i];
      assert StepOf(args[i], NextOf(all, i), s) == StepOf(args[i], NextOf(args, i), s) by {
        if i + 1 < |args| {
          assert all[i + 1] == args[i + 1];
        } else {
          assert all[i + 1] == more[0];
          StepIgnoresUntakenNext(args[i], NextOf(all, i), NextOf(args, i), s);
        }
      }
      match StepOf(args[i], NextOf(args, i), s) {
        case Help =>
        case Assign(t, consumed) =>
          WalkAppend(args, more, if consumed then i + 2 else i + 1, t);
      }
    }
  }

  /** `"--id=" + v` stores the text of `v` before its first `=`, so
      `--secret=a=b` stores `a`. */
  lemma EqFormKeepsFirstSegment(key: string, v: string)
    requires '=' !in key
    ensures Text.StartsWith(key + "=" + v, key + "=")
    ensures EqValue(key + "=" + v, key) == Text.Before(v, '=')
  {
    assert key + "=" + v == key + ['='] + v;
    assert (key + "=" + v)[..|key + "="|] == key + "=";
    Text.SplitSecondPiece(key, '=', v);
  }

  /** The four settings the script reads from its options. */
  datatype Key = Id | Secret | Redirect | Region

  /** The option that names a setting. */
  function OptionName(k: Key): (name: string)
    ensures Text.StartsWith(name, "--") && '=' !in name
  {
    match k
    case Id => "--id"
    case Secret => "--secret"
    case Redirect => "--redirect"
    case Region => "--region"
  }

  /** The settings with the one that `k` names set to `v`. */
  function Set(s: Settings, k: Key, v: string): Settings {
    match k
    case Id => s.(appId := Some(v))
    case Secret => s.(appSecret := Some(v))
    case Redirect => s.(redirectUri := v)
    case Region => s.(region := v)
  }

  /** `--k=v` sets exactly the setting `k`, to the text of `v` before its
      first `=`, for each of the four options: no earlier rung of the ladder
      catches it. */
  lemma StepEqForm(k: Key, v: string, next: Option<string>, s: Settings)
    ensures StepOf(OptionName(k) + "=" + v, next, s) == Assign(Set(s, k, Text.Before(v, '=')), false)
  {
    var a := OptionName(k) + "=" + v;
    EqFormKeepsFirstSegment(OptionName(k), v);
    match k {
      case Id => assert "--id" + "=" == "--id=";
      case Secret =>
        assert "--secret" + "=" == "--secret=";
        DiffersAt(a, "--id=", 2);
      case Redirect =>
        assert "--redirect" + "=" == "--redirect=";
        DiffersAt(a, "--id=", 2);
        DiffersAt(a, "--secret=", 2);
      case Region =>
        assert "--region" + "=" == "--region=";
        DiffersAt(a, "--id=", 2);
        DiffersAt(a, "--secret=", 2);
        DiffersAt(a, "--redirect=", 4);
    }
  }

  lemma DiffersAt(a: string, prefix: string, i: nat)
    requires i < |a| && i < |prefix| && a[i] != prefix[i]
    ensures !Text.StartsWith(a, prefix)
  {
  }

  /** `--k v` sets the setting `k` to `v` and skips `v` exactly when `v` can
      be a value; otherwise the option is ignored. */
  lemma StepSpaceForm(k: Key, next: Option<string>, s: Settings)
    ensures TakesValue(next) ==> StepOf(OptionName(k), next, s) == Assign(Set(s, k, next.value), true)
    ensures !TakesValue(next) ==> StepOf(OptionName(k), next, s) == Assign(s, false)
  {
    var a := OptionName(k);
    match k {
      case Id =>
      case Secret => DiffersAt(a, "--id=", 2);
      case Redirect =>
        DiffersAt(a, "--id=", 2);
        DiffersAt(a, "--secret=", 2);
        DiffersAt(a, "--region=", 4);
      case Region => DiffersAt(a, "--id=", 2);
    }
  }

  /** When an option is given again at the end, in either form, the last
      occurrence is what the settings keep, whatever came before, and no
      other setting changes. */
  lemma LastOccurrenceWins(args: seq<string>, k: Key, v: string)
    requires ParseArgs(args).Parsed?
    ensures ParseArgs(args + [OptionName(k) + "=" + v]) ==
              Parsed(Set(ParseArgs(args).settings, k, Text.Before(v, '=')))
    ensures TakesValue(Some(v)) ==>
              ParseArgs(args + [OptionName(k), v]) == Parsed(Set(ParseArgs(args).settings, k, v))
  {
    var t := ParseArgs(args).settings;
    var a := OptionName(k) + "=" + v;
    assert Text.StartsWith(a, "--") by { assert a[..2] == OptionName(k)[..2]; }
    WalkAppend(args, [a], 0, Defaults);
    StepEqForm(k, v, NextOf([a], 0), t);
    if TakesValue(Some(v)) {
      WalkAppend(args, [OptionName(k), v], 0, Defaults);
      StepSpaceForm(k, Some(v), t);
    }
  }

  /** `--help` ends the walk wherever it stands after a complete argument
      list: the settings read so far are kept and nothing after it is read. */
  lemma HelpStops(args: seq<string>, rest: seq<string>)
    requires ParseArgs(args).Parsed?
    ensures ParseArgs(args + ["--help"] + rest) == HelpRequested(ParseArgs(args).settings)
  {
    assert args + ["--help"] + rest == args + (["--help"] + rest);
    assert Text.StartsWith("--help", "--");
    WalkAppend(args, ["--help"] + rest, 0, Defaults);
  }

  /** The options whose space form may take the next argument as a value. */
  const SpaceKeys: set<string> := {"--id", "--secret", "--redirect", "--region"}

  /** Only the four space-form options look at the argument after them. */
  lemma StepIgnoresNextOf(arg: string, n1: Option<string>, n2: Option<string>, s: Settings)
    requires arg !in SpaceKeys
    ensures StepOf(arg, n1, s) == StepOf(arg, n2, s)
  {
  }

  /** An argument list that does not end in a space-form option is read in
      two parts by any continuation, whatever its first argument: nothing in
      the first part can take that argument as a value. */
  lemma {:induction false} WalkAppendAfter(args: seq<string>, more: seq<string>, i: nat, s: Settings)
    requires i <= |args|
    requires args == [] || args[|args| - 1] !in SpaceKeys
    ensures Walk(args + more, i, s) ==
              match Walk(args, i, s)
              case Parsed(t) => Walk(more, 0, t)
              case HelpRequested(t) => HelpRequested(t)
    decreases |args| - i
  {
    var all := args + more;
    if i == |args| {
      WalkShift(args, more, 0, s);
    } else {
      assert all[i] == args[i];
      assert StepOf(args[i], NextOf(all, i), s) == StepOf(args[i], NextOf(args, i), s) by {
        if i + 1 < |args| {
          assert all[i + 1] == args[i + 1];
        } else {
          StepIgnoresNextOf(args[i], NextOf(all, i), NextOf(args, i), s);
        }
      }
      match StepOf(args[i], NextOf(args, i), s) {
        case Help =>
        case Assign(t, consumed) =>
          WalkAppendAfter(args, more, if consumed then i + 2 else i + 1, t);
      }
    }
  }

  /** `-h` stops the walk as `--help` does, unless it directly follows a
      space-form option, which then takes it as its value. */
  lemma ShortHelpStops(args: seq<string>, rest: seq<string>)
    requires ParseArgs(args).Parsed?
    requires args == [] || args[|args| - 1] !in SpaceKeys
    ensures ParseArgs(args + ["-h"] + rest) == HelpRequested(ParseArgs(args).settings)
  {
    assert args + ["-h"] + rest == args + (["-h"] + rest);
    WalkAppendAfter(args, ["-h"] + rest, 0, Defaults);
    var t := ParseArgs(args).settings;
    DiffersAt("-h", "--id=", 1);
    DiffersAt("-h", "--secret=", 1);
    DiffersAt("-h", "--redirect=", 1);
    DiffersAt("-h", "--region=", 1);
    assert StepOf("-h", NextOf(["-h"] + rest, 0), t) == Help;
  }

  /** An argument that is none of the recognised forms is ignored wherever it
      stands, unless the option before it takes it as a value; one that
      starts with `--` is ignored even after such an option at the end. */
  lemma UnknownOptionIgnored(args: seq<string>, a: string, rest: seq<string>)
    requires !Text.StartsWith(a, "--id=") && !Text.StartsWith(a, "--secret=")
    requires !Text.StartsWith(a, "--redirect=") && !Text.StartsWith(a, "--region=")
    requires a !in SpaceKeys && a != "--help" && a != "-h"
    ensures (args == [] || args[|args| - 1] !in SpaceKeys) ==>
              ParseArgs(args + [a] + rest) == ParseArgs(args + rest)
    ensures Text.StartsWith(a, "--") ==> ParseArgs(args + [a]) == ParseArgs(args)
  {
    if args == [] || args[|args| - 1] !in SpaceKeys {
      assert args + [a] + rest == args + ([a] + rest);
      WalkAppendAfter(args, [a] + rest, 0, Defaults);
      WalkAppendAfter(args, rest, 0, Defaults);
      var r := ParseArgs(args);
      if r.Parsed? {
        assert StepOf(a, NextOf([a] + rest, 0), r.settings) == Assign(r.settings, false);
        WalkShift([a], rest, 0, r.settings);
      }
    }
    if Text.StartsWith(a, "--") {
      WalkAppend(args, [a], 0, Defaults);
      var r := ParseArgs(args);
      if r.Parsed? {
        assert StepOf(a, NextOf([a], 0), r.settings) == Assign(r.settings, false);
        assert Walk([a], 1, r.settings) == Parsed(r.settings);
      }
    }
  }

  /** The space form takes the next argument as the value exactly when it is
      non-empty and does not start with `--`; otherwise the option is ignored
      and the next argument is read on its own. */
  lemma SpaceForm(k: Key, v: string, s: Settings)
    ensures TakesValue(Some(v)) ==> Walk([OptionName(k), v], 0, s) == Parsed(Set(s, k, v))
    ensures !TakesValue(Some(v)) ==> Walk([OptionName(k), v], 0, s) == Walk([v], 0, s)
  {
    StepSpaceForm(k, Some(v), s);
    if !TakesValue(Some(v)) {
      WalkShift([OptionName(k)], [v], 0, s);
      assert [OptionName(k)] + [v] == [OptionName(k), v];
    }
  }

  /** `-h` right after `--id` is taken as the App ID, not as a help request. */
  lemma ShortHelpCanBeAValue()
    ensures ParseArgs(["--id", "-h"]) == Parsed(Defaults.(appId := Some("-h")))
  {
    assert TakesValue(Some("-h")) by { assert "-h"[1] != '-'; }
  }

  // ---------------------------------------------------------------------------
  // Validation, confirmation and the credentials record

  /** `config.appId && config.appSecret`: both present and non-empty. */
  predicate RequiredPresent(s: Settings)
    ensures RequiredPresent(s) ==> s.appId.Some? && s.appSecret.Some?
    ensures s.appId == Some("") || s.appSecret == Some("") ==> !RequiredPresent(s)
  {
    s.appId.Some? && s.appId.value != "" && s.appSecret.Some? && s.appSecret.value != ""
  }

  /** `answer.toLowerCase() === 'yes' || answer.toLowerCase() === 'y'`.
      Lower-casing only the ASCII letters is exact here: the only other
      characters whose lower case holds an ASCII letter are U+212A (to `k`)
      and U+0130 (to `i` and a combining dot), and neither can complete
      `yes` or `y`. */
  predicate Confirmed(answer: string)
    ensures Confirmed(answer) ==> |answer| == 1 || |answer| == 3
  {
    var a := Text.ToLowerAscii(answer);
    a == "yes" || a == "y"
  }

  /** The accepted answers, listed: `y`, `yes`, in any mix of cases. */
  lemma ConfirmedAnswers(answer: string)
    ensures Confirmed(answer) <==>
              (|answer| == 1 && answer[0] in "yY") ||
              (|answer| == 3 && answer[0] in "yY" && answer[1] in "eE" && answer[2] in "sS")
  {
    var a := Text.ToLowerAscii(answer);
    if |answer| == 1 {
      assert a == "y" <==> a[0] == 'y';
    } else if |answer| == 3 {
      assert a == "yes" <==> a[0] == 'y' && a[1] == 'e' && a[2] == 's';
    } else {
      assert |a| == |answer|;
    }
  }

  /** `appSecret.substring(0, 10)`: what of the secret is shown before the prompt. */
  function SecretPreview(secret: string): (p: string)
    ensures |p| == if |secret| < 10 then |secret| else 10
    ensures Text.StartsWith(secret, p)
  {
    if |secret| < 10 then secret else secret[..10]
  }

  /** The JSON record printed after a successful authorization. */
  datatype CredentialsRecord = CredentialsRecord(
    appId: string,
    appSecret: string,
    region: string,
    accessToken: string,
    refreshToken: string,
    atExpiry: int,
    rtExpiry: int)

  /** How a run of the tool ends. */
  datatype Outcome =
    | ShowedHelp
    | MissingArguments
    | Cancelled
    | Failed(message: string)
    | Succeeded(credentials: CredentialsRecord)

  /** The code passed to `process.exit`. */
  function ExitCode(o: Outcome): (code: int)
    ensures code == 1 <==> o.MissingArguments? || o.Failed?
    ensures code == 0 || code == 1
  {
    match o
    case MissingArguments => 1
    case Failed(_) => 1
    case _ => 0
  }

  /** The whole script: `answer` is the line typed at the prompt and `start`
      what `new OAuthHelper(config).start()` settles with.  `preview` is the
      part of the secret shown before the prompt, when the prompt is reached. */
  method Run(args: seq<string>, answer: string, start: OAuth.OAuthConfig -> Result<OAuth.OAuthResult, string>)
    returns (outcome: Outcome, preview: Option<string>)
    ensures ParseArgs(args).HelpRequested? ==> outcome == ShowedHelp && preview == None
    ensures ParseArgs(args).Parsed? && !RequiredPresent(ParseArgs(args).settings) ==>
              outcome == MissingArguments && preview == None
    ensures ParseArgs(args).Parsed? && RequiredPresent(ParseArgs(args).settings) ==>
              var s := ParseArgs(args).settings;
              && preview == Some(SecretPreview(s.appSecret.value))
              && (!Confirmed(answer) ==> outcome == Cancelled)
              && (Confirmed(answer) ==>
                    var started := start(OAuth.OAuthConfig(s.appId.value, s.appSecret.value, s.redirectUri, s.region));
                    && (started.Failure? ==> outcome == Failed(started.error))
                    && (started.Success? ==>
                          outcome == Succeeded(CredentialsRecord(
                            s.appId.value, s.appSecret.value, started.value.region,
                            started.value.accessToken, started.value.refreshToken,
                            started.value.atExpiredTime, started.value.rtExpiredTime))))
  {
    var config := new Config();
    var help := config.ParseArguments(args);
    if help {
      return ShowedHelp, None;
    }
    if config.appId.None? || config.appId.value == "" || config.appSecret.None? || config.appSecret.value == "" {
      return MissingArguments, None;
    }
    preview := Some(SecretPreview(config.appSecret.value));
    if !Confirmed(answer) {
      return Cancelled, preview;
    }
    var started := start(OAuth.OAuthConfig(config.appId.value, config.appSecret.value, config.redirectUri, config.region));
    match started {
      case Failure(m) =>
        outcome := Failed(m);
      case Success(result) =>
        outcome := Succeeded(CredentialsRecord(
          config.appId.value, config.appSecret.value, result.region,
          result.accessToken, result.refreshToken, result.atExpiredTime, result.rtExpiredTime));
    }
  }
}
