/**
 * `deploy.js`: the command line. Two passes over the arguments (flags, then commands), the
 * choice between dynamic, full and single-file deployment, the directory deployments with
 * their results and log entries, and the parent-directory mode that deploys every app below
 * an `apps` directory.
 *
 * The clock is a `duration` and a `timestamp` parameter; the file system is given as listings
 * and file contents; the deployment log is a `Logging.DeploymentLog`.
 */
module DeployCli {
  import opened Wrappers
  import opened Json
  import opened Text
  import Utils
  import Logging
  import DD = DynamicDeploy
  import MM = ManifestManager

  // ---------- Options ----------

  /** The `options` object `main` builds; `None` stands for a property left undefined. */
  datatype Options = Options(
    testMode: bool,
    dryRun: bool,
    announceDiscord: bool,
    triggerAnnouncement: bool,
    triggerGithubDeploy: bool,
    useDynamic: bool,
    customUndername: Option<string>,
    useRootName: bool,
    filePath: Option<string>,
    content: Option<string>,
    commitMessage: Option<string>)

  /** `{}` as `deployFile` reads it: every switch off except `useDynamic`, which defaults to `true`. */
  const NoOptions := Options(false, false, false, false, false, true, None, false, None, None, None)

  const CustomUndernameError := "--customUndername requires a value"

  /** `args[i]`, undefined past the end. */
  function ArgAt(args: seq<string>, i: nat): (r: Option<string>)
    ensures r.Some? <==> i < |args|
    ensures r.Some? ==> r.value == args[i]
  {
    if i < |args| then Some(args[i]) else None
  }

  /** The flags the first pass acts on. */
  datatype Flag =
    | TestMode | DryRun | AnnounceDiscord | TriggerAnnouncement | TriggerGithubDeploy
    | NoDynamic | UseRootName | CustomUndername | NotAFlag

  /** The flag an argument names. */
  function FlagOf(arg: string): Flag {
    if arg == "--test-mode" then TestMode
    else if arg == "--dry-run" then DryRun
    else if arg == "--announce-discord" then AnnounceDiscord
    else if arg == "--trigger-announcement" then TriggerAnnouncement
    else if arg == "--trigger-github-deploy" then TriggerGithubDeploy
    else if arg == "--no-dynamic" then NoDynamic
    else if arg == "--useRootName" then UseRootName
    else if arg == "--customUndername" then CustomUndername
    else NotAFlag
  }

  /** The argument naming a flag. */
  function FlagName(f: Flag): string
    requires !f.NotAFlag?
  {
    match f
    case TestMode => "--test-mode"
    case DryRun => "--dry-run"
    case AnnounceDiscord => "--announce-discord"
    case TriggerAnnouncement => "--trigger-announcement"
    case TriggerGithubDeploy => "--trigger-github-deploy"
    case NoDynamic => "--no-dynamic"
    case UseRootName => "--useRootName"
    case CustomUndername => "--customUndername"
  }

  /** An argument names a flag exactly when it is that flag's name. */
  lemma FlagOfName(arg: string, f: Flag)
    requires !f.NotAFlag?
    ensures FlagOf(arg) == f <==> arg == FlagName(f)
  {
  }

  /** What one flag other than `--customUndername` does to the options in the first pass. */
  function FlagEffect(o: Options, f: Flag): Options {
    match f
    case TestMode => o.(testMode := true)
    case DryRun => o.(dryRun := true)
    case AnnounceDiscord => o.(announceDiscord := true)
    case TriggerAnnouncement => o.(triggerAnnouncement := true)
    case TriggerGithubDeploy => o.(triggerGithubDeploy := true)
    case NoDynamic => o.(useDynamic := false)
    case UseRootName => o.(useRootName := true)
    case _ => o
  }

  /** The first pass from argument `i` on: `--customUndername` takes the next argument, which must be non-empty. */
  function Flags(args: seq<string>, i: nat, o: Options): Result<Options>
    decreases |args| - i
  {
    if i >= |args| then Ok(o)
    else if FlagOf(args[i]) == CustomUndername then
      if i + 1 < |args| && args[i + 1] != "" then Flags(args, i + 2, o.(customUndername := Some(args[i + 1])))
      else Err(CustomUndernameError)
    else Flags(args, i + 1, FlagEffect(o, FlagOf(args[i])))
  }

  /** The first loop of `main`. */
  method ParseFlags(args: seq<string>) returns (r: Result<Options>)
    ensures r == Flags(args, 0, NoOptions)
  {
    var options := NoOptions;
    var i := 0;
    while i < |args|
      invariant 0 <= i <= |args|
      invariant Flags(args, 0, NoOptions) == Flags(args, i, options)
      decreases |args| - i
    {
      var flag := FlagOf(args[i]);
      if flag == CustomUndername {
        i := i + 1;
        if i >= |args| || args[i] == "" {
          return Err(CustomUndernameError);
        }
        options := options.(customUndername := Some(args[i]));
      } else {
        options := FlagEffect(options, flag);
      }
      i := i + 1;
    }
    return Ok(options);
  }

  /** The options after applying the simple flags of `xs` in order. */
  function Applied(o: Options, xs: seq<string>): Options
    decreases |xs|
  {
    if |xs| == 0 then o else Applied(FlagEffect(o, FlagOf(xs[0])), xs[1..])
  }

  /** Without `--customUndername`, the first pass applies each flag in turn and cannot fail. */
  lemma {:induction false} FlagsWithoutUndername(args: seq<string>, i: nat, o: Options)
    requires i <= |args| && "--customUndername" !in args[i..]
    ensures Flags(args, i, o) == Ok(Applied(o, args[i..]))
    decreases |args| - i
  {
    if i < |args| {
      assert args[i..][0] == args[i] && args[i..][1..] == args[i + 1..];
      FlagOfName(args[i], CustomUndername);
      FlagsWithoutUndername(args, i + 1, FlagEffect(o, FlagOf(args[i])));
    }
  }

  /** The switch a flag turns on. */
  function SwitchOf(o: Options, f: Flag): bool
    requires f in {TestMode, DryRun, AnnounceDiscord, TriggerAnnouncement, TriggerGithubDeploy, UseRootName}
  {
    match f
    case TestMode => o.testMode
    case DryRun => o.dryRun
    case AnnounceDiscord => o.announceDiscord
    case TriggerAnnouncement => o.triggerAnnouncement
    case TriggerGithubDeploy => o.triggerGithubDeploy
    case UseRootName => o.useRootName
  }

  /** One flag turns on its own switch and leaves the others as they were. */
  lemma FlagEffectSwitch(o: Options, g: Flag, f: Flag)
    requires f in {TestMode, DryRun, AnnounceDiscord, TriggerAnnouncement, TriggerGithubDeploy, UseRootName}
    ensures SwitchOf(FlagEffect(o, g), f) == (SwitchOf(o, f) || g == f)
  {
  }

  /** Each switch is on exactly when it was on already or its flag appears. */
  lemma {:induction false} AppliedSwitch(o: Options, xs: seq<string>, f: Flag)
    requires f in {TestMode, DryRun, AnnounceDiscord, TriggerAnnouncement, TriggerGithubDeploy, UseRootName}
    ensures SwitchOf(Applied(o, xs), f) <==> SwitchOf(o, f) || FlagName(f) in xs
    decreases |xs|
  {
    if |xs| > 0 {
      var g := FlagOf(xs[0]);
      FlagOfName(xs[0], f);
      FlagEffectSwitch(o, g, f);
      AppliedSwitch(FlagEffect(o, g), xs[1..], f);
      assert xs == [xs[0]] + xs[1..];
    }
  }

  /** One flag leaves dynamic deployment on unless it is `--no-dynamic`, and sets no name, path or content. */
  lemma FlagEffectKeeps(o: Options, g: Flag)
    ensures FlagEffect(o, g).useDynamic == (o.useDynamic && g != NoDynamic)
    ensures FlagEffect(o, g).customUndername == o.customUndername
    ensures FlagEffect(o, g).filePath == o.filePath && FlagEffect(o, g).content == o.content
  {
    match g
    case TestMode =>
    case DryRun =>
    case AnnounceDiscord =>
    case TriggerAnnouncement =>
    case TriggerGithubDeploy =>
    case NoDynamic =>
    case UseRootName =>
    case CustomUndername =>
    case NotAFlag =>
  }

  /** Dynamic deployment stays on exactly when it was on and `--no-dynamic` does not appear; the first pass sets no path or content. */
  lemma {:induction false} AppliedNoDynamic(o: Options, xs: seq<string>)
    ensures Applied(o, xs).useDynamic <==> o.useDynamic && "--no-dynamic" !in xs
    ensures Applied(o, xs).customUndername == o.customUndername
    ensures Applied(o, xs).filePath == o.filePath && Applied(o, xs).content == o.content
    decreases |xs|
  {
    if |xs| > 0 {
      var g := FlagOf(xs[0]);
      FlagOfName(xs[0], NoDynamic);
      FlagEffectKeeps(o, g);
      AppliedNoDynamic(FlagEffect(o, g), xs[1..]);
      assert xs == [xs[0]] + xs[1..];
    }
  }

  /** A `--customUndername` with nothing after it is rejected, whatever precedes it. */
  lemma {:induction false} TrailingUndernameRejected(args: seq<string>, i: nat, o: Options)
    requires i <= |args| && "--customUndername" !in args[i..]
    ensures Flags(args + ["--customUndername"], i, o) == Err(CustomUndernameError)
    decreases |args| - i
  {
    var all := args + ["--customUndername"];
    if i < |args| {
      assert args[i..] == [args[i]] + args[i + 1..];
      assert all[i] == args[i];
      FlagOfName(args[i], CustomUndername);
      TrailingUndernameRejected(args, i + 1, FlagEffect(o, FlagOf(args[i])));
    } else {
      assert all[i] == "--customUndername";
    }
  }

  /** What `main` ends up doing after the second pass. */
  datatype Command =
    | Deploy(options: Options)
    | ShowLogs
    | ShowStats
    | TestDiscord
    | ShowHelp
    | UnknownOption(arg: string)

  /** The options and commands the second pass acts on. */
  datatype Word = FileOption | ContentOption | MessageOption | LogsCommand | StatsCommand
    | TestDiscordCommand | HelpCommand | OtherWord

  /** The option or command an argument names. */
  function WordOf(arg: string): Word {
    if arg == "--file" || arg == "-f" then FileOption
    else if arg == "--content" || arg == "-c" then ContentOption
    else if arg == "--message" || arg == "-m" then MessageOption
    else if arg == "--logs" || arg == "-l" then LogsCommand
    else if arg == "--stats" || arg == "-s" then StatsCommand
    else if arg == "--test-discord" then TestDiscordCommand
    else if arg == "--help" || arg == "-h" then HelpCommand
    else OtherWord
  }

  /** The options that take the next argument as their value. */
  predicate TakesValue(w: Word) {
    w == FileOption || w == ContentOption || w == MessageOption
  }

  /** The options with the value of `-f`, `-c` or `-m` set. */
  function WithValue(o: Options, w: Word, v: Option<string>): Options
    requires TakesValue(w)
  {
    if w == FileOption then o.(filePath := v)
    else if w == ContentOption then o.(content := v)
    else o.(commitMessage := v)
  }

  /** The utility command a word names. */
  function Utility(w: Word): Command
    requires !TakesValue(w) && w != OtherWord
  {
    match w
    case LogsCommand => ShowLogs
    case StatsCommand => ShowStats
    case TestDiscordCommand => TestDiscord
    case HelpCommand => ShowHelp
  }

  /**
   * The second pass from argument `i` on: `-f`, `-c` and `-m` take the next argument whatever it
   * is; the utility commands end the pass; a flag of the first pass is skipped; any other dash
   * argument is unknown; anything else is content.
   */
  function Commands(args: seq<string>, i: nat, o: Options): Command
    decreases |args| - i
  {
    if i >= |args| then Deploy(o)
    else
      var arg := args[i];
      var w := WordOf(arg);
      if TakesValue(w) then Commands(args, i + 2, WithValue(o, w, ArgAt(args, i + 1)))
      else if w != OtherWord then Utility(w)
      else if FlagOf(arg) != NotAFlag then Commands(args, i + 1, o)
      else if StartsWith(arg, "-") then UnknownOption(arg)
      else Commands(args, i + 1, o.(content := Some(arg)))
  }

  /** The second loop of `main`. */
  method ParseCommands(args: seq<string>, options0: Options) returns (c: Command)
    ensures c == Commands(args, 0, options0)
  {
    var options := options0;
    var i := 0;
    while i < |args|
      invariant 0 <= i <= |args| + 1
      invariant Commands(args, 0, options0) == Commands(args, i, options)
      decreases |args| - i
    {
      var arg := args[i];
      var word := WordOf(arg);
      if TakesValue(word) {
        options := WithValue(options, word, ArgAt(args, i + 1));
        i := i + 2;
      } else if word != OtherWord {
        return Utility(word);
      } else if FlagOf(arg) != NotAFlag {
        i := i + 1;
      } else if StartsWith(arg, "-") {
        return UnknownOption(arg);
      } else {
        options := options.(content := Some(arg));
        i := i + 1;
      }
    }
    return Deploy(options);
  }

  /** Both passes; an error from the first is the fatal error `main` exits with. */
  function Parse(args: seq<string>): Result<Command> {
    match Flags(args, 0, NoOptions)
    case Err(e) => Err(e)
    case Ok(o) => Ok(Commands(args, 0, o))
  }

  /** `main`'s argument handling. */
  method ParseArguments(args: seq<string>) returns (r: Result<Command>)
    ensures r == Parse(args)
  {
    var flags := ParseFlags(args);
    if flags.Err? {
      return Err(flags.error);
    }
    var c := ParseCommands(args, flags.value);
    return Ok(c);
  }

  /** The value after `--customUndername` is not skipped by the second pass: it also becomes the content. */
  lemma UndernameValueAlsoContent(v: string)
    requires v != "" && !StartsWith(v, "-")
    ensures Parse(["--customUndername", v]) == Ok(Deploy(NoOptions.(customUndername := Some(v), content := Some(v))))
  {
    var args := ["--customUndername", v];
    var o := NoOptions.(customUndername := Some(v));
    assert args[0] == FlagName(CustomUndername) && args[1] == v;
    FlagOfName(args[0], CustomUndername);
    assert WordOf(args[0]) == OtherWord;
    assert Flags(args, 0, NoOptions) == Flags(args, 2, o) == Ok(o);
    UndashedIsPlain(v);
    assert Commands(args, 0, o) == Commands(args, 1, o);
    assert Commands(args, 1, o) == Commands(args, 2, o.(content := Some(v)));
  }

  /** An argument not starting with a dash names no flag, option or command. */
  lemma UndashedIsPlain(v: string)
    requires v != "" && !StartsWith(v, "-")
    ensures FlagOf(v) == NotAFlag && WordOf(v) == OtherWord
  {
    assert v[0] != '-';
  }

  /** The value after `--file` is taken even when it looks like a flag, and the first pass still acts on that flag. */
  lemma FileValueTakenVerbatim()
    ensures Parse(["--file", "--test-mode"]) == Ok(Deploy(NoOptions.(testMode := true, filePath := Some("--test-mode"))))
  {
    var args := ["--file", "--test-mode"];
    assert Flags(args, 1, NoOptions) == Flags(args, 2, NoOptions.(testMode := true));
  }

  /** A dash argument that is neither an option, a command nor a flag of the first pass stops the run. */
  lemma UnknownDashArgument(arg: string, rest: seq<string>, o: Options)
    requires StartsWith(arg, "-") && WordOf(arg) == OtherWord && FlagOf(arg) == NotAFlag
    ensures Commands([arg] + rest, 0, o) == UnknownOption(arg)
  {
  }

  // ---------- App name ----------

  /** `dirPath.split('/').pop() || dirPath.split('\\').pop() || 'app'` */
  function AppName(dirPath: string): (r: string)
    ensures r != ""
  {
    var slash := LastPart(dirPath, '/');
    if slash != "" then slash
    else
      var backslash := LastPart(dirPath, '\\');
      if backslash != "" then backslash else "app"
  }

  /** The app name of `dir/name` is `name`. */
  lemma AppNameOfJoin(dir: string, name: string)
    requires name != "" && forall i :: 0 <= i < |name| ==> name[i] != '/'
    ensures AppName(Utils.JoinPath(dir, name)) == name
  {
    var prefix := Utils.DirPrefix(dir);
    if prefix == "" {
      assert Utils.JoinPath(dir, name) == name;
      SplitWithoutSeparator(name, '/');
    } else {
      assert Utils.JoinPath(dir, name) == prefix[..|prefix| - 1] + ['/'] + name;
      LastPartAfterSeparator(prefix[..|prefix| - 1], '/', name);
    }
  }

  /** A path with a trailing slash and no backslash is its own app name, slash included. */
  lemma AppNameKeepsTrailingSlash(dir: string)
    requires forall i :: 0 <= i < |dir| ==> dir[i] != '\\'
    ensures AppName(dir + "/") == dir + "/"
  {
    assert dir + "/" == dir + ['/'] + "";
    LastPartAfterSeparator(dir, '/', "");
    SplitWithoutSeparator(dir + "/", '\\');
  }

  // ---------- Results ----------

  /** What a deployment returns. */
  datatype Outcome =
    | Completed(record: seq<(string, Json)>)
    | NoChanges(reason: string, filePath: string, commitHash: string)
    | Failure(error: string, context: string, duration: nat, filePath: string, deploymentType: Option<string>)
  {
    /** The `success` field. */
    predicate Success() {
      !Failure?
    }
  }

  /** The object returned, and logged unless it reports no changes. */
  function Record(o: Outcome): seq<(string, Json)> {
    match o
    case Completed(record) => record
    case NoChanges(reason, filePath, commitHash) =>
      [("success", JBool(true)), ("skipped", JBool(true)), ("reason", JStr(reason)),
       ("filePath", JStr(filePath)), ("commitHash", JStr(commitHash))]
    case Failure(error, context, duration, filePath, deploymentType) =>
      [("success", JBool(false)), ("error", JStr(error)), ("context", JStr(context)),
       ("duration", JNum(duration)), ("filePath", JStr(filePath))]
      + (if deploymentType.Some? then [("deploymentType", JStr(deploymentType.value))] else [])
  }

  const NoChangesReason := "no_changes"

  /** The `deploy` options a directory deployment passes on. */
  function DeployerOptions(o: Options): DD.Options {
    DD.Options(o.useRootName, if o.customUndername.Some? then o.customUndername.value else "")
  }

  function DynamicContext(dirPath: string): string {
    "Dynamic directory deployment for '" + dirPath + "': "
  }

  /**
   * The record of a successful dynamic deployment. `options.testMode` is set only by
   * `--test-mode`; otherwise it is undefined and the written record has no `testMode` key.
   */
  function DynamicRecord(dirPath: string, d: DD.DeployResult, testMode: bool, duration: nat): seq<(string, Json)>
    requires d.Deployed?
  {
    [("success", JBool(true)), ("filePath", JStr(dirPath)), ("commitHash", JStr(d.commitHash)),
     ("txId", JStr(d.manifestTxId)), ("manifestTxId", JStr(d.manifestTxId)), ("undername", JStr(d.undername)),
     ("fileSize", JNum(d.stats.totalSize)), ("duration", JNum(duration))]
    + (if testMode then [("testMode", JBool(true))] else [])
    + [("deploymentType", JStr("dynamic")), ("changedFiles", JNum(|d.changedFiles|)), ("version", JStr(d.version))]
  }

  /** `deployDirectoryDynamic`'s result for a validation and, when it passed, a deployment result. */
  function DynamicOutcome(dirPath: string, validation: DD.Validation, result: Option<DD.DeployResult>,
                          testMode: bool, duration: nat): (r: Outcome)
    requires validation.Valid? <==> result.Some?
    ensures r.Success() <==> result.Some? && result.value.Success()
    ensures r.NoChanges? <==> result.Some? && result.value.Skipped?
    ensures validation.Invalid? ==> r.Failure? && r.error == "Directory validation failed: " + validation.error
    ensures result.Some? && result.value.Failed? ==> r.Failure? && r.error == "Dynamic deployment failed: " + result.value.error
    ensures r.Failure? ==> r.context == DynamicContext(dirPath) && r.filePath == dirPath && r.deploymentType == Some("dynamic")
    ensures r.NoChanges? ==> r.reason == NoChangesReason && r.filePath == dirPath && r.commitHash == result.value.commitHash
  {
    if validation.Invalid? then
      Failure("Directory validation failed: " + validation.error, DynamicContext(dirPath), duration, dirPath, Some("dynamic"))
    else
      match result.value
      case Deployed(_, _, _, _, _, _, _, _, _) => Completed(DynamicRecord(dirPath, result.value, testMode, duration))
      case Skipped(_, commitHash) => NoChanges(NoChangesReason, dirPath, commitHash)
      case Failed(_, error) =>
        Failure("Dynamic deployment failed: " + error, DynamicContext(dirPath), duration, dirPath, Some("dynamic"))
  }

  /** The log after a deployment: every outcome but "no changes" is appended. */
  function LoggedFile(file: MM.Stored<Json>, o: Outcome, timestamp: string): MM.Stored<Json> {
    if o.NoChanges? then file else Logging.Appended(file, Record(o), timestamp)
  }

  /**
   * `deployDirectoryDynamic`: validates, deploys, and logs every result except "no changes".
   * The validation and the deployment result it saw are returned as ghost values; both are
   * stated over the state before the call by `ValidateAndDeploy`.
   */
  method DeployDirectoryDynamic(deployer: DD.DynamicDeployer, dirPath: string, options: Options, s: DD.Services,
                                log: Logging.DeploymentLog, duration: nat, timestamp: string)
    returns (r: Outcome, ghost validation: DD.Validation, ghost result: Option<DD.DeployResult>)
    requires deployer.Wired() && deployer.appPath == dirPath && deployer.appId == AppName(dirPath)
    modifies deployer`effects, deployer.manifestManager`trackerFile, deployer.manifestManager`manifestFile
    modifies deployer.gitTracker, log
    ensures validation == old(deployer.Validity())
    ensures validation.Valid? <==> result.Some?
    ensures r == DynamicOutcome(dirPath, validation, result, options.testMode, duration)
    ensures log.file == LoggedFile(old(log.file), r, timestamp)
    ensures validation.Invalid? || result.value.Skipped? ==> deployer.effects == old(deployer.effects)
    ensures result.Some? ==> (result.value.Skipped? <==> old(deployer.gitTracker.isRepo) && old(deployer.PendingChanges()) == Ok([]))
  {
    var v, deployed := ValidateAndDeploy(deployer, options, s);
    validation, result := v, deployed;
    r := DynamicOutcome(dirPath, v, deployed, options.testMode, duration);
    if !r.NoChanges? {
      log.LogDeployment(Record(r), timestamp);
    }
  }

  /**
   * The validation and the `deployer.deploy(options.testMode, options)` call of
   * `deployDirectoryDynamic`: an invalid app is not deployed; a valid one is deployed as `Deploy`
   * states, over the state before validation.
   */
  method ValidateAndDeploy(deployer: DD.DynamicDeployer, options: Options, s: DD.Services)
    returns (validation: DD.Validation, result: Option<DD.DeployResult>)
    requires deployer.Wired()
    modifies deployer`effects, deployer.manifestManager`trackerFile, deployer.manifestManager`manifestFile
    modifies deployer.gitTracker
    ensures validation == old(deployer.Validity())
    ensures validation.Valid? <==> result.Some?
    ensures validation.Invalid? || result.value.Skipped? ==> deployer.effects == old(deployer.effects)
    ensures result.Some? && !old(deployer.gitTracker.isRepo) ==> result.value == DD.Failed(deployer.appId, DD.NotRepositoryError)
    ensures result.Some? ==> (result.value.Skipped? <==> old(deployer.gitTracker.isRepo) && old(deployer.PendingChanges()) == Ok([]))
    ensures result.Some? && result.value.Deployed? ==> (old(deployer.PendingChanges()) == Ok(result.value.changedFiles)
      && |deployer.effects| >= |old(deployer.effects)| && DD.InStepOrder(deployer.effects[|old(deployer.effects)|..])
      && deployer.Published(result.value, old(deployer.Observed()), old(deployer.CurrentFiles()), options.testMode,
           DeployerOptions(options), s))
  {
    validation := deployer.ValidateApp();
    result := None;
    if validation.Valid? {
      var d := deployer.Deploy(options.testMode, DeployerOptions(options), s);
      result := Some(d);
    }
  }

  /** A deployment with no changes is a success that is returned but never logged. */
  lemma NoChangesNotLogged(file: MM.Stored<Json>, dirPath: string, d: DD.DeployResult, testMode: bool,
                           duration: nat, timestamp: string)
    requires d.Skipped?
    ensures DynamicOutcome(dirPath, DD.Valid, Some(d), testMode, duration).Success()
    ensures LoggedFile(file, DynamicOutcome(dirPath, DD.Valid, Some(d), testMode, duration), timestamp) == file
  {
  }

  // ---------- Full deployment ----------

  /** The app's `deployment-tracker.json` and `manifest.json` as text; `None` when missing. */
  class TrackingFiles {
    var tracker: Option<string>
    var manifest: Option<string>

    constructor(tracker: Option<string>, manifest: Option<string>)
      ensures this.tracker == tracker && this.manifest == manifest
    {
      this.tracker := tracker;
      this.manifest := manifest;
    }
  }

  /** What the deployment inside a full deployment returns and leaves in the two files. */
  datatype FullRun = FullRun(result: DD.DeployResult, tracker: Option<string>, manifest: Option<string>)

  /** A file after the `finally` block: its backup when that was non-empty, otherwise what the deployment left. */
  function Restored(backup: Option<string>, left: Option<string>): (r: Option<string>)
    ensures backup.Some? && backup.value != "" ==> r == backup
    ensures (backup.None? || backup == Some("")) ==> r == left
  {
    if backup.Some? && backup.value != "" then backup else left
  }

  function FullContext(dirPath: string): string {
    "Full directory deployment for '" + dirPath + "': "
  }

  /** The error reading `result.stats.totalSize` throws when the result has no statistics. */
  const NoStatsError := "Cannot read properties of undefined (reading 'totalSize')"

  /** The record of a successful full deployment. */
  function FullRecord(dirPath: string, d: DD.DeployResult, duration: nat): seq<(string, Json)>
    requires d.Deployed?
  {
    [("success", JBool(true)), ("undername", JStr(d.undername)), ("commitHash", JStr(d.commitHash)),
     ("filePath", JStr(dirPath)), ("txId", JStr(d.manifestTxId)), ("manifestTxId", JStr(d.manifestTxId)),
     ("fileSize", JNum(d.stats.totalSize)), ("duration", JNum(duration)), ("deploymentType", JStr("full")),
     ("version", JStr(d.version))]
  }

  /** `deployDirectoryFull`'s result: a skipped deployment has no statistics, so it fails too. */
  function FullOutcome(dirPath: string, validation: DD.Validation, d: DD.DeployResult, duration: nat): (r: Outcome)
    ensures r.Success() <==> validation.Valid? && d.Deployed?
    ensures !r.NoChanges?
    ensures validation.Invalid? ==> r.error == "Directory validation failed: " + validation.error
    ensures validation.Valid? && d.Failed? ==> r.error == "Full deployment failed: " + d.error
    ensures validation.Valid? && d.Skipped? ==> r.error == NoStatsError
    ensures r.Failure? ==> r.context == FullContext(dirPath) && r.filePath == dirPath && r.deploymentType == Some("full")
  {
    var error :=
      if validation.Invalid? then "Directory validation failed: " + validation.error
      else if d.Failed? then "Full deployment failed: " + d.error
      else NoStatsError;
    if validation.Valid? && d.Deployed? then Completed(FullRecord(dirPath, d, duration))
    else Failure(error, FullContext(dirPath), duration, dirPath, Some("full"))
  }

  /**
   * `deployDirectoryFull`: after validation, backs up and deletes the tracker and the manifest,
   * deploys, restores every non-empty backup whatever the result, and logs the outcome.
   */
  method DeployDirectoryFull(files: TrackingFiles, dirPath: string, validation: DD.Validation, run: FullRun,
                             log: Logging.DeploymentLog, duration: nat, timestamp: string) returns (r: Outcome)
    modifies files, log
    ensures r == FullOutcome(dirPath, validation, run.result, duration)
    ensures log.file == Logging.Appended(old(log.file), Record(r), timestamp)
    ensures validation.Invalid? ==> files.tracker == old(files.tracker) && files.manifest == old(files.manifest)
    ensures validation.Valid? ==> (files.tracker == Restored(old(files.tracker), run.tracker)
      && files.manifest == Restored(old(files.manifest), run.manifest))
  {
    if validation.Invalid? {
      r := Failure("Directory validation failed: " + validation.error, FullContext(dirPath), duration, dirPath, Some("full"));
      log.LogDeployment(Record(r), timestamp);
      return;
    }
    var trackerBackup: Option<string> := None;
    var manifestBackup: Option<string> := None;
    if files.tracker.Some? {
      trackerBackup := files.tracker;
      files.tracker := None;
    }
    if files.manifest.Some? {
      manifestBackup := files.manifest;
      files.manifest := None;
    }
    // the deployment runs on the app without its tracking files
    files.tracker, files.manifest := run.tracker, run.manifest;
    var d := run.result;
    if d.Deployed? {
      r := Completed(FullRecord(dirPath, d, duration));
    } else if d.Failed? {
      r := Failure("Full deployment failed: " + d.error, FullContext(dirPath), duration, dirPath, Some("full"));
    } else {
      r := Failure(NoStatsError, FullContext(dirPath), duration, dirPath, Some("full"));
    }
    if trackerBackup.Some? && trackerBackup.value != "" {
      files.tracker := trackerBackup;
    }
    if manifestBackup.Some? && manifestBackup.value != "" {
      files.manifest := manifestBackup;
    }
    log.LogDeployment(Record(r), timestamp);
  }

  /** Even after a successful full deployment, a non-empty tracker that existed before is put back as it was. */
  lemma FullDeployRestoresOldTracker(previous: string, left: Option<string>)
    requires previous != ""
    ensures Restored(Some(previous), left) == Some(previous)
  {
  }

  /** An empty tracking file is deleted and not restored: the file is whatever the deployment left. */
  lemma EmptyBackupNotRestored(left: Option<string>)
    ensures Restored(Some(""), left) == left
  {
  }

  // ---------- Dispatch ----------

  /** How `deployFile` deploys a path. */
  datatype Route = DynamicDirectory | FullDirectory | SingleFile

  const DefaultFilePath := "hello-world.txt"

  /** `filePath = 'hello-world.txt'`: the default applies only when the option is undefined. */
  function TargetPath(o: Options): string {
    if o.filePath.Some? then o.filePath.value else DefaultFilePath
  }

  /** `deployFile`'s choice: the path is validated first, then a directory goes dynamic or full and anything else is a single file. */
  function DeployFileRoute(o: Options, isDirectory: string -> bool): (r: Result<Route>)
    ensures r.Err? <==> Utils.ValidateFilePath(TargetPath(o)).Err?
    ensures r.Err? ==> r.error == Utils.FilePathError
    ensures r == Ok(DynamicDirectory) <==> r.Ok? && isDirectory(TargetPath(o)) && o.useDynamic
    ensures r == Ok(FullDirectory) <==> r.Ok? && isDirectory(TargetPath(o)) && !o.useDynamic
    ensures r == Ok(SingleFile) <==> r.Ok? && !isDirectory(TargetPath(o))
  {
    var path := TargetPath(o);
    match Utils.ValidateFilePath(path)
    case Err(e) => Err(e)
    case Ok(_) =>
      if !isDirectory(path) then Ok(SingleFile)
      else if o.useDynamic then Ok(DynamicDirectory)
      else Ok(FullDirectory)
  }

  /** `deployFile`'s own failure: context "Deployment ", and the path `options.filePath || 'hello-world.txt'`. */
  function DeployFileFailure(o: Options, error: string, duration: nat): (r: Outcome)
    ensures r.Failure? && r.error == error && r.context == "Deployment " && r.deploymentType.None?
    ensures r.filePath != ""
    ensures o.filePath.Some? && o.filePath.value != "" ==> r.filePath == o.filePath.value
  {
    var path := if o.filePath.Some? && o.filePath.value != "" then o.filePath.value else DefaultFilePath;
    Failure(error, "Deployment ", duration, path, None)
  }

  // ---------- Parent directories ----------

  /** `options.filePath && (… endsWith('apps/') || … endsWith('apps') || … === 'apps')` */
  predicate IsCommonParentDir(filePath: Option<string>) {
    filePath.Some? && filePath.value != ""
    && (EndsWith(filePath.value, "apps/") || EndsWith(filePath.value, "apps") || filePath.value == "apps")
  }

  /** Any name ending in `apps` counts, not only a directory called `apps`. */
  lemma AnyAppsSuffixCounts()
    ensures IsCommonParentDir(Some("myapps"))
    ensures !IsCommonParentDir(Some("apps/blog"))
  {
    assert "myapps"[2..] == "apps";
  }

  /** A directory entry. */
  datatype DirEntry = DirEntry(name: string, isDirectory: bool)

  /** What `stat` and `readdir` report for a path. */
  datatype Listing = Missing | NotDirectory | Unreadable | Entries(entries: seq<DirEntry>)

  /** The names of the entries that are directories, in order. */
  function SubdirectoryNames(entries: seq<DirEntry>): (r: seq<string>)
    ensures |r| <= |entries|
    decreases |entries|
  {
    if |entries| == 0 then []
    else
      var last := entries[|entries| - 1];
      SubdirectoryNames(entries[..|entries| - 1]) + (if last.isDirectory then [last.name] else [])
  }

  /** Exactly the directory entries are listed. */
  lemma {:induction false} SubdirectoryNamesMembership(entries: seq<DirEntry>, name: string)
    ensures name in SubdirectoryNames(entries) <==> DirEntry(name, true) in entries
    decreases |entries|
  {
    if |entries| > 0 {
      var init := entries[..|entries| - 1];
      SubdirectoryNamesMembership(init, name);
      assert entries == init + [entries[|entries| - 1]];
    }
  }

  /** `isParentDirectory`: a readable directory with at least two subdirectories. */
  predicate IsParentDirectory(listing: Listing) {
    listing.Entries? && |SubdirectoryNames(listing.entries)| >= 2
  }

  /** `getSubdirectories`: each subdirectory joined under the path; none when the directory cannot be read. */
  function GetSubdirectories(dirPath: string, listing: Listing): (r: seq<string>)
    ensures listing.Entries? ==> (|r| == |SubdirectoryNames(listing.entries)|
      && forall i :: 0 <= i < |r| ==> r[i] == Utils.JoinPath(dirPath, SubdirectoryNames(listing.entries)[i]))
    ensures !listing.Entries? ==> r == []
  {
    if listing.Entries? then
      var names := SubdirectoryNames(listing.entries);
      seq(|names|, i requires 0 <= i < |names| => Utils.JoinPath(dirPath, names[i]))
    else []
  }

  /** In parent mode there are always at least two apps to deploy, so the "no subdirectories" exit is never taken. */
  lemma ParentModeHasApps(filePath: Option<string>, listing: Listing)
    requires IsCommonParentDir(filePath) && IsParentDirectory(listing)
    ensures |GetSubdirectories(filePath.value, listing)| >= 2
  {
  }

  /** The number of outcomes that deployed something. */
  function CountCompleted(results: seq<Outcome>): (n: nat)
    ensures n <= |results|
    decreases |results|
  {
    if |results| == 0 then 0
    else CountCompleted(results[..|results| - 1]) + (if results[|results| - 1].Completed? then 1 else 0)
  }

  /** The number of outcomes that reported no changes or failed. */
  function CountOthers(results: seq<Outcome>): nat
    decreases |results|
  {
    if |results| == 0 then 0
    else CountOthers(results[..|results| - 1]) + (if results[|results| - 1].Completed? then 0 else 1)
  }

  /** The summary's "Skipped" line, total minus successful, counts failed apps as well as unchanged ones. */
  lemma {:induction false} SkippedLineCountsFailures(results: seq<Outcome>)
    ensures |results| - CountCompleted(results) == CountOthers(results)
    decreases |results|
  {
    if |results| > 0 {
      SkippedLineCountsFailures(results[..|results| - 1]);
    }
  }

  /** The parent-mode loop's `successCount` over the results of deploying each app. */
  method CountSuccessfulApps(results: seq<Outcome>) returns (successCount: nat)
    ensures successCount == CountCompleted(results)
  {
    successCount := 0;
    var i := 0;
    while i < |results|
      invariant 0 <= i <= |results|
      invariant successCount == CountCompleted(results[..i])
    {
      assert results[..i + 1][..i] == results[..i];
      if results[i].Success() && !results[i].NoChanges? {
        successCount := successCount + 1;
      }
      i := i + 1;
    }
    assert results[..i] == results;
  }
}
