/**
 * `lib/git-tracker.js`: the repository as the deployment engine sees it. Paths are written
 * relative to the repository root, which is the working directory, so `path.resolve` and
 * `path.relative(process.cwd(), ...)` leave them unchanged.
 */
module GitTracker {
  import opened Wrappers
  import Text
  import opened Seqs
  import opened Utils

  /** One commit as `git.log` reports it. */
  datatype LogEntry = LogEntry(oid: string, message: string)

  /** The parts of a commit object that `getCommitInfo` reads. */
  datatype CommitData = CommitData(message: string, author: string)

  /** `getCommitInfo`'s result (the date is left out). */
  datatype CommitInfo = CommitInfo(fullHash: string, shortHash: string, message: string, author: string)

  /** The steps of `createDeployCommit` that can throw. */
  datatype CommitStep = AcquireLock | ValidateState | StageFiles | WriteCommit

  /** How many commits `git.log` is asked for. */
  const LogDepth := 100

  /** The message text of errors raised inside the git library. */
  const LibraryError := "git operation failed"

  /** The reason given when the lock cannot be taken. */
  const LockError := "Could not acquire git lock after maximum retries"

  /** The reason given when the state check finds no repository. */
  const InvalidStateError := "Git state validation failed: Not in a git repository"

  /** The error `getFileHash` raises for a file git cannot hash. */
  function FileHashError(f: string): string {
    "Failed to get file hash for " + f + ": " + LibraryError
  }

  /** `getFileHash` against the blob hashes git computes: the file's hash, or the error when git has none. */
  function FileHash(blobHashes: map<string, string>, f: string): (r: Result<string>)
    ensures r.Ok? <==> f in blobHashes
    ensures r.Ok? ==> r.value == blobHashes[f]
    ensures r.Err? ==> r.error == FileHashError(f)
  {
    if f in blobHashes then Ok(blobHashes[f]) else Err(FileHashError(f))
  }

  const UnknownCommit := "Unknown commit"

  /** This module's tracking files: manifest, tracker and tag configuration. */
  predicate IsTrackingFile(p: string) {
    BaseName(p) in {"manifest.json", "deployment-tracker.json", "upload-tags.json"}
  }

  /** The text every deployment commit of `appId` contains. */
  function DeployMarker(appId: string): string {
    "Deploy app:" + appId
  }

  /** `formatDeployCommitMessage`: header line, changed files relative to the app, shortened manifest id. */
  function FormatDeployCommitMessage(appId: string, appPath: string, version: string,
                                     changedFiles: seq<string>, manifestTxId: string): (msg: string)
    ensures Text.StartsWith(msg, DeployMarker(appId))
  {
    var header := CommitHeader(appId, appPath, version, changedFiles);
    var msg := header + ManifestLine(manifestTxId) + ArnsLine(appId);
    assert msg[..|header|] == header;
    assert header[..|DeployMarker(appId)|] == DeployMarker(appId);
    msg
  }

  /** The marker line with the version, then the changed files relative to the app, joined with ", ". */
  function CommitHeader(appId: string, appPath: string, version: string, changedFiles: seq<string>): string {
    DeployMarker(appId) + " v" + version + "\n\nFiles changed: "
      + Text.Join(seq(|changedFiles|, i requires 0 <= i < |changedFiles| =>
                    NormalizePath(RelativePath(appPath, changedFiles[i]))), ", ")
  }

  /** The line naming the manifest by the first 16 characters of its id. */
  function ManifestLine(manifestTxId: string): string {
    "\nManifest: " + Text.Take(manifestTxId, 16) + "..."
  }

  function ArnsLine(appId: string): string {
    "\nArNS: " + appId
  }

  /** The message names the manifest by the first 16 characters of its id. */
  lemma MessageNamesManifest(appId: string, appPath: string, version: string,
                             changedFiles: seq<string>, manifestTxId: string)
    ensures Text.Contains(FormatDeployCommitMessage(appId, appPath, version, changedFiles, manifestTxId),
                          ManifestLine(manifestTxId))
  {
    Text.ContainsInContext(CommitHeader(appId, appPath, version, changedFiles), ManifestLine(manifestTxId), ArnsLine(appId));
  }

  /** A deployment commit message contains the marker of its own app. */
  lemma MessageCarriesMarker(appId: string, appPath: string, version: string,
                             changedFiles: seq<string>, manifestTxId: string)
    ensures Text.Contains(FormatDeployCommitMessage(appId, appPath, version, changedFiles, manifestTxId),
                          DeployMarker(appId))
  {
    var msg := FormatDeployCommitMessage(appId, appPath, version, changedFiles, manifestTxId);
    assert Text.StartsWith(msg, DeployMarker(appId));
  }

  /**
   * The marker test is a plain substring test: the commits of an app whose id extends
   * `appId` (for instance `foo` and `foobar`) also carry the marker of `appId`.
   */
  lemma MarkerMatchesLongerAppIds(appId: string, suffix: string, appPath: string, version: string,
                                  changedFiles: seq<string>, manifestTxId: string)
    ensures Text.Contains(FormatDeployCommitMessage(appId + suffix, appPath, version, changedFiles, manifestTxId),
                          DeployMarker(appId))
  {
    var msg := FormatDeployCommitMessage(appId + suffix, appPath, version, changedFiles, manifestTxId);
    var m := DeployMarker(appId);
    var long := DeployMarker(appId + suffix);
    assert long == m + suffix;
    assert msg[..|long|] == long;
    assert msg[..|m|] == long[..|m|] == m;
  }

  /** Whether a log entry is a deployment commit found by `needle`. */
  predicate IsDeployment(e: LogEntry, needle: string) {
    Text.Contains(e.message, needle)
  }

  /** The oid of the first entry whose message contains `needle`. */
  function FirstMatch(entries: seq<LogEntry>, needle: string): (r: Option<string>)
    ensures r.None? <==> forall i :: 0 <= i < |entries| ==> !IsDeployment(entries[i], needle)
    ensures r.Some? ==> exists i :: (0 <= i < |entries| && entries[i].oid == r.value
      && IsDeployment(entries[i], needle)
      && forall j :: 0 <= j < i ==> !IsDeployment(entries[j], needle))
    decreases |entries|
  {
    if |entries| == 0 then None
    else if IsDeployment(entries[0], needle) then Some(entries[0].oid)
    else
      var r := FirstMatch(entries[1..], needle);
      assert forall i :: 1 <= i < |entries| ==> entries[i] == entries[1..][i - 1];
      if r.Some? then
        var k :| 0 <= k < |entries[1..]| && entries[1..][k].oid == r.value
          && IsDeployment(entries[1..][k], needle)
          && forall j :: 0 <= j < k ==> !IsDeployment(entries[1..][j], needle);
        assert entries[k + 1].oid == r.value && IsDeployment(entries[k + 1], needle);
        r
      else r
  }

  /** `getDeploymentHistory`'s bound: the length test follows the push, so a limit below 1 acts as 1. */
  function HistoryBound(limit: int): nat {
    if limit < 1 then 1 else limit
  }

  /** All deployment commits among `entries`, in log order. */
  function Deployments(entries: seq<LogEntry>, needle: string): seq<LogEntry> {
    Filter(entries, e => IsDeployment(e, needle))
  }

  lemma DeploymentsAppend(xs: seq<LogEntry>, ys: seq<LogEntry>, needle: string)
    ensures Deployments(xs + ys, needle) == Deployments(xs, needle) + Deployments(ys, needle)
  {
    FilterAppend(xs, ys, e => IsDeployment(e, needle));
  }

  /** The deployment commits among `entries`, in log order, at most `HistoryBound(limit)` of them. */
  function History(entries: seq<LogEntry>, needle: string, limit: int): (r: seq<LogEntry>)
    ensures |r| == if |Deployments(entries, needle)| < HistoryBound(limit) then |Deployments(entries, needle)| else HistoryBound(limit)
    ensures forall i :: 0 <= i < |r| ==> IsDeployment(r[i], needle)
    ensures r <= Deployments(entries, needle)
  {
    FilterSatisfies(entries, e => IsDeployment(e, needle));
    Prefix(Deployments(entries, needle), HistoryBound(limit))
  }

  /** The listed files under the app's path prefix that are not tracking files. */
  function AppCandidates(listed: seq<string>, appPath: string): seq<string> {
    Filter(listed, f => Text.StartsWith(f, appPath) && !IsTrackingFile(f))
  }

  /** `getAllAppFiles`' selection: under the app's path prefix, not a tracking file, and a regular file. */
  function SelectAppFiles(listed: seq<string>, appPath: string, regularFiles: set<string>): seq<string> {
    Filter(AppCandidates(listed, appPath), IsRegular(regularFiles))
  }

  /** `!stat.isDirectory()`, read from the set of paths that are no directory. */
  function IsRegular(regularFiles: set<string>): string -> bool {
    f => f in regularFiles
  }

  /** The loop of `getAllAppFiles`: pushes each candidate that is a regular file, in order. */
  method KeepRegular(candidates: seq<string>, regularFiles: set<string>) returns (deployable: seq<string>)
    ensures deployable == Filter(candidates, IsRegular(regularFiles))
  {
    var regular := IsRegular(regularFiles);
    deployable := [];
    var i := 0;
    while i < |candidates|
      invariant 0 <= i <= |candidates|
      invariant deployable == Filter(candidates[..i], regular)
    {
      assert candidates[..i + 1][..i] == candidates[..i];
      if candidates[i] in regularFiles {
        deployable := deployable + [candidates[i]];
      }
      i := i + 1;
    }
    assert candidates[..i] == candidates;
  }

  /** Exactly the files that pass all three tests are kept. */
  lemma SelectAppFilesMembership(listed: seq<string>, appPath: string, regularFiles: set<string>, f: string)
    ensures f in SelectAppFiles(listed, appPath, regularFiles) <==>
      f in listed && Text.StartsWith(f, appPath) && !IsTrackingFile(f) && f in regularFiles
  {
    FilterMembership(AppCandidates(listed, appPath), g => g in regularFiles, f);
    FilterMembership(listed, g => Text.StartsWith(g, appPath) && !IsTrackingFile(g), f);
  }

  /**
   * The path-prefix test does not respect directory boundaries: a file of a sibling app whose
   * directory name extends this app's (`apps/foobar` next to `apps/foo`) is selected too.
   */
  lemma PrefixSelectsSiblingApps(appPath: string, suffix: string, rest: string, regularFiles: set<string>)
    requires appPath + suffix + "/" + rest in regularFiles
    requires !IsTrackingFile(appPath + suffix + "/" + rest)
    ensures appPath + suffix + "/" + rest in SelectAppFiles([appPath + suffix + "/" + rest], appPath, regularFiles)
  {
    var f := appPath + suffix + "/" + rest;
    assert f[..|appPath|] == appPath;
    SelectAppFilesMembership([f], appPath, regularFiles, f);
  }

  /** Some index path names the same file as `f` once both are normalised. */
  predicate InIndex(index: seq<string>, f: string) {
    exists i | 0 <= i < |index| :: NormalizePath(index[i]) == NormalizePath(f)
  }

  class GitTracker {
    const appId: string
    /** The app's directory, relative to the repository root. */
    const appPath: string
    /** Whether the working directory is inside a git repository. */
    var isRepo: bool
    /** The commit `HEAD` resolves to, if any. */
    var head: Option<string>
    /** The commit objects `git.readCommit` can read. */
    var objects: map<string, CommitData>
    /** `git.listFiles`: the paths in the index, in listing order. */
    var index: seq<string>
    /** Paths that `stat` reports as accessible files that are not directories. */
    var regularFiles: set<string>
    /** `git.hashBlob` of the bytes of every readable file. */
    var blobHashes: map<string, string>
    /** The commits reachable from `HEAD`, newest first. */
    var log: seq<LogEntry>
    /** Whether the deployment lock file exists. */
    var lockHeld: bool
    /** The paths passed to `git.add`, in order. */
    var staged: seq<string>
    /** `user.name` and `user.email` from the git configuration; empty when unset. */
    var userName: string
    var userEmail: string

    constructor(appId: string, appPath: string, isRepo: bool, head: Option<string>,
                objects: map<string, CommitData>, index: seq<string>, regularFiles: set<string>,
                blobHashes: map<string, string>, log: seq<LogEntry>)
      ensures this.appId == appId && this.appPath == appPath && this.isRepo == isRepo
      ensures this.head == head && this.objects == objects && this.index == index
      ensures this.regularFiles == regularFiles && this.blobHashes == blobHashes && this.log == log
      ensures !lockHeld && staged == [] && userName == "" && userEmail == ""
    {
      this.appId := appId;
      this.appPath := appPath;
      this.isRepo := isRepo;
      this.head := head;
      this.objects := objects;
      this.index := index;
      this.regularFiles := regularFiles;
      this.blobHashes := blobHashes;
      this.log := log;
      lockHeld := false;
      staged := [];
      userName := "";
      userEmail := "";
    }

    /** `getShortCommitHash`: the first 16 characters of `HEAD`'s oid. */
    function GetShortCommitHash(): (r: Result<string>)
      reads this
      ensures r.Ok? <==> isRepo && head.Some?
      ensures r.Ok? ==> r.value == GenerateShortHash(head.value)
    {
      if isRepo && head.Some? then Ok(Text.Take(head.value, 16))
      else Err("Failed to get current commit hash: " + LibraryError)
    }

    /** The commit `getCommitInfo` reads: the hash given, else HEAD's. */
    function ResolvedHash(commitHash: string): Option<string>
      reads this
    {
      if commitHash != "" then Some(commitHash) else if isRepo then head else None
    }

    /** `getCommitInfo`: the commit's data, or `unknown` placeholders when it cannot be read. */
    function GetCommitInfo(commitHash: string): (r: CommitInfo)
      reads this
      ensures r.shortHash == GenerateShortHash(r.fullHash)
      ensures commitHash != "" ==> r.fullHash == commitHash
      ensures commitHash == "" && !(isRepo && head.Some?) ==> r.fullHash == "unknown"
      ensures r.message == UnknownCommit <== !(isRepo && (commitHash != "" || head.Some?))
      ensures var hash := ResolvedHash(commitHash);
        isRepo && hash.Some? && hash.value in objects ==> (r.fullHash == hash.value
          && r.message == objects[hash.value].message && r.author == objects[hash.value].author)
      ensures var hash := ResolvedHash(commitHash);
        !(isRepo && hash.Some? && hash.value in objects) ==> (r.message == UnknownCommit && r.author == "Unknown"
          && r.fullHash == if commitHash != "" then commitHash else "unknown")
    {
      var hash := ResolvedHash(commitHash);
      if isRepo && hash.Some? && hash.value in objects then
        var c := objects[hash.value];
        CommitInfo(hash.value, Text.Take(hash.value, 16), c.message, c.author)
      else
        var fallback := if commitHash != "" then commitHash else "unknown";
        CommitInfo(fallback, Text.Take(fallback, 16), UnknownCommit, "Unknown")
    }

    /** `isFileTracked`: the normalised path is among the normalised index paths; false on error. */
    predicate IsFileTracked(f: string)
      reads this
    {
      isRepo && InIndex(index, f)
    }

    /** `getFileHash`: the blob hash of the file's current bytes. */
    function GetFileHash(f: string): (r: Result<string>)
      reads this
    {
      FileHash(blobHashes, f)
    }

    /**
     * `getAllAppFiles`: the app's deployable files from the index, in listing order. The paths
     * stay relative to the repository, where the source resolves them to absolute paths; the
     * deployment does not call it.
     */
    method GetAllAppFiles() returns (r: Result<seq<string>>)
      ensures !isRepo ==> r == Err("Failed to get all app files: " + LibraryError)
      ensures isRepo ==> r == Ok(SelectAppFiles(index, appPath, regularFiles))
    {
      if !isRepo {
        return Err("Failed to get all app files: " + LibraryError);
      }
      var deployable := KeepRegular(AppCandidates(index, appPath), regularFiles);
      return Ok(deployable);
    }

    /** `findLastDeployCommit`: the newest of the last 100 commits that carries this app's marker. */
    method FindLastDeployCommit() returns (r: Option<string>)
      ensures r == (if isRepo then FirstMatch(Prefix(log, LogDepth), DeployMarker(appId)) else None)
    {
      if !isRepo {
        return None;
      }
      var logs := Prefix(log, LogDepth);
      var needle := DeployMarker(appId);
      var i := 0;
      while i < |logs|
        invariant 0 <= i <= |logs|
        invariant FirstMatch(logs, needle) == FirstMatch(logs[i..], needle)
      {
        if Text.Contains(logs[i].message, needle) {
          return Some(logs[i].oid);
        }
        assert logs[i..][1..] == logs[i + 1..];
        i := i + 1;
      }
      return None;
    }

    /** `getDeploymentHistory(limit)`: matching commits in log order, stopping once `limit` are held. */
    method GetDeploymentHistory(limit: int) returns (r: seq<LogEntry>)
      ensures r == (if isRepo then History(Prefix(log, LogDepth), DeployMarker(appId), limit) else [])
    {
      if !isRepo {
        return [];
      }
      var logs := Prefix(log, LogDepth);
      var needle := DeployMarker(appId);
      var deployments: seq<LogEntry> := [];
      var i := 0;
      while i < |logs|
        invariant 0 <= i <= |logs|
        invariant deployments == Deployments(logs[..i], needle)
        invariant |deployments| < HistoryBound(limit)
      {
        assert logs[..i + 1][..i] == logs[..i];
        assert Deployments(logs[..i + 1], needle)
          == deployments + (if IsDeployment(logs[i], needle) then [logs[i]] else []);
        if Text.Contains(logs[i].message, needle) {
          deployments := deployments + [logs[i]];
          if |deployments| >= limit {
            DeploymentsAppend(logs[..i + 1], logs[i + 1..], needle);
            assert logs[..i + 1] + logs[i + 1..] == logs;
            assert |deployments| == HistoryBound(limit);
            return deployments;
          }
        }
        i := i + 1;
      }
      assert logs[..i] == logs;
      return deployments;
    }

    /**
     * `createDeployCommit`: takes the lock, checks the repository, stages the app's manifest and
     * tracker, and commits. Once the lock was taken it is released on every path out.
     */
    method CreateDeployCommit(manifestTxId: string, changedFiles: seq<string>, version: string,
                              failure: Option<CommitStep>, newOid: string) returns (r: Result<string>)
      modifies this`lockHeld, this`staged, this`log, this`head, this`objects
      ensures failure == Some(AcquireLock) ==> lockHeld == old(lockHeld)
      ensures failure != Some(AcquireLock) ==> !lockHeld
      ensures r.Ok? <==> failure.None? && old(isRepo)
      ensures r.Err? ==> Text.StartsWith(r.error, CommitErrorPrefix)
      ensures staged == if Stages(failure) && old(isRepo) then old(staged) + TrackedPaths(appPath) else old(staged)
      ensures r.Ok? ==> r.value == newOid && head == Some(newOid)
      ensures r.Ok? ==> log == [LogEntry(newOid, FormatDeployCommitMessage(appId, appPath, version, changedFiles, manifestTxId))] + old(log)
      ensures r.Ok? ==> objects == old(objects)[newOid := CommitData(
        FormatDeployCommitMessage(appId, appPath, version, changedFiles, manifestTxId), CommitAuthor(old(userName)))]
      ensures r.Err? ==> log == old(log) && head == old(head) && objects == old(objects)
    {
      if failure.Some? && failure.value.AcquireLock? {
        return Fail(LockError);
      }
      lockHeld := true;
      var error := CommitUnderLock(manifestTxId, changedFiles, version, failure, newOid);
      lockHeld := false;  // finally
      if error.Some? {
        return Fail(error.value);
      }
      return Ok(newOid);
    }

    /** The body of `createDeployCommit`'s `try` once the lock is held: `None` when the commit was written. */
    method CommitUnderLock(manifestTxId: string, changedFiles: seq<string>, version: string,
                           failure: Option<CommitStep>, newOid: string) returns (error: Option<string>)
      requires failure.None? || !failure.value.AcquireLock?
      modifies this`staged, this`log, this`head, this`objects
      ensures error.None? <==> failure.None? && isRepo
      ensures staged == if Stages(failure) && isRepo then old(staged) + TrackedPaths(appPath) else old(staged)
      ensures error.None? ==> (head == Some(newOid)
        && log == [LogEntry(newOid, FormatDeployCommitMessage(appId, appPath, version, changedFiles, manifestTxId))] + old(log)
        && objects == old(objects)[newOid := CommitData(
             FormatDeployCommitMessage(appId, appPath, version, changedFiles, manifestTxId), CommitAuthor(userName))])
      ensures error.Some? ==> log == old(log) && head == old(head) && objects == old(objects)
    {
      if (failure.Some? && failure.value.ValidateState?) || !isRepo {
        return Some(InvalidStateError);
      }
      if failure.Some? && failure.value.StageFiles? {
        return Some(LibraryError);
      }
      staged := staged + TrackedPaths(appPath);
      if failure.Some? {
        return Some(LibraryError);
      }
      var message := FormatDeployCommitMessage(appId, appPath, version, changedFiles, manifestTxId);
      log := [LogEntry(newOid, message)] + log;
      head := Some(newOid);
      objects := objects[newOid := CommitData(message, CommitAuthor(userName))];
      return None;
    }
  }

  /** The error `createDeployCommit` rethrows when a step fails with `reason`. */
  function Fail(reason: string): (r: Result<string>)
    ensures r.Err? && Text.StartsWith(r.error, CommitErrorPrefix)
  {
    var text := CommitErrorPrefix + reason;
    assert text[..|CommitErrorPrefix|] == CommitErrorPrefix;
    Err(text)
  }

  const CommitErrorPrefix := "Failed to create deployment commit: "

  /** The paths `createDeployCommit` stages: the app's manifest, then its deployment tracker. */
  function TrackedPaths(appPath: string): seq<string> {
    [NormalizePath(appPath + "/manifest.json"), NormalizePath(appPath + "/deployment-tracker.json")]
  }

  /** Whether a run that fails at `failure` (or not at all) gets as far as staging. */
  predicate Stages(failure: Option<CommitStep>) {
    failure.None? || failure.value.WriteCommit?
  }

  /** The commit author: the configured `user.name`, or `Deployment Bot` when it is unset. */
  function CommitAuthor(userName: string): string {
    if userName != "" then userName else "Deployment Bot"
  }

  /** A fresh deployment commit is the one `findLastDeployCommit` finds next. */
  lemma NewDeployCommitIsFound(oid: string, appId: string, appPath: string, version: string,
                               changedFiles: seq<string>, manifestTxId: string, log: seq<LogEntry>)
    ensures FirstMatch(Prefix([LogEntry(oid, FormatDeployCommitMessage(appId, appPath, version, changedFiles, manifestTxId))] + log, LogDepth),
                       DeployMarker(appId)) == Some(oid)
  {
    MessageCarriesMarker(appId, appPath, version, changedFiles, manifestTxId);
  }
}
