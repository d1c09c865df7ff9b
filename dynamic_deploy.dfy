/**
 * `lib/dynamic-deploy.js`: the incremental deployment of one app. The deployer finds the
 * changed files, uploads them in order, rebuilds the path manifest, uploads it, points an
 * ArNS name at it, writes the deployment tracker, saves the manifest and commits.
 *
 * The services a deployment consults (file reads, the Turbo uploads, the ANT process, the
 * clock and the environment) are given as a `Services` value; the steps that reach outside
 * are recorded, in order, in the deployer's `effects`.
 */
module DynamicDeploy {
  import opened Wrappers
  import opened Json
  import Text
  import opened Seqs
  import opened Assoc
  import opened Utils
  import GitTracker
  import MM = ManifestManager
  import Arns
  import Arweave

  /** `isTrackingFile` of the deployer: manifest, tracker and overrides, judged by base name. */
  predicate IsTrackingFile(file: string) {
    var name := BaseName(file);
    name == "manifest.json" || name == "deployment-tracker.json" || name == "manifest-overrides.json"
  }

  // ---------- Services ----------

  /** The ANT process as a deployment meets it: each call's outcome. */
  datatype AntService = AntService(
    rootWrite: Arns.WriteOutcome,
    rootReread: Arns.Snapshot,
    lookup: Arns.Snapshot,
    create: Arns.WriteOutcome,
    createReread: Arns.Snapshot)

  /** Everything outside the deployer that a deployment consults. */
  datatype Services = Services(
    /** The environment, consulted for the CI flags. */
    env: Env,
    /** What `loadConfig()` gives in that environment (`Utils.LoadConfig(env)`). */
    config: Result<Config>,
    /** The key in the wallet file at the configured path, `None` when it cannot be read or parsed. */
    walletFile: Option<Arweave.Jwk>,
    /** `Date.now()` as text, used in test-mode ids. */
    clock: string,
    /** `new Date().toISOString()`, recorded in the tracker. */
    timestamp: string,
    /** Why reading a file fails, if it does. */
    readError: string -> Option<string>,
    /** A readable file's size in bytes. */
    size: string -> nat,
    /** The Turbo upload of a file's content: its transaction id or the error. */
    upload: string -> Result<string>,
    /** The Turbo upload of the manifest. */
    manifestUpload: Result<string>,
    ant: AntService,
    /** The commit step that fails, if one does, and the id of a new commit. */
    commitFailure: Option<GitTracker.CommitStep>,
    commitOid: string)

  /** `process.env.CI === 'true' || process.env.GITHUB_ACTIONS === 'true'` */
  predicate IsCI(env: Env) {
    ("CI" in env && env["CI"] == "true") || ("GITHUB_ACTIONS" in env && env["GITHUB_ACTIONS"] == "true")
  }

  // ---------- Uploading changed files ----------

  /** The files uploaded: ids by absolute path in upload order, hashes by app-relative path. */
  datatype Uploads = Uploads(newFileIds: seq<(string, string)>, fileHashes: map<string, string>)

  /**
   * The body of `uploadChangedFiles`' loop for the `i`-th file: read it, hash it, then make a
   * test id or upload it; the id, or the message of the first step that fails.
   */
  function Transfer(file: string, i: nat, hash: Result<string>, testMode: bool, s: Services): (r: Result<string>)
    ensures r.Ok? ==> s.readError(file).None? && hash.Ok?
  {
    if s.readError(file).Some? then Err(s.readError(file).value)
    else if hash.Err? then Err(hash.error)
    else if testMode then Ok("test-" + s.clock + "-" + Text.NatToString(i))
    else
      if s.config.Err? then Err(s.config.error) else s.upload(file)
  }

  /** What `loadWallet()` gives the deployer. */
  function Wallet(s: Services): Result<Arweave.Jwk> {
    Arweave.LoadWallet(s.config, s.walletFile)
  }

  /**
   * What `uploadChangedFiles` returns: the wallet is loaded before the loop, so its failure (or
   * the configuration's) ends the call with the bare message, whatever the files and the mode.
   */
  function UploadChanged(appPath: string, files: seq<string>, blobs: map<string, string>, testMode: bool,
                         s: Services): (r: Result<Uploads>)
    ensures s.config.Err? ==> r == Err(s.config.error)
    ensures s.config.Ok? && Wallet(s).Err? ==> r == Err(Arweave.NoWalletError)
    ensures Wallet(s).Ok? ==> r == UploadAll(appPath, files, blobs, testMode, s)
  {
    match Wallet(s)
    case Err(e) => Err(e)
    case Ok(_) => UploadAll(appPath, files, blobs, testMode, s)
  }

  /** The message of a failed upload: the app-relative path and the cause. */
  function UploadFailure(appPath: string, file: string, cause: string): string {
    "Failed to upload " + MM.AppRelative(appPath, file) + ": " + cause
  }

  /** What `uploadChangedFiles` returns for `files`, or the error of the first file that fails. */
  function UploadAll(appPath: string, files: seq<string>, blobs: map<string, string>, testMode: bool, s: Services): Result<Uploads>
    decreases |files|
  {
    if |files| == 0 then Ok(Uploads([], map[]))
    else
      var n := |files| - 1;
      var prior := UploadAll(appPath, files[..n], blobs, testMode, s);
      var f := files[n];
      if prior.Err? then prior
      else
        match TransferAt(files, n, blobs, testMode, s)
        case Err(e) => Err(UploadFailure(appPath, f, e))
        case Ok(id) => Ok(Uploads(SetKey(prior.value.newFileIds, f, id),
                                  prior.value.fileHashes[MM.AppRelative(appPath, f) := blobs[f]]))
  }

  /** Once a prefix of the files has failed, the uploads fail with the same error. */
  lemma {:induction false} UploadAllKeepsError(appPath: string, xs: seq<string>, ys: seq<string>,
                                               blobs: map<string, string>, testMode: bool, s: Services)
    requires UploadAll(appPath, xs, blobs, testMode, s).Err?
    ensures UploadAll(appPath, xs + ys, blobs, testMode, s) == UploadAll(appPath, xs, blobs, testMode, s)
    decreases |ys|
  {
    if |ys| == 0 {
      assert xs + ys == xs;
    } else {
      UploadAllKeepsError(appPath, xs, ys[..|ys| - 1], blobs, testMode, s);
      assert (xs + ys)[..|xs + ys| - 1] == xs + ys[..|ys| - 1];
    }
  }

  /** After uploads of a prefix that succeed, a next transfer that succeeds adds its id and hash. */
  lemma UploadAllSnoc(appPath: string, files: seq<string>, i: nat, blobs: map<string, string>, testMode: bool,
                      s: Services, done: Uploads)
    requires i < |files| && UploadAll(appPath, files[..i], blobs, testMode, s) == Ok(done)
    requires TransferAt(files, i, blobs, testMode, s).Ok?
    ensures files[i] in blobs
    ensures UploadAll(appPath, files[..i + 1], blobs, testMode, s)
      == Ok(Uploads(SetKey(done.newFileIds, files[i], TransferAt(files, i, blobs, testMode, s).value),
                    done.fileHashes[MM.AppRelative(appPath, files[i]) := blobs[files[i]]]))
  {
    assert files[..i + 1][..i] == files[..i];
  }

  /** After uploads of a prefix that succeed, a next transfer that fails ends the uploads with its message. */
  lemma UploadAllStopsAt(appPath: string, files: seq<string>, i: nat, blobs: map<string, string>, testMode: bool,
                         s: Services)
    requires i < |files| && UploadAll(appPath, files[..i], blobs, testMode, s).Ok?
    requires TransferAt(files, i, blobs, testMode, s).Err?
    ensures UploadAll(appPath, files, blobs, testMode, s)
      == Err(UploadFailure(appPath, files[i], TransferAt(files, i, blobs, testMode, s).error))
  {
    var upTo, rest := files[..i + 1], files[i + 1..];
    assert files == upTo + rest;
    UploadAllFailsAtStep(appPath, files, i, blobs, testMode, s);
    UploadAllKeepsError(appPath, upTo, rest, blobs, testMode, s);
  }

  /** The failing transfer ends the uploads of the files up to it. */
  lemma UploadAllFailsAtStep(appPath: string, files: seq<string>, i: nat, blobs: map<string, string>, testMode: bool,
                             s: Services)
    requires i < |files| && UploadAll(appPath, files[..i], blobs, testMode, s).Ok?
    requires TransferAt(files, i, blobs, testMode, s).Err?
    ensures UploadAll(appPath, files[..i + 1], blobs, testMode, s)
      == Err(UploadFailure(appPath, files[i], TransferAt(files, i, blobs, testMode, s).error))
  {
    assert files[..i + 1][..i] == files[..i];
  }

  /** The transfer of the `i`-th file. */
  function TransferAt(files: seq<string>, i: nat, blobs: map<string, string>, testMode: bool, s: Services): Result<string>
    requires i < |files|
  {
    Transfer(files[i], i, GitTracker.FileHash(blobs, files[i]), testMode, s)
  }

  /** A prefix of the files transfers each of its files as the whole list does. */
  lemma TransferAtPrefix(files: seq<string>, n: nat, blobs: map<string, string>, testMode: bool, s: Services)
    requires n <= |files|
    ensures forall i :: 0 <= i < n ==> TransferAt(files[..n], i, blobs, testMode, s) == TransferAt(files, i, blobs, testMode, s)
  {
    forall i | 0 <= i < n
      ensures TransferAt(files[..n], i, blobs, testMode, s) == TransferAt(files, i, blobs, testMode, s)
    {
      assert files[..n][i] == files[i];
    }
  }

  /** The uploads of a non-empty list fail when those of all but the last file fail or the last transfer fails. */
  lemma UploadAllErrStep(appPath: string, files: seq<string>, blobs: map<string, string>, testMode: bool, s: Services)
    requires |files| > 0
    ensures UploadAll(appPath, files, blobs, testMode, s).Err? <==>
      UploadAll(appPath, files[..|files| - 1], blobs, testMode, s).Err? || TransferAt(files, |files| - 1, blobs, testMode, s).Err?
  {
  }

  /** The uploads fail exactly when some file's transfer fails. */
  lemma {:induction false} UploadAllFails(appPath: string, files: seq<string>, blobs: map<string, string>,
                                          testMode: bool, s: Services)
    ensures UploadAll(appPath, files, blobs, testMode, s).Err? <==>
      exists i :: 0 <= i < |files| && TransferAt(files, i, blobs, testMode, s).Err?
    decreases |files|
  {
    if |files| > 0 {
      var n := |files| - 1;
      var init := files[..n];
      UploadAllFails(appPath, init, blobs, testMode, s);
      TransferAtPrefix(files, n, blobs, testMode, s);
      UploadAllErrStep(appPath, files, blobs, testMode, s);
      if TransferAt(files, n, blobs, testMode, s).Err? {
        assert exists i :: 0 <= i < |files| && TransferAt(files, i, blobs, testMode, s).Err?;
      }
    }
  }

  /** Failed uploads report the first file whose transfer fails, by its app-relative path. */
  lemma {:induction false} UploadAllFailsAtFirst(appPath: string, files: seq<string>, blobs: map<string, string>,
                                                 testMode: bool, s: Services)
    requires UploadAll(appPath, files, blobs, testMode, s).Err?
    ensures exists i :: (0 <= i < |files|
      && (forall j :: 0 <= j < i ==> TransferAt(files, j, blobs, testMode, s).Ok?)
      && TransferAt(files, i, blobs, testMode, s).Err?
      && UploadAll(appPath, files, blobs, testMode, s)
           == Err(UploadFailure(appPath, files[i], TransferAt(files, i, blobs, testMode, s).error)))
    decreases |files|
  {
    var n := |files| - 1;
    var init := files[..n];
    TransferAtPrefix(files, n, blobs, testMode, s);
    if UploadAll(appPath, init, blobs, testMode, s).Err? {
      UploadAllFailsAtFirst(appPath, init, blobs, testMode, s);
      var i :| 0 <= i < |init|
        && (forall j :: 0 <= j < i ==> TransferAt(init, j, blobs, testMode, s).Ok?)
        && TransferAt(init, i, blobs, testMode, s).Err?
        && UploadAll(appPath, init, blobs, testMode, s)
             == Err(UploadFailure(appPath, init[i], TransferAt(init, i, blobs, testMode, s).error));
      assert init[i] == files[i];
    } else {
      UploadAllFails(appPath, init, blobs, testMode, s);
    }
  }

  /** After uploads that succeed, the files with an id are exactly the changed files. */
  lemma {:induction false} UploadAllIdsEveryFile(appPath: string, files: seq<string>, blobs: map<string, string>,
                                                 testMode: bool, s: Services)
    requires UploadAll(appPath, files, blobs, testMode, s).Ok?
    ensures Keys(UploadAll(appPath, files, blobs, testMode, s).value.newFileIds) == set f | f in files
    decreases |files|
  {
    if |files| > 0 {
      var n := |files| - 1;
      UploadAllIdsEveryFile(appPath, files[..n], blobs, testMode, s);
      assert files == files[..n] + [files[n]];
      assert (set f | f in files) == (set f | f in files[..n]) + {files[n]};
    }
  }

  /** After uploads that succeed, the paths with a hash are exactly the changed files' app-relative paths. */
  lemma {:induction false} UploadAllHashesEveryFile(appPath: string, files: seq<string>, blobs: map<string, string>,
                                                    testMode: bool, s: Services)
    requires UploadAll(appPath, files, blobs, testMode, s).Ok?
    ensures UploadAll(appPath, files, blobs, testMode, s).value.fileHashes.Keys == RelativeSet(appPath, files)
    decreases |files|
  {
    if |files| > 0 {
      var n := |files| - 1;
      var init := files[..n];
      var last := MM.AppRelative(appPath, files[n]);
      var prior := UploadAll(appPath, init, blobs, testMode, s);
      UploadAllHashesEveryFile(appPath, init, blobs, testMode, s);
      var hashes := prior.value.fileHashes[last := blobs[files[n]]];
      assert UploadAll(appPath, files, blobs, testMode, s).value.fileHashes == hashes;
      assert hashes.Keys == prior.value.fileHashes.Keys + {last};
      RelativeSetSnoc(appPath, files);
    }
  }

  /** The app-relative paths of `files`, as a set. */
  function RelativeSet(appPath: string, files: seq<string>): set<string> {
    set f | f in files :: MM.AppRelative(appPath, f)
  }

  lemma RelativeSetSnoc(appPath: string, files: seq<string>)
    requires |files| > 0
    ensures RelativeSet(appPath, files)
      == RelativeSet(appPath, files[..|files| - 1]) + {MM.AppRelative(appPath, files[|files| - 1])}
  {
    assert files == files[..|files| - 1] + [files[|files| - 1]];
  }

  // ---------- Rebuilding the manifest ----------

  /** The first loop's test: an old entry stays when it is no tracking file and its path is current. */
  predicate Keep(appPath: string, current: set<string>, e: (string, Json)) {
    !IsTrackingFile(JoinPath(appPath, e.0)) && e.0 in current
  }

  /** The old entries the first loop keeps, in order. */
  function KeptEntries(appPath: string, paths: seq<(string, Json)>, current: set<string>): seq<(string, Json)> {
    Filter(paths, e => Keep(appPath, current, e))
  }

  /** The entries the second loop sets: each uploaded non-tracking file's app-relative path with its new id. */
  function NewEntries(appPath: string, ids: seq<(string, string)>): seq<(string, Json)>
    decreases |ids|
  {
    if |ids| == 0 then []
    else
      var n := |ids| - 1;
      NewEntries(appPath, ids[..n])
        + (if IsTrackingFile(ids[n].0) then [] else [(MM.AppRelative(appPath, ids[n].0), MM.IdEntry(JStr(ids[n].1)))])
  }

  /** The entries the third loop sets: each top-level override key with `{ id: value }`. */
  function OverrideIds(overrides: seq<(string, Json)>): (r: seq<(string, Json)>)
    ensures |r| == |overrides|
  {
    seq(|overrides|, i requires 0 <= i < |overrides| => (overrides[i].0, MM.IdEntry(overrides[i].1)))
  }

  /** The paths `updateManifestWithNewFiles` produces: kept entries, then new ids, then overrides. */
  function ReconciledPaths(appPath: string, paths: seq<(string, Json)>, ids: seq<(string, string)>,
                           current: set<string>, overrides: seq<(string, Json)>): seq<(string, Json)> {
    Assign(Assign(Assign([], KeptEntries(appPath, paths, current)), NewEntries(appPath, ids)), OverrideIds(overrides))
  }

  /** The app-relative paths of the uploaded files that are no tracking files. */
  function UploadedPaths(appPath: string, ids: seq<(string, string)>): set<string> {
    set e | e in ids && !IsTrackingFile(e.0) :: MM.AppRelative(appPath, e.0)
  }

  lemma UploadedPathsSnoc(appPath: string, ids: seq<(string, string)>)
    requires |ids| > 0
    ensures var n := |ids| - 1;
      UploadedPaths(appPath, ids)
        == UploadedPaths(appPath, ids[..n]) + (if IsTrackingFile(ids[n].0) then {} else {MM.AppRelative(appPath, ids[n].0)})
  {
    assert ids == ids[..|ids| - 1] + [ids[|ids| - 1]];
  }

  /** The paths with a new entry are exactly the app-relative paths of the uploaded non-tracking files. */
  lemma {:induction false} NewEntriesKeys(appPath: string, ids: seq<(string, string)>)
    ensures Keys(NewEntries(appPath, ids)) == UploadedPaths(appPath, ids)
    decreases |ids|
  {
    if |ids| > 0 {
      var n := |ids| - 1;
      NewEntriesKeys(appPath, ids[..n]);
      NewEntriesSnoc(appPath, ids, n);
      assert ids[..n + 1] == ids;
      if !IsTrackingFile(ids[n].0) {
        KeysAppend(NewEntries(appPath, ids[..n]), [(MM.AppRelative(appPath, ids[n].0), MM.IdEntry(JStr(ids[n].1)))]);
      } else {
        assert NewEntries(appPath, ids[..n]) + [] == NewEntries(appPath, ids[..n]);
      }
      UploadedPathsSnoc(appPath, ids);
    }
  }

  /** An old path is kept exactly when an old entry carries it, it is no tracking file and it is current. */
  lemma KeptEntriesKeys(appPath: string, paths: seq<(string, Json)>, current: set<string>, p: string)
    ensures p in Keys(KeptEntries(appPath, paths, current)) <==>
      p in Keys(paths) && !IsTrackingFile(JoinPath(appPath, p)) && p in current
  {
    var kept := KeptEntries(appPath, paths, current);
    KeysIndex(kept, p);
    KeysIndex(paths, p);
    if p in Keys(kept) {
      var i :| 0 <= i < |kept| && kept[i].0 == p;
      FilterMembership(paths, e => Keep(appPath, current, e), kept[i]);
    }
    if p in Keys(paths) && !IsTrackingFile(JoinPath(appPath, p)) && p in current {
      var i :| 0 <= i < |paths| && paths[i].0 == p;
      FilterMembership(paths, e => Keep(appPath, current, e), paths[i]);
      var j :| 0 <= j < |kept| && kept[j] == paths[i];
    }
  }

  /**
   * In the rebuilt paths, an override wins over everything, a new upload wins over an old entry,
   * and an old entry survives only if kept; the keys are exactly those of the three sources.
   */
  lemma ReconciledLookup(appPath: string, paths: seq<(string, Json)>, ids: seq<(string, string)>,
                         current: set<string>, overrides: seq<(string, Json)>, p: string)
    ensures Keys(ReconciledPaths(appPath, paths, ids, current, overrides))
      == Keys(KeptEntries(appPath, paths, current)) + Keys(NewEntries(appPath, ids)) + Keys(overrides)
    ensures Lookup(ReconciledPaths(appPath, paths, ids, current, overrides), p)
      == if p in Keys(overrides) then Some(MM.IdEntry(LastValue(overrides, p)))
         else if p in Keys(NewEntries(appPath, ids)) then Some(LastValue(NewEntries(appPath, ids), p))
         else if p in Keys(KeptEntries(appPath, paths, current)) then Some(LastValue(KeptEntries(appPath, paths, current), p))
         else None
  {
    var kept := KeptEntries(appPath, paths, current);
    var added := NewEntries(appPath, ids);
    LookupAssign([], kept, p);
    LookupAssign(Assign([], kept), added, p);
    LookupAssign(Assign(Assign([], kept), added), OverrideIds(overrides), p);
    assert Keys<string, Json>([]) == {};
    assert Lookup<string, Json>([], p) == None;
    OverrideIdsKeys(overrides);
    if p in Keys(overrides) {
      OverrideIdsLast(overrides, p);
    }
  }

  lemma {:induction false} OverrideIdsKeys(overrides: seq<(string, Json)>)
    ensures Keys(OverrideIds(overrides)) == Keys(overrides)
    decreases |overrides|
  {
    if |overrides| > 0 {
      OverrideIdsKeys(overrides[1..]);
      assert OverrideIds(overrides)[1..] == OverrideIds(overrides[1..]);
    }
  }

  lemma {:induction false} OverrideIdsLast(overrides: seq<(string, Json)>, p: string)
    requires p in Keys(overrides)
    ensures p in Keys(OverrideIds(overrides))
    ensures LastValue(OverrideIds(overrides), p) == MM.IdEntry(LastValue(overrides, p))
    decreases |overrides|
  {
    OverrideIdsKeys(overrides);
    var n := |overrides| - 1;
    if overrides[n].0 != p {
      KeysSnoc(overrides);
      OverrideIdsLast(overrides[..n], p);
      assert OverrideIds(overrides)[..n] == OverrideIds(overrides[..n]);
    }
  }

  lemma KeptEntriesSnoc(appPath: string, paths: seq<(string, Json)>, current: set<string>, i: nat)
    requires i < |paths|
    ensures KeptEntries(appPath, paths[..i + 1], current)
      == KeptEntries(appPath, paths[..i], current) + (if Keep(appPath, current, paths[i]) then [paths[i]] else [])
  {
    assert paths[..i + 1][..i] == paths[..i];
  }

  lemma NewEntriesSnoc(appPath: string, ids: seq<(string, string)>, i: nat)
    requires i < |ids|
    ensures NewEntries(appPath, ids[..i + 1]) == NewEntries(appPath, ids[..i])
      + (if IsTrackingFile(ids[i].0) then [] else [(MM.AppRelative(appPath, ids[i].0), MM.IdEntry(JStr(ids[i].1)))])
  {
    assert ids[..i + 1][..i] == ids[..i];
  }

  /** One step of the first loop: a kept entry is set in the copy, any other leaves it as it was. */
  lemma KeepStep(appPath: string, paths: seq<(string, Json)>, current: set<string>, i: nat)
    requires i < |paths|
    ensures Assign([], KeptEntries(appPath, paths[..i + 1], current))
      == if Keep(appPath, current, paths[i])
         then SetKey(Assign([], KeptEntries(appPath, paths[..i], current)), paths[i].0, paths[i].1)
         else Assign([], KeptEntries(appPath, paths[..i], current))
  {
    var kept := KeptEntries(appPath, paths[..i], current);
    KeptEntriesSnoc(appPath, paths, current, i);
    if Keep(appPath, current, paths[i]) {
      AssignSnoc([], kept, paths[i]);
    } else {
      assert kept + [] == kept;
    }
  }

  /** The first loop: copies the entries to keep into a new object. */
  method KeepCurrentEntries(appPath: string, paths: seq<(string, Json)>, current: set<string>)
    returns (cleaned: seq<(string, Json)>)
    ensures cleaned == Assign([], KeptEntries(appPath, paths, current))
  {
    cleaned := [];
    var i := 0;
    while i < |paths|
      invariant 0 <= i <= |paths|
      invariant cleaned == Assign([], KeptEntries(appPath, paths[..i], current))
    {
      KeepStep(appPath, paths, current, i);
      if Keep(appPath, current, paths[i]) {
        cleaned := SetKey(cleaned, paths[i].0, paths[i].1);
      }
      i := i + 1;
    }
    assert paths[..i] == paths;
  }

  /** The second loop: sets the new id of every uploaded non-tracking file. */
  method AddNewEntries(appPath: string, paths: seq<(string, Json)>, ids: seq<(string, string)>)
    returns (updated: seq<(string, Json)>)
    ensures updated == Assign(paths, NewEntries(appPath, ids))
  {
    updated := paths;
    var i := 0;
    while i < |ids|
      invariant 0 <= i <= |ids|
      invariant updated == Assign(paths, NewEntries(appPath, ids[..i]))
    {
      NewEntriesSnoc(appPath, ids, i);
      if !IsTrackingFile(ids[i].0) {
        var entry := (MM.AppRelative(appPath, ids[i].0), MM.IdEntry(JStr(ids[i].1)));
        AssignSnoc(paths, NewEntries(appPath, ids[..i]), entry);
        updated := SetKey(updated, entry.0, entry.1);
      } else {
        assert NewEntries(appPath, ids[..i]) + [] == NewEntries(appPath, ids[..i]);
      }
      i := i + 1;
    }
    assert ids[..i] == ids;
  }

  /** The third loop: sets every override key to `{ id: value }`. */
  method ApplyOverrides(paths: seq<(string, Json)>, overrides: seq<(string, Json)>) returns (updated: seq<(string, Json)>)
    ensures updated == Assign(paths, OverrideIds(overrides))
  {
    updated := paths;
    var i := 0;
    while i < |overrides|
      invariant 0 <= i <= |overrides|
      invariant updated == Assign(paths, OverrideIds(overrides[..i]))
    {
      assert OverrideIds(overrides[..i + 1]) == OverrideIds(overrides[..i]) + [(overrides[i].0, MM.IdEntry(overrides[i].1))];
      AssignSnoc(paths, OverrideIds(overrides[..i]), (overrides[i].0, MM.IdEntry(overrides[i].1)));
      updated := SetKey(updated, overrides[i].0, MM.IdEntry(overrides[i].1));
      i := i + 1;
    }
    assert overrides[..i] == overrides;
  }

  // ---------- ArNS ----------

  /** What `deploy` passes as options. */
  datatype Options = Options(useRootName: bool, customUndername: string)

  /** `options.customUndername || commitHash` */
  function Undername(commitHash: string, opts: Options): string {
    if opts.customUndername != "" then opts.customUndername else commitHash
  }

  /** The catch branch of `createArNSRecord`, which reloads the configuration in root mode. */
  function FallbackName(commitHash: string, opts: Options, config: Result<Config>): Result<string> {
    if !opts.useRootName then Ok(Undername(commitHash, opts))
    else if config.Err? then Err(config.error)
    else Ok(config.value.rootArnsName)
  }

  /**
   * `createArNSRecord`: the name the deployment reports. Failures of the configuration, the
   * wallet and the ANT are masked by the bare name; only a missing configuration in root mode
   * makes it fail.
   */
  function CreateArnsRecord(commitHash: string, testMode: bool, opts: Options, s: Services): (r: Result<string>)
    ensures r.Err? ==> opts.useRootName && s.config.Err? && r.error == s.config.error
    ensures testMode ==> r == FallbackName(commitHash, opts, s.config)
    ensures opts.useRootName && s.config.Ok? ==> r == Ok(s.config.value.rootArnsName)
    ensures !testMode && Wallet(s).Err? ==> r == FallbackName(commitHash, opts, s.config)
    ensures !testMode && !opts.useRootName && s.config.Ok? && Wallet(s).Ok? ==>
      var name := Undername(commitHash, opts);
      var full := name + "_" + s.config.value.rootArnsName;
      r == if Arns.Holds(s.ant.lookup, name) then Ok(full)
           else if Arns.CreateUndernameRecord(name, s.ant.create, s.ant.createReread).Success? then Ok(full)
           else Ok(name)
  {
    var config := s.config;
    if testMode then FallbackName(commitHash, opts, config)
    else if config.Err? || Wallet(s).Err? then FallbackName(commitHash, opts, config)
    else if opts.useRootName then
      if Arns.SetRootRecord(s.ant.rootWrite, s.ant.rootReread).Success? then Ok(config.value.rootArnsName)
      else FallbackName(commitHash, opts, config)
    else
      var name := Undername(commitHash, opts);
      if Arns.GetUndernameRecord(name, s.ant.lookup).Some? then Ok(name + "_" + config.value.rootArnsName)
      else if Arns.CreateUndernameRecord(name, s.ant.create, s.ant.createReread).Success? then
        Ok(name + "_" + config.value.rootArnsName)
      else FallbackName(commitHash, opts, config)
  }

  /** Without a wallet no ANT call is made: an undername deployment reports the bare name. */
  lemma NoWalletBareName(commitHash: string, opts: Options, s: Services)
    requires s.config.Ok? && s.config.value.walletJson.None? && s.walletFile.None? && !opts.useRootName
    ensures CreateArnsRecord(commitHash, false, opts, s) == Ok(Undername(commitHash, opts))
  {
  }

  /** In test mode the ANT plays no part: two services with the same configuration give the same name. */
  lemma TestModeIgnoresAnt(commitHash: string, opts: Options, s: Services, t: Services)
    requires s.config == t.config
    ensures CreateArnsRecord(commitHash, true, opts, s) == CreateArnsRecord(commitHash, true, opts, t)
  {
  }

  // ---------- Statistics ----------

  /** `calculateDeploymentStats`' result. */
  datatype Stats = Stats(totalSize: nat, fileCount: nat, unchangedFiles: int, newFileIds: nat)

  /** The sizes of the readable files among `files`; unreadable ones are skipped. */
  function TotalSize(files: seq<string>, s: Services): nat
    decreases |files|
  {
    if |files| == 0 then 0
    else
      var n := |files| - 1;
      TotalSize(files[..n], s) + (if s.readError(files[n]).Some? then 0 else s.size(files[n]))
  }

  /** The total of a concatenation is the sum of the totals. */
  lemma {:induction false} TotalSizeAppend(xs: seq<string>, ys: seq<string>, s: Services)
    ensures TotalSize(xs + ys, s) == TotalSize(xs, s) + TotalSize(ys, s)
    decreases |ys|
  {
    if |ys| == 0 {
      assert xs + ys == xs;
    } else {
      TotalSizeAppend(xs, ys[..|ys| - 1], s);
      assert (xs + ys)[..|xs + ys| - 1] == xs + ys[..|ys| - 1];
    }
  }

  /** `calculateDeploymentStats`: sums the sizes of the changed files it can read. */
  method CalculateDeploymentStats(changedFiles: seq<string>, newFileIds: seq<(string, string)>,
                                  currentFiles: seq<string>, s: Services) returns (stats: Stats)
    ensures stats.totalSize == TotalSize(changedFiles, s)
    ensures stats.fileCount == |changedFiles| && stats.unchangedFiles == |currentFiles| - |changedFiles|
    ensures stats.newFileIds == |Keys(newFileIds)|
  {
    var total := 0;
    var i := 0;
    while i < |changedFiles|
      invariant 0 <= i <= |changedFiles|
      invariant total == TotalSize(changedFiles[..i], s)
    {
      assert changedFiles[..i + 1][..i] == changedFiles[..i];
      if s.readError(changedFiles[i]).None? {
        total := total + s.size(changedFiles[i]);
      }
      i := i + 1;
    }
    assert changedFiles[..i] == changedFiles;
    stats := Stats(total, |changedFiles|, |currentFiles| - |changedFiles|, |Keys(newFileIds)|);
  }

  // ---------- The deployer ----------

  /** The steps of a deployment that reach outside, in the order `deploy` takes them. */
  datatype Effect =
    | FilesUploaded(files: seq<string>)
    | ManifestUploaded(txId: string)
    | NameAssigned(name: string)
    | TrackerUpdated
    | ManifestSaved
    | CommitCreated
  {
    /** The position of the step in a full deployment. */
    function Rank(): nat {
      match this
      case FilesUploaded(_) => 0
      case ManifestUploaded(_) => 1
      case NameAssigned(_) => 2
      case TrackerUpdated => 3
      case ManifestSaved => 4
      case CommitCreated => 5
    }
  }

  /** The steps taken form a prefix of the full sequence: none is skipped or taken out of order. */
  predicate InStepOrder(steps: seq<Effect>) {
    forall i :: 0 <= i < |steps| ==> steps[i].Rank() == i
  }

  /**
   * What `uploadManifest` returns: the wallet is loaded first, then a test id, or the upload of
   * the manifest (which needs the configuration).
   */
  function ManifestTxId(testMode: bool, s: Services): (r: Result<string>)
    ensures s.config.Err? ==> r == Err(s.config.error)
    ensures Wallet(s).Ok? && testMode ==> r == Ok("test-manifest-" + s.clock)
    ensures Wallet(s).Ok? && !testMode ==> r == s.manifestUpload
  {
    match Wallet(s)
    case Err(e) => Err(e)
    case Ok(_) =>
      if testMode then Ok("test-manifest-" + s.clock)
      else
        match s.config
        case Err(e) => Err(e)
        case Ok(_) => s.manifestUpload
  }

  /**
   * A test deployment still loads the configuration: without `ANT_PROCESS_ID` both uploads
   * fail with the configuration's own message, even for no files.
   */
  lemma TestModeNeedsConfiguration(appPath: string, files: seq<string>, blobs: map<string, string>, s: Services)
    requires s.config == LoadConfig(s.env) && EnvValue(s.env, "ANT_PROCESS_ID").None?
    ensures UploadChanged(appPath, files, blobs, true, s) == Err(AntProcessIdError)
    ensures ManifestTxId(true, s) == Err(AntProcessIdError)
  {
  }

  /** Naming fails only for a missing configuration, which a manifest upload that succeeds rules out. */
  lemma NamingAfterManifest(commitHash: string, testMode: bool, opts: Options, s: Services)
    requires ManifestTxId(testMode, s).Ok?
    ensures CreateArnsRecord(commitHash, testMode, opts, s).Ok?
  {
  }

  /** A deployment stopped while preparing has taken no step, or only the file uploads. */
  lemma PreparingTrace(before: seq<Effect>, after: seq<Effect>, files: seq<string>)
    requires after == before || after == before + [FilesUploaded(files)]
    ensures |after| >= |before| && after[..|before|] == before && InStepOrder(after[|before|..])
    ensures |after| <= |before| + 3
  {
    if after != before {
      assert after[|before|..] == [FilesUploaded(files)];
    }
  }

  /** The steps after the naming, in order; a deployment takes a prefix of them. */
  const RecordSteps: seq<Effect> := [TrackerUpdated, ManifestSaved, CommitCreated]

  /** The three preparing steps followed by recording steps give the steps in order. */
  lemma StepOrderJoin(prepared: seq<Effect>, taken: nat)
    requires InStepOrder(prepared) && |prepared| == 3 && taken <= 3
    ensures InStepOrder(prepared + RecordSteps[..taken])
  {
    assert forall j :: 0 <= j < taken ==> RecordSteps[..taken][j].Rank() == j + 3;
  }

  /**
   * The trace of a deployment that got past the naming: the earlier steps untouched, then the three
   * preparing steps and a prefix of the recording steps, in order.
   */
  lemma PublishTrace(before: seq<Effect>, after: seq<Effect>, files: seq<string>, txId: string,
                     undername: string, taken: nat)
    requires taken <= 3
    requires after == before + [FilesUploaded(files), ManifestUploaded(txId), NameAssigned(undername)]
      + RecordSteps[..taken]
    ensures |after| >= |before| && after[..|before|] == before && InStepOrder(after[|before|..])
    ensures taken == 3 ==> after == before + [FilesUploaded(files), ManifestUploaded(txId),
      NameAssigned(undername), TrackerUpdated, ManifestSaved] + [CommitCreated]
    ensures taken == 2 ==> after == before + [FilesUploaded(files), ManifestUploaded(txId),
      NameAssigned(undername), TrackerUpdated, ManifestSaved] + []
  {
    var prepared := [FilesUploaded(files), ManifestUploaded(txId), NameAssigned(undername)];
    StepOrderJoin(prepared, taken);
    assert after[|before|..] == prepared + RecordSteps[..taken];
  }

  /** What a deployment reads before it changes anything: the stores, the blob hashes, the entry point and the overrides. */
  datatype Snapshot = Snapshot(tracker: MM.Tracker, manifest: MM.Stored<MM.Manifest>, blobs: map<string, string>,
                               entryPoint: Result<string>, overrides: Json)

  /**
   * The manifest a deployment saves: the one `loadManifest` gives for the stored file (a fresh
   * one for the entry point when there is none), rebuilt by `updateManifestWithNewFiles`.
   */
  function RebuiltManifest(appPath: string, stored: MM.Stored<MM.Manifest>, newFileIds: seq<(string, string)>,
                           currentFiles: seq<string>, entryPoint: string, overrides: Json): MM.Manifest
  {
    var current := if stored.Parsed? then stored.value else MM.EmptyManifest(entryPoint);
    MM.Manifest(current.kind, MM.ManifestVersion, Some(entryPoint),
      ReconciledPaths(appPath, current.paths, newFileIds, RelativeSet(appPath, currentFiles), MM.OverrideEntries(overrides)))
  }

  /** What has been prepared before the tracker is written. */
  datatype Release = Release(manifest: MM.Manifest, uploads: Uploads, manifestTxId: string, undername: string)

  /** `deploy`'s result. */
  datatype DeployResult =
    | Skipped(appId: string, commitHash: string)
    | Deployed(appId: string, version: string, commitHash: string, manifestTxId: string, undername: string,
               changedFiles: seq<string>, newFileIds: seq<(string, string)>, stats: Stats, testMode: bool)
    | Failed(appId: string, error: string)
  {
    /** The `success` field. */
    predicate Success() {
      !Failed?
    }
  }

  /** `validateApp`'s result. */
  datatype Validation = Valid | Invalid(error: string)

  const NotRepositoryError := "Not in a git repository. Dynamic deployment requires git."

  class DynamicDeployer {
    const appId: string
    const appPath: string
    const manifestManager: MM.ManifestManager
    const gitTracker: GitTracker.GitTracker
    /** The outside steps taken so far. */
    var effects: seq<Effect>

    constructor(manifestManager: MM.ManifestManager, gitTracker: GitTracker.GitTracker)
      requires manifestManager.appId == gitTracker.appId && manifestManager.appPath == gitTracker.appPath
      ensures this.manifestManager == manifestManager && this.gitTracker == gitTracker
      ensures appId == manifestManager.appId && appPath == manifestManager.appPath && effects == []
    {
      appId := manifestManager.appId;
      appPath := manifestManager.appPath;
      this.manifestManager := manifestManager;
      this.gitTracker := gitTracker;
      effects := [];
    }

    predicate Wired()
      reads this
    {
      manifestManager.appId == appId && manifestManager.appPath == appPath
    }

    /** `uploadChangedFiles`: reads, hashes and uploads each changed file in order; the first failure aborts. */
    method UploadChangedFiles(changedFiles: seq<string>, testMode: bool, s: Services) returns (r: Result<Uploads>)
      ensures r == UploadChanged(appPath, changedFiles, gitTracker.blobHashes, testMode, s)
    {
      var wallet := Wallet(s);
      if wallet.Err? {
        return Err(wallet.error);
      }
      var blobs := gitTracker.blobHashes;
      var ids: seq<(string, string)> := [];
      var hashes: map<string, string> := map[];
      var i := 0;
      while i < |changedFiles|
        invariant 0 <= i <= |changedFiles|
        invariant UploadAll(appPath, changedFiles[..i], blobs, testMode, s) == Ok(Uploads(ids, hashes))
      {
        var file := changedFiles[i];
        var hash := gitTracker.GetFileHash(file);
        var outcome := Transfer(file, i, hash, testMode, s);
        if outcome.Err? {
          UploadAllStopsAt(appPath, changedFiles, i, blobs, testMode, s);
          return Err(UploadFailure(appPath, file, outcome.error));
        }
        UploadAllSnoc(appPath, changedFiles, i, blobs, testMode, s, Uploads(ids, hashes));
        hashes := hashes[MM.AppRelative(appPath, file) := hash.value];
        ids := SetKey(ids, file, outcome.value);
        i := i + 1;
      }
      assert changedFiles[..i] == changedFiles;
      return Ok(Uploads(ids, hashes));
    }

    /**
     * `updateManifestWithNewFiles`: version `0.2.0`, the entry point as index, and the paths
     * rebuilt from the kept entries, the new ids and the overrides.
     */
    method UpdateManifestWithNewFiles(current: MM.Manifest, newFileIds: seq<(string, string)>, currentFiles: seq<string>)
      returns (r: Result<MM.Manifest>)
      requires Wired()
      ensures manifestManager.EntryPoint().Err? ==> r == Err(manifestManager.EntryPoint().error)
      ensures manifestManager.EntryPoint().Ok? ==> r == Ok(MM.Manifest(current.kind, MM.ManifestVersion,
        Some(manifestManager.EntryPoint().value),
        ReconciledPaths(appPath, current.paths, newFileIds, RelativeSet(appPath, currentFiles),
          MM.OverrideEntries(manifestManager.LoadManualOverrides()))))
    {
      var entryPoint := manifestManager.GetEntryPoint();
      if entryPoint.Err? {
        return Err(entryPoint.error);
      }
      var index := current.index;
      if index != Some(entryPoint.value) {
        index := Some(entryPoint.value);
      }
      var paths := KeepCurrentEntries(appPath, current.paths, RelativeSet(appPath, currentFiles));
      paths := AddNewEntries(appPath, paths, newFileIds);
      paths := ApplyOverrides(paths, MM.OverrideEntries(manifestManager.LoadManualOverrides()));
      return Ok(MM.Manifest(current.kind, MM.ManifestVersion, index, paths));
    }

    /** Steps 5 to 7 of `deploy`: load the manifest, upload the changed files and rebuild the manifest. */
    method UploadAndRebuild(changedFiles: seq<string>, currentFiles: seq<string>, testMode: bool, s: Services)
      returns (r: Result<(MM.Manifest, Uploads)>)
      requires Wired()
      modifies this`effects, manifestManager`manifestFile
      ensures effects == old(effects) || effects == old(effects) + [FilesUploaded(changedFiles)]
      ensures r.Ok? ==> effects == old(effects) + [FilesUploaded(changedFiles)]
      ensures r.Ok? ==> r.value.0.version == MM.ManifestVersion
      ensures r.Ok? ==> (old(manifestManager.EntryPoint()).Ok?
        && r.value.0 == RebuiltManifest(appPath, old(manifestManager.manifestFile), r.value.1.newFileIds, currentFiles,
             old(manifestManager.EntryPoint()).value, old(manifestManager.LoadManualOverrides())))
      ensures r.Ok? ==> UploadChanged(appPath, changedFiles, gitTracker.blobHashes, testMode, s) == Ok(r.value.1)
      ensures manifestManager.manifestFile == old(manifestManager.manifestFile)
        || (old(manifestManager.manifestFile).Absent? && manifestManager.manifestFile.Parsed?)
    {
      var manifest := manifestManager.LoadManifest();
      if manifest.Err? {
        return Err(manifest.error);
      }
      var uploads := UploadChangedFiles(changedFiles, testMode, s);
      if uploads.Err? {
        return Err(uploads.error);
      }
      effects := effects + [FilesUploaded(changedFiles)];
      var updated := UpdateManifestWithNewFiles(manifest.value, uploads.value.newFileIds, currentFiles);
      if updated.Err? {
        return Err(updated.error);
      }
      return Ok((updated.value, uploads.value));
    }

    /**
     * Steps 5 to 9 of `deploy`: the files and the rebuilt manifest are uploaded, and the manifest
     * is named.
     */
    method Prepare(commitHash: string, changedFiles: seq<string>, currentFiles: seq<string>,
                   testMode: bool, opts: Options, s: Services) returns (r: Result<Release>)
      requires Wired()
      modifies this`effects, manifestManager`manifestFile
      ensures r.Err? ==> effects == old(effects) || effects == old(effects) + [FilesUploaded(changedFiles)]
      ensures r.Ok? ==> (effects == old(effects)
        + [FilesUploaded(changedFiles), ManifestUploaded(r.value.manifestTxId), NameAssigned(r.value.undername)])
      ensures r.Ok? ==> r.value.manifest.version == MM.ManifestVersion
      ensures r.Ok? ==> Prepared(r.value, commitHash, old(Observed()), changedFiles, currentFiles, testMode, opts, s)
    {
      ghost var before := effects;
      var built := UploadAndRebuild(changedFiles, currentFiles, testMode, s);
      if built.Err? {
        return Err(built.error);
      }
      var named := Announce(commitHash, testMode, opts, s);
      if named.Err? {
        return Err(named.error);
      }
      assert effects == before + [FilesUploaded(changedFiles), ManifestUploaded(named.value.0), NameAssigned(named.value.1)];
      return Ok(Release(built.value.0, built.value.1, named.value.0, named.value.1));
    }

    /** Steps 8 and 9 of `deploy`: upload the manifest, then point a name at it. */
    method Announce(commitHash: string, testMode: bool, opts: Options, s: Services) returns (r: Result<(string, string)>)
      modifies this`effects
      ensures r.Err? ==> effects == old(effects) && ManifestTxId(testMode, s) == Err(r.error)
      ensures r.Ok? ==> effects == old(effects) + [ManifestUploaded(r.value.0), NameAssigned(r.value.1)]
      ensures r.Ok? ==> Ok(r.value.0) == ManifestTxId(testMode, s) && Ok(r.value.1) == CreateArnsRecord(commitHash, testMode, opts, s)
    {
      var txId := ManifestTxId(testMode, s);
      if txId.Err? {
        return Err(txId.error);
      }
      effects := effects + [ManifestUploaded(txId.value)];
      var name := CreateArnsRecord(commitHash, testMode, opts, s);
      NamingAfterManifest(commitHash, testMode, opts, s);
      effects := effects + [NameAssigned(name.value)];
      return Ok((txId.value, name.value));
    }

    /**
     * Steps 10 to 12 of `deploy`: write the tracker, save the manifest, and commit unless in test
     * mode or in CI. Returns the error that stops it, if one does.
     */
    method Record(commitHash: string, release: Release, changedFiles: seq<string>, currentFiles: seq<string>,
                  testMode: bool, s: Services) returns (error: Option<string>)
      requires Wired()
      modifies this`effects, manifestManager`trackerFile, manifestManager`manifestFile, gitTracker
      ensures var taken := |effects| - |old(effects)|;
        0 <= taken <= 3 && effects == old(effects) + RecordSteps[..taken]
      ensures error.None? ==> |effects| - |old(effects)| == if !testMode && !IsCI(s.env) then 3 else 2
      ensures |effects| > |old(effects)| ==> manifestManager.trackerFile == MM.Parsed(
        MM.UpdatedTracker(MM.TrackerOnLoad(old(manifestManager.trackerFile)),
          MM.DeploymentEntry(commitHash, release.manifestTxId, MM.RelativeAll(appPath, changedFiles), s.timestamp),
          release.uploads.fileHashes, MM.RelativeAll(appPath, currentFiles)))
      ensures |effects| == |old(effects)| ==> manifestManager.trackerFile == old(manifestManager.trackerFile)
      ensures |effects| > |old(effects)| + 1 ==> manifestManager.manifestFile == MM.Parsed(release.manifest)
      ensures |effects| <= |old(effects)| + 1 ==> manifestManager.manifestFile == old(manifestManager.manifestFile)
      ensures |effects| <= |old(effects)| + 2 ==> gitTracker.log == old(gitTracker.log)
    {
      var tracker := manifestManager.UpdateDeploymentTracker(commitHash, release.manifestTxId, changedFiles,
        release.uploads.fileHashes, currentFiles, s.timestamp);
      if tracker.Err? {
        return Some(tracker.error);
      }
      effects := effects + [TrackerUpdated];
      var saved := manifestManager.SaveManifest(release.manifest);
      if saved.Err? {
        return Some(saved.error);
      }
      effects := effects + [ManifestSaved];
      if !testMode && !IsCI(s.env) {
        error := Commit(release, changedFiles, s);
      } else {
        error := None;
      }
    }

    /** Step 13 of `deploy`: the deployment commit. */
    method Commit(release: Release, changedFiles: seq<string>, s: Services) returns (error: Option<string>)
      modifies this`effects, gitTracker
      ensures error.None? ==> effects == old(effects) + [CommitCreated]
      ensures error.Some? ==> effects == old(effects) && gitTracker.log == old(gitTracker.log)
    {
      var commit := gitTracker.CreateDeployCommit(release.manifestTxId, changedFiles, release.manifest.version,
        s.commitFailure, s.commitOid);
      if commit.Err? {
        return Some(commit.error);
      }
      effects := effects + [CommitCreated];
      return None;
    }

    /** The current files `getChangedFilesByHash` reports: the discovered files git tracks. */
    function CurrentFiles(): seq<string>
      reads manifestManager`listing, gitTracker`isRepo, gitTracker`index
    {
      MM.TrackedFiles(MM.Discovered(manifestManager.listing), gitTracker.isRepo, gitTracker.index)
    }

    /** The changed files `getChangedFilesByHash` reports against the stored tracker. */
    function PendingChanges(): Result<seq<string>>
      reads manifestManager`listing, manifestManager`trackerFile, gitTracker`isRepo, gitTracker`index,
        gitTracker`blobHashes
    {
      MM.DetectChanges(appPath, CurrentFiles(),
        MM.TrackerOnLoad(manifestManager.trackerFile).fileHashes.GetOr(map[]), gitTracker.blobHashes)
    }

    /** What the deployment reads before it changes anything. */
    function Observed(): Snapshot
      reads manifestManager`trackerFile, manifestManager`manifestFile, manifestManager`isAppDirectory,
        manifestManager`listing, manifestManager`present, manifestManager`overridesFile, gitTracker`blobHashes
    {
      Snapshot(MM.TrackerOnLoad(manifestManager.trackerFile), manifestManager.manifestFile, gitTracker.blobHashes,
        manifestManager.EntryPoint(), manifestManager.LoadManualOverrides())
    }

    /**
     * What `release` holds when it was prepared for `commitHash` from what was observed before:
     * the uploads, the manifest's id and the name the services give, and the manifest rebuilt
     * with the uploads' ids.
     */
    predicate Prepared(release: Release, commitHash: string, before: Snapshot, changedFiles: seq<string>,
                       currentFiles: seq<string>, testMode: bool, opts: Options, s: Services)
    {
      UploadChanged(appPath, changedFiles, before.blobs, testMode, s) == Ok(release.uploads)
      && Ok(release.manifestTxId) == ManifestTxId(testMode, s)
      && Ok(release.undername) == CreateArnsRecord(commitHash, testMode, opts, s)
      && before.entryPoint.Ok?
      && release.manifest == RebuiltManifest(appPath, before.manifest, release.uploads.newFileIds, currentFiles,
           before.entryPoint.value, before.overrides)
    }

    /**
     * What the deployment `r` reports and leaves behind, given what was observed before it: the
     * ids of the uploads, the manifest's id and the name the services give; the loaded tracker
     * updated with the uploads' hashes; the stored manifest rebuilt with their ids.
     */
    predicate Published(r: DeployResult, before: Snapshot, currentFiles: seq<string>, testMode: bool, opts: Options,
                        s: Services)
      reads manifestManager`trackerFile, manifestManager`manifestFile
      requires r.Deployed?
    {
      var up := UploadChanged(appPath, r.changedFiles, before.blobs, testMode, s);
      up.Ok? && up.value.newFileIds == r.newFileIds
      && Ok(r.manifestTxId) == ManifestTxId(testMode, s)
      && Ok(r.undername) == CreateArnsRecord(r.commitHash, testMode, opts, s)
      && manifestManager.trackerFile == MM.Parsed(MM.UpdatedTracker(before.tracker,
           MM.DeploymentEntry(r.commitHash, r.manifestTxId, MM.RelativeAll(appPath, r.changedFiles), s.timestamp),
           up.value.fileHashes, MM.RelativeAll(appPath, currentFiles)))
      && before.entryPoint.Ok?
      && manifestManager.manifestFile == MM.Parsed(RebuiltManifest(appPath, before.manifest, r.newFileIds, currentFiles,
           before.entryPoint.value, before.overrides))
    }

    /** Steps 3 and 4 of `deploy`: load (or create) the tracker, then find the changed files. */
    method Scan() returns (r: Result<MM.ChangeSet>)
      requires Wired()
      modifies manifestManager`trackerFile
      ensures r.Ok? ==> (manifestManager.isAppDirectory && old(PendingChanges()) == Ok(r.value.changedFiles)
        && r.value.currentFiles == CurrentFiles())
      ensures r.Ok? <==> manifestManager.isAppDirectory && old(manifestManager.TrackerLoad()).Ok? && old(PendingChanges()).Ok?
      ensures manifestManager.trackerFile == old(manifestManager.trackerFile)
        || (old(manifestManager.trackerFile).Absent? && manifestManager.trackerFile == MM.Parsed(MM.EmptyTracker))
      ensures MM.TrackerOnLoad(manifestManager.trackerFile) == MM.TrackerOnLoad(old(manifestManager.trackerFile))
      ensures Observed() == old(Observed())
    {
      var loaded := manifestManager.LoadDeploymentTracker();
      if loaded.Err? {
        return Err(loaded.error);
      }
      r := manifestManager.GetChangedFilesByHash(gitTracker);
    }

    /**
     * Steps 5 to 14 of `deploy` once there are changed files: prepare, record, and report the
     * statistics.
     */
    method Publish(commitHash: string, changedFiles: seq<string>, currentFiles: seq<string>,
                   testMode: bool, opts: Options, s: Services) returns (r: DeployResult)
      requires Wired()
      modifies this`effects, manifestManager`trackerFile, manifestManager`manifestFile, gitTracker
      ensures r.Deployed? || r.Failed?
      ensures r.Failed? ==> r.appId == appId
      ensures |effects| >= |old(effects)| && effects[..|old(effects)|] == old(effects)
      ensures InStepOrder(effects[|old(effects)|..])
      ensures r.Deployed? ==> (r.changedFiles == changedFiles && r.commitHash == commitHash
        && r.version == MM.ManifestVersion && r.testMode == testMode
        && effects == old(effects) + [FilesUploaded(r.changedFiles), ManifestUploaded(r.manifestTxId),
             NameAssigned(r.undername), TrackerUpdated, ManifestSaved]
             + (if !testMode && !IsCI(s.env) then [CommitCreated] else []))
      ensures |effects| <= |old(effects)| + 3 ==> manifestManager.trackerFile == old(manifestManager.trackerFile)
      ensures r.Deployed? ==> Published(r, old(Observed()), currentFiles, testMode, opts, s)
    {
      ghost var before := effects;
      ghost var observed := Observed();
      var release := Prepare(commitHash, changedFiles, currentFiles, testMode, opts, s);
      if release.Err? {
        PreparingTrace(before, effects, changedFiles);
        return Failed(appId, release.error);
      }
      assert observed.tracker == MM.TrackerOnLoad(manifestManager.trackerFile);
      r := Finish(commitHash, release.value, observed, changedFiles, currentFiles, testMode, opts, s);
      PublishTrace(before, effects, changedFiles, release.value.manifestTxId, release.value.undername,
        |effects| - |before| - 3);
    }

    /** Steps 10 to 14 of `deploy` for a prepared release: record it, then report it with its statistics. */
    method Finish(commitHash: string, release: Release, ghost before: Snapshot,
                  changedFiles: seq<string>, currentFiles: seq<string>, testMode: bool, opts: Options, s: Services)
      returns (r: DeployResult)
      requires Wired()
      modifies this`effects, manifestManager`trackerFile, manifestManager`manifestFile, gitTracker
      ensures r.Deployed? || r.Failed?
      ensures r.Failed? ==> r.appId == appId
      ensures var taken := |effects| - |old(effects)|;
        0 <= taken <= 3 && effects == old(effects) + RecordSteps[..taken]
      ensures r.Deployed? ==> |effects| - |old(effects)| == if !testMode && !IsCI(s.env) then 3 else 2
      ensures r.Deployed? ==> r == Deployed(appId, release.manifest.version, commitHash, release.manifestTxId,
        release.undername, changedFiles, release.uploads.newFileIds, r.stats, testMode)
      ensures r.Deployed? ==> manifestManager.trackerFile == MM.Parsed(
        MM.UpdatedTracker(MM.TrackerOnLoad(old(manifestManager.trackerFile)),
          MM.DeploymentEntry(commitHash, release.manifestTxId, MM.RelativeAll(appPath, changedFiles), s.timestamp),
          release.uploads.fileHashes, MM.RelativeAll(appPath, currentFiles)))
      ensures r.Deployed? ==> manifestManager.manifestFile == MM.Parsed(release.manifest)
      ensures |effects| == |old(effects)| ==> manifestManager.trackerFile == old(manifestManager.trackerFile)
      ensures r.Deployed? && Prepared(release, commitHash, before, changedFiles, currentFiles, testMode, opts, s)
          && before.tracker == MM.TrackerOnLoad(old(manifestManager.trackerFile))
        ==> Published(r, before, currentFiles, testMode, opts, s)
    {
      var error := Record(commitHash, release, changedFiles, currentFiles, testMode, s);
      if error.Some? {
        return Failed(appId, error.value);
      }
      var stats := CalculateDeploymentStats(changedFiles, release.uploads.newFileIds, currentFiles, s);
      r := Deployed(appId, release.manifest.version, commitHash, release.manifestTxId,
        release.undername, changedFiles, release.uploads.newFileIds, stats, testMode);
    }

    /**
     * `deploy`: the whole sequence. With no changed files nothing reaches outside; the tracker is
     * written only after the manifest upload and the naming; every error ends it with `Failed`.
     */
    method Deploy(testMode: bool, opts: Options, s: Services) returns (r: DeployResult)
      requires Wired()
      modifies this`effects, manifestManager`trackerFile, manifestManager`manifestFile, gitTracker
      ensures |effects| >= |old(effects)| && effects[..|old(effects)|] == old(effects)
      ensures InStepOrder(effects[|old(effects)|..])
      ensures r.Failed? ==> r.appId == appId
      ensures !old(gitTracker.isRepo) ==> r == Failed(appId, NotRepositoryError) && effects == old(effects)
      ensures r.Skipped? <==> old(gitTracker.isRepo && manifestManager.isAppDirectory
        && manifestManager.TrackerLoad().Ok?) && old(PendingChanges()) == Ok([])
      ensures r.Skipped? ==> (effects == old(effects) && r.commitHash == old(gitTracker.GetCommitInfo("")).shortHash
        && old(gitTracker.isRepo) && manifestManager.isAppDirectory && old(PendingChanges()) == Ok([])
        && manifestManager.manifestFile == old(manifestManager.manifestFile) && gitTracker.log == old(gitTracker.log))
      ensures r.Deployed? ==> (old(gitTracker.isRepo) && manifestManager.isAppDirectory
        && old(PendingChanges()) == Ok(r.changedFiles) && |r.changedFiles| > 0
        && r.commitHash == old(gitTracker.GetCommitInfo("")).shortHash
        && r.version == MM.ManifestVersion && r.testMode == testMode
        && effects == old(effects) + [FilesUploaded(r.changedFiles), ManifestUploaded(r.manifestTxId),
             NameAssigned(r.undername), TrackerUpdated, ManifestSaved]
             + (if !testMode && !IsCI(s.env) then [CommitCreated] else []))
      ensures |effects| <= |old(effects)| + 3 ==> (manifestManager.trackerFile == old(manifestManager.trackerFile)
        || (old(manifestManager.trackerFile).Absent? && manifestManager.trackerFile == MM.Parsed(MM.EmptyTracker)))
      ensures r.Deployed? ==> Published(r, old(Observed()), old(CurrentFiles()), testMode, opts, s)
    {
      if !gitTracker.isRepo {
        return Failed(appId, NotRepositoryError);
      }
      var info := gitTracker.GetCommitInfo("");
      var changes := Scan();
      if changes.Err? {
        return Failed(appId, changes.error);
      }
      if |changes.value.changedFiles| == 0 {
        return Skipped(appId, info.shortHash);
      }
      r := Publish(info.shortHash, changes.value.changedFiles, changes.value.currentFiles, testMode, opts, s);
    }

    /**
     * What `validateApp` reports in the current state: the first failure of the directory, the
     * tracker, the scan, the tracked files and the entry point, in that order.
     */
    function Validity(): Validation
      reads manifestManager`isAppDirectory, manifestManager`listing, manifestManager`present,
        manifestManager`trackerFile, manifestManager`writable, gitTracker`isRepo, gitTracker`index,
        gitTracker`blobHashes
    {
      if !manifestManager.isAppDirectory then Invalid("App path does not exist: " + appPath)
      else if manifestManager.TrackerLoad().Err? then Invalid(manifestManager.TrackerLoad().error)
      else if PendingChanges().Err? then Invalid(PendingChanges().error)
      else if |CurrentFiles()| == 0 then Invalid("No git-tracked files found in " + appPath)
      else if manifestManager.EntryPoint().Err? then Invalid(manifestManager.EntryPoint().error)
      else Valid
    }

    /**
     * `validateApp`: the app has git-tracked files and an entry point. The scan may create the
     * tracker file, which reads the same afterwards.
     */
    method ValidateApp() returns (r: Validation)
      requires Wired()
      modifies manifestManager`trackerFile
      ensures r == old(Validity())
      ensures r.Valid? <==> old(manifestManager.isAppDirectory && manifestManager.TrackerLoad().Ok?
        && PendingChanges().Ok? && |CurrentFiles()| > 0 && manifestManager.EntryPoint().Ok?)
      ensures manifestManager.TrackerLoad() == old(manifestManager.TrackerLoad())
      ensures Observed() == old(Observed()) && PendingChanges() == old(PendingChanges())
      ensures !manifestManager.isAppDirectory ==> r == Invalid("App path does not exist: " + appPath)
      ensures r.Valid? ==> (manifestManager.isAppDirectory && manifestManager.EntryPoint().Ok?
        && |MM.TrackedFiles(MM.Discovered(manifestManager.listing), gitTracker.isRepo, gitTracker.index)| > 0)
      ensures manifestManager.isAppDirectory
        && |MM.TrackedFiles(MM.Discovered(manifestManager.listing), gitTracker.isRepo, gitTracker.index)| == 0
        && (old(manifestManager.trackerFile).Parsed? || (old(manifestManager.trackerFile).Absent? && manifestManager.writable))
        && old(PendingChanges()).Ok?
        ==> r == Invalid("No git-tracked files found in " + appPath)
    {
      var changes := manifestManager.GetChangedFilesByHash(gitTracker);
      if changes.Err? {
        return Invalid(changes.error);
      }
      if |changes.value.currentFiles| == 0 {
        return Invalid("No git-tracked files found in " + appPath);
      }
      var entryPoint := manifestManager.GetEntryPoint();
      if entryPoint.Err? {
        return Invalid(entryPoint.error);
      }
      return Valid;
    }
  }
}
