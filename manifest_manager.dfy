/**
 * `lib/manifest-manager.js`: one app's manifest, deployment tracker and manual overrides on
 * disk, the discovery of its deployable files, hash-based change detection and the tracker
 * update after a deployment. Paths are relative to the repository root; an app file is
 * `JoinPath(appPath, name)` and its app-relative path is `AppRelative(appPath, file)`.
 */
module ManifestManager {
  import opened Wrappers
  import opened Json
  import Text
  import opened Seqs
  import opened Assoc
  import opened Utils
  import GitTracker

  // ---------- Stored values ----------

  /** A JSON file on disk: missing, present but not parseable, or parsed. */
  datatype Stored<T> = Absent | Unparsable | Parsed(value: T)

  /** The messages of a failed `JSON.parse` and of a failed write; their text comes from the runtime. */
  const ParseError := "Unexpected token in JSON"
  const WriteError := "permission denied"

  /**
   * A value of the tracker's `fileHashes`: a hash string, or the older `{oid}` object form,
   * where `""` stands for an object without a truthy `oid`.
   */
  datatype StoredHash = Plain(hash: string) | Legacy(oid: string)

  /** What a current hash is compared with; `None` for a falsy string or an object without an oid. */
  function Comparable(h: StoredHash): Option<string> {
    match h
    case Plain(s) => if s == "" then None else Some(s)
    case Legacy(oid) => if oid == "" then None else Some(oid)
  }

  /** `getChangedFilesByHash`'s test: no stored value, or the stored hash (or legacy oid) differs. */
  predicate HashChanged(current: string, stored: Option<StoredHash>) {
    stored.None? || Comparable(stored.value) != Some(current)
  }

  /** `m[k]`, with `undefined` as `None`. */
  function Get<K, V>(m: map<K, V>, k: K): (r: Option<V>)
    ensures r.Some? <==> k in m
    ensures r.Some? ==> r.value == m[k]
  {
    if k in m then Some(m[k]) else None
  }

  /** One element of `recentDeployments`. */
  datatype DeploymentEntry = DeploymentEntry(commit: string, manifestTxId: string, changedFiles: seq<string>, deployed: string)

  /**
   * The deployment tracker as parsed from disk: any field may be missing. `trackerVersion`
   * is `""` when it is missing or empty (both are falsy).
   */
  datatype Tracker = Tracker(
    trackerVersion: string,
    lastDeployCommit: Option<string>,
    lastDeployed: Option<string>,
    deploymentCount: Option<int>,
    fileHashes: Option<map<string, StoredHash>>,
    recentDeployments: Option<seq<DeploymentEntry>>)

  /** `createEmptyTracker` */
  const EmptyTracker := Tracker("1.0.0", None, None, Some(0), Some(map[]), Some([]))

  /** The tracker a load returns: the parsed one, or the empty tracker that a load creates. */
  function TrackerOnLoad(s: Stored<Tracker>): Tracker {
    if s.Parsed? then s.value else EmptyTracker
  }

  /** A path manifest; `paths` maps app-relative paths to entries such as `{id: txId}`, in insertion order. */
  datatype Manifest = Manifest(kind: string, version: string, index: Option<string>, paths: seq<(string, Json)>)

  const ManifestKind := "arweave/paths"
  const ManifestVersion := "0.2.0"

  /** The manifest entry `{ id: txId }`. */
  function IdEntry(id: Json): Json {
    JObj([("id", id)])
  }

  /** `createEmptyManifest` with the entry point already resolved. */
  function EmptyManifest(entryPoint: string): Manifest {
    Manifest(ManifestKind, ManifestVersion, Some(entryPoint), [])
  }

  /** `Object.entries` of the value `loadManualOverrides` returns. */
  function OverrideEntries(v: Json): (r: seq<(string, Json)>)
    ensures v.JObj? ==> r == v.fields
    ensures v.JArr? ==> |r| == |v.items| && forall i :: 0 <= i < |r| ==> r[i] == (Text.NatToString(i), v.items[i])
    ensures !(v.JObj? || v.JArr? || v.JStr?) ==> r == []
  {
    match v
    case JObj(fields) => fields
    case JArr(items) => seq(|items|, i requires 0 <= i < |items| => (Text.NatToString(i), items[i]))
    case JStr(s) => seq(|s|, i requires 0 <= i < |s| => (Text.NatToString(i), JStr([s[i]])))
    case _ => []
  }

  // ---------- File discovery ----------

  /** One entry of the recursive directory walk: its path, its base name, and whether `stat` reports a non-directory. */
  datatype ListedFile = ListedFile(path: string, name: string, deployable: bool)

  /** The names `discoverAppFiles` skips: manifest, tracker and overrides. */
  predicate IsSkippedName(name: string) {
    name == "manifest.json" || name == "deployment-tracker.json" || name == "manifest-overrides.json"
  }

  predicate Keeps(f: ListedFile) {
    !IsSkippedName(f.name) && f.deployable
  }

  /** The paths `discoverAppFiles` returns for a walk that listed `listing`, in walk order. */
  function Discovered(listing: seq<ListedFile>): (r: seq<string>)
    ensures |r| <= |listing|
    decreases |listing|
  {
    if |listing| == 0 then []
    else
      var f := listing[|listing| - 1];
      Discovered(listing[..|listing| - 1]) + (if Keeps(f) then [f.path] else [])
  }

  /** A path is discovered exactly when some listed, non-skipped, deployable file has it. */
  lemma {:induction false} DiscoveredMembership(listing: seq<ListedFile>, p: string)
    ensures p in Discovered(listing) <==> exists i :: 0 <= i < |listing| && listing[i].path == p && Keeps(listing[i])
    decreases |listing|
  {
    if |listing| > 0 {
      var init := listing[..|listing| - 1];
      DiscoveredMembership(init, p);
      if p in Discovered(init) {
        var i :| 0 <= i < |init| && init[i].path == p && Keeps(init[i]);
        assert listing[i] == init[i];
      }
      if exists i :: 0 <= i < |listing| && listing[i].path == p && Keeps(listing[i]) {
        var i :| 0 <= i < |listing| && listing[i].path == p && Keeps(listing[i]);
        if i < |init| {
          assert init[i] == listing[i];
        }
      }
    }
  }

  /** `normalizePath(path.relative(appPath, file))` */
  function AppRelative(appPath: string, file: string): string {
    NormalizePath(RelativePath(appPath, file))
  }

  /** The app-relative path of a file named inside the app is its normalised name. */
  lemma AppRelativeOfJoin(appPath: string, name: string)
    ensures AppRelative(appPath, JoinPath(appPath, name)) == NormalizePath(name)
  {
    RelativeOfJoin(appPath, name);
  }

  /** The names `getEntryPoint` tries, in order. */
  const EntryCandidates: seq<string> := ["index.html", "main.html", "app.html", "index.js", "main.js", "app.js", "index.txt"]

  /** The first of `names` that exists in the app directory. */
  function FirstPresent(appPath: string, present: set<string>, names: seq<string>): Option<string>
    decreases |names|
  {
    if |names| == 0 then None
    else if JoinPath(appPath, names[0]) in present then Some(names[0])
    else FirstPresent(appPath, present, names[1..])
  }

  /** `FirstPresent` finds nothing exactly when no name exists, and otherwise the earliest existing name. */
  lemma {:induction false} FirstPresentIsFirst(appPath: string, present: set<string>, names: seq<string>)
    ensures FirstPresent(appPath, present, names).None? <==> forall i :: 0 <= i < |names| ==> JoinPath(appPath, names[i]) !in present
    ensures FirstPresent(appPath, present, names).Some? ==> exists i :: (0 <= i < |names|
      && names[i] == FirstPresent(appPath, present, names).value
      && JoinPath(appPath, names[i]) in present
      && forall j :: 0 <= j < i ==> JoinPath(appPath, names[j]) !in present)
    decreases |names|
  {
    if |names| > 0 && JoinPath(appPath, names[0]) !in present {
      var rest := names[1..];
      FirstPresentIsFirst(appPath, present, rest);
      assert forall i :: 1 <= i < |names| ==> names[i] == rest[i - 1];
      if FirstPresent(appPath, present, rest).Some? {
        var k :| 0 <= k < |rest| && rest[k] == FirstPresent(appPath, present, rest).value
          && JoinPath(appPath, rest[k]) in present
          && forall j :: 0 <= j < k ==> JoinPath(appPath, rest[j]) !in present;
        assert names[k + 1] == rest[k];
      }
    }
  }

  /**
   * `getEntryPoint` for an app whose existing paths are `present` and whose discovery gives
   * `discovered`: the first existing candidate name, else the first discovered file, else an error.
   */
  function EntryPointOf(appId: string, appPath: string, present: set<string>, discovered: Result<seq<string>>): Result<string> {
    match FirstPresent(appPath, present, EntryCandidates)
    case Some(e) => Ok(e)
    case None =>
      if discovered.Err? then Err(discovered.error)
      else if |discovered.value| > 0 then Ok(AppRelative(appPath, discovered.value[0]))
      else Err("No entry point found for app " + appId)
  }

  /**
   * The entry point is the earliest candidate name that exists; only when none exists is it
   * the first discovered file, and with no files it is an error.
   */
  lemma EntryPointResolution(appId: string, appPath: string, present: set<string>, discovered: Result<seq<string>>)
    ensures (exists i :: 0 <= i < |EntryCandidates| && JoinPath(appPath, EntryCandidates[i]) in present) ==>
      var r := EntryPointOf(appId, appPath, present, discovered);
      r.Ok? && exists i :: (0 <= i < |EntryCandidates| && EntryCandidates[i] == r.value
        && JoinPath(appPath, r.value) in present
        && forall j :: 0 <= j < i ==> JoinPath(appPath, EntryCandidates[j]) !in present)
    ensures (forall i :: 0 <= i < |EntryCandidates| ==> JoinPath(appPath, EntryCandidates[i]) !in present) ==>
      EntryPointOf(appId, appPath, present, discovered)
        == if discovered.Err? then Err(discovered.error)
           else if |discovered.value| > 0 then Ok(AppRelative(appPath, discovered.value[0]))
           else Err("No entry point found for app " + appId)
  {
    FirstPresentIsFirst(appPath, present, EntryCandidates);
  }

  // ---------- Change detection ----------

  /** `getChangedFilesByHash`' result. */
  datatype ChangeSet = ChangeSet(changedFiles: seq<string>, currentFiles: seq<string>)

  /** `currentFiles`: the discovered files that git tracks, in discovery order. */
  function TrackedFiles(discovered: seq<string>, isRepo: bool, index: seq<string>): seq<string> {
    Filter(discovered, f => isRepo && GitTracker.InIndex(index, f))
  }

  /** Whether `f` has a current blob hash that counts as changed against the stored table. */
  predicate FileChanged(appPath: string, stored: map<string, StoredHash>, blobs: map<string, string>, f: string) {
    f in blobs && HashChanged(blobs[f], Get(stored, AppRelative(appPath, f)))
  }

  /** The loop of `getChangedFilesByHash` over `tracked`: the changed files in order, or the first hashing error. */
  function DetectChanges(appPath: string, tracked: seq<string>, stored: map<string, StoredHash>,
                         blobs: map<string, string>): Result<seq<string>>
    decreases |tracked|
  {
    if |tracked| == 0 then Ok([])
    else
      var prior := DetectChanges(appPath, tracked[..|tracked| - 1], stored, blobs);
      var f := tracked[|tracked| - 1];
      if prior.Err? then prior
      else if f !in blobs then Err(GitTracker.FileHashError(f))
      else Ok(prior.value + (if FileChanged(appPath, stored, blobs, f) then [f] else []))
  }

  /** Once a prefix has failed, the whole scan fails with the same error. */
  lemma {:induction false} DetectChangesKeepsError(appPath: string, xs: seq<string>, ys: seq<string>,
                                                  stored: map<string, StoredHash>, blobs: map<string, string>)
    requires DetectChanges(appPath, xs, stored, blobs).Err?
    ensures DetectChanges(appPath, xs + ys, stored, blobs) == DetectChanges(appPath, xs, stored, blobs)
    decreases |ys|
  {
    if |ys| == 0 {
      assert xs + ys == xs;
    } else {
      DetectChangesKeepsError(appPath, xs, ys[..|ys| - 1], stored, blobs);
      assert (xs + ys)[..|xs + ys| - 1] == xs + ys[..|ys| - 1];
    }
  }

  /**
   * The scan fails exactly when some tracked file has no blob hash; otherwise it yields the
   * tracked files that changed, as an order-preserving selection.
   */
  lemma {:induction false} DetectChangesIsFilter(appPath: string, tracked: seq<string>,
                                                 stored: map<string, StoredHash>, blobs: map<string, string>)
    ensures DetectChanges(appPath, tracked, stored, blobs).Err? <==> exists i :: 0 <= i < |tracked| && tracked[i] !in blobs
    ensures DetectChanges(appPath, tracked, stored, blobs).Ok? ==>
      DetectChanges(appPath, tracked, stored, blobs).value == Filter(tracked, f => FileChanged(appPath, stored, blobs, f))
    decreases |tracked|
  {
    if |tracked| > 0 {
      var init := tracked[..|tracked| - 1];
      DetectChangesIsFilter(appPath, init, stored, blobs);
      if exists i :: 0 <= i < |init| && init[i] !in blobs {
        var i :| 0 <= i < |init| && init[i] !in blobs;
        assert tracked[i] == init[i];
      }
      if exists i :: 0 <= i < |tracked| && tracked[i] !in blobs {
        var i :| 0 <= i < |tracked| && tracked[i] !in blobs;
        if i < |init| {
          assert init[i] == tracked[i];
        }
      }
    }
  }

  /**
   * A tracked file is reported changed exactly when it has no stored hash or its current
   * hash differs from the stored hash (a legacy value compared by its oid); stored paths that
   * are no longer tracked are never reported.
   */
  lemma ChangedFilesExactly(appPath: string, tracked: seq<string>, stored: map<string, StoredHash>,
                            blobs: map<string, string>, f: string)
    requires DetectChanges(appPath, tracked, stored, blobs).Ok?
    ensures f in DetectChanges(appPath, tracked, stored, blobs).value <==>
      f in tracked && f in blobs && HashChanged(blobs[f], Get(stored, AppRelative(appPath, f)))
  {
    DetectChangesIsFilter(appPath, tracked, stored, blobs);
    FilterMembership(tracked, g => FileChanged(appPath, stored, blobs, g), f);
    if f in tracked {
      var i :| 0 <= i < |tracked| && tracked[i] == f;
    }
  }

  // ---------- Tracker update ----------

  /** `tracker.deploymentCount || 0` */
  function CountOf(c: Option<int>): int {
    if c.Some? then c.value else 0
  }

  /** The migration loop's effect on one value: a legacy object with an oid becomes that oid. */
  function Migrated(h: StoredHash): StoredHash {
    if h.Legacy? && h.oid != "" then Plain(h.oid) else h
  }

  /** `{ ...stored, ...uploaded }` followed by the migration of legacy values. */
  function MergedHashes(stored: map<string, StoredHash>, uploaded: map<string, string>): map<string, StoredHash> {
    map k | k in stored.Keys + uploaded.Keys :: if k in uploaded then Plain(uploaded[k]) else Migrated(stored[k])
  }

  /** The entries of `hashes` whose path is in `keep` (the clean-up loop). */
  function Pruned(hashes: map<string, StoredHash>, keep: set<string>): map<string, StoredHash> {
    map k | k in hashes && k in keep :: hashes[k]
  }

  /** The app-relative paths of `files`, in order. */
  function RelativeAll(appPath: string, files: seq<string>): (r: seq<string>)
    ensures |r| == |files|
  {
    seq(|files|, i requires 0 <= i < |files| => AppRelative(appPath, files[i]))
  }

  /** The tracker `updateDeploymentTracker` writes, given the loaded one. */
  function UpdatedTracker(t: Tracker, entry: DeploymentEntry, uploaded: map<string, string>, current: seq<string>): (r: Tracker)
    ensures r.lastDeployCommit == Some(entry.commit) && r.lastDeployed == Some(entry.deployed)
    ensures r.deploymentCount == Some(CountOf(t.deploymentCount) + 1)
    ensures r.trackerVersion != ""
    ensures r.recentDeployments.Some? && r.fileHashes.Some?
    ensures var recent := r.recentDeployments.value; var before := t.recentDeployments.GetOr([]);
      0 < |recent| <= 3 && recent[0] == entry && recent[1..] == Prefix(before, 2)
    ensures var h := r.fileHashes.value;
      (forall k :: k in uploaded && (|current| == 0 || k in current) ==> k in h && h[k] == Plain(uploaded[k]))
      && (|current| > 0 ==> forall k :: k in h ==> k in current)
      && (|current| == 0 ==> h.Keys == t.fileHashes.GetOr(map[]).Keys + uploaded.Keys)
      && (forall k :: k in h && h[k].Legacy? ==> k !in uploaded && h[k] == Legacy(""))
  {
    var merged := MergedHashes(t.fileHashes.GetOr(map[]), uploaded);
    var before := t.recentDeployments.GetOr([]);
    var recent := Prefix([entry] + before, 3);
    assert recent[1..] == Prefix(before, 2);
    Tracker(
      if t.trackerVersion == "" then "1.0.0" else t.trackerVersion,
      Some(entry.commit),
      Some(entry.deployed),
      Some(CountOf(t.deploymentCount) + 1),
      Some(if |current| > 0 then Pruned(merged, set f | f in current) else merged),
      Some(recent))
  }

  /**
   * A stored hash that no upload overwrites and the clean-up does not drop survives, migrated;
   * with current files given, each of them that was uploaded or stored keeps a hash.
   */
  lemma UpdatedTrackerKeepsStored(t: Tracker, entry: DeploymentEntry, uploaded: map<string, string>,
                                  current: seq<string>, k: string)
    ensures var h := UpdatedTracker(t, entry, uploaded, current).fileHashes.value;
      var stored := t.fileHashes.GetOr(map[]);
      k in stored && k !in uploaded && (|current| == 0 || k in current) ==> k in h && h[k] == Migrated(stored[k])
    ensures var h := UpdatedTracker(t, entry, uploaded, current).fileHashes.value;
      var stored := t.fileHashes.GetOr(map[]);
      |current| > 0 && k in current && (k in uploaded || k in stored) ==> k in h
  {
  }

  // ---------- Version ----------

  /** A JavaScript number as `Number(part)` produces it from a version part, or `undefined`. */
  datatype JsNumber = Finite(n: int) | Infinite(negative: bool) | NaN | Undefined

  /** The base a `0x`, `0o` or `0b` prefix (in either case) selects, or 0 when there is none. */
  function PrefixRadix(t: string): nat {
    if |t| < 2 || t[0] != '0' then 0
    else if t[1] == 'x' || t[1] == 'X' then 16
    else if t[1] == 'o' || t[1] == 'O' then 8
    else if t[1] == 'b' || t[1] == 'B' then 2
    else 0
  }

  /**
   * `Number(part)` for a part without a dot: blank text is 0; `0x`, `0o` or `0b` and digits read
   * in that base; otherwise an optional sign, then `Infinity` or decimal digits; anything else
   * is `NaN`.
   */
  function NumberOf(part: string): JsNumber {
    var t := Text.Trim(part);
    var radix := PrefixRadix(t);
    if t == "" then Finite(0)
    else if radix != 0 then
      if |t| > 2 && Text.AllRadixDigits(t[2..], radix) then Finite(Text.RadixValue(t[2..], radix)) else NaN
    else SignedNumber(t)
  }

  /** A decimal literal: an optional sign, then decimal digits or `Infinity`; anything else is `NaN`. */
  function SignedNumber(t: string): JsNumber {
    var negative := |t| > 0 && t[0] == '-';
    var u := if |t| > 0 && (t[0] == '-' || t[0] == '+') then t[1..] else t;
    if |u| > 0 && Text.AllDigits(u) then
      var v: int := Text.DigitsValue(u);
      Finite(if negative then -v else v)
    else if u == "Infinity" then Infinite(negative)
    else NaN
  }

  /** Decimal digits, with or without a minus sign in front, read as their signed value. */
  lemma SignedDigits(u: string)
    requires |u| > 0 && Text.AllDigits(u)
    ensures SignedNumber(u) == Finite(Text.DigitsValue(u))
    ensures SignedNumber("-" + u) == Finite(-(Text.DigitsValue(u) as int))
  {
    SignedUnsigned(u);
    SignedMinus(u);
  }

  lemma SignedUnsigned(u: string)
    requires |u| > 0 && Text.AllDigits(u)
    ensures SignedNumber(u) == Finite(Text.DigitsValue(u))
  {
    assert Text.IsDigit(u[0]);
  }

  lemma SignedMinus(u: string)
    requires |u| > 0 && Text.AllDigits(u)
    ensures SignedNumber("-" + u) == Finite(-(Text.DigitsValue(u) as int))
  {
    var t := "-" + u;
    assert t[0] == '-' && t[1..] == u;
  }

  /** `${x}` */
  function Render(x: JsNumber): string {
    match x
    case Finite(n) => Text.IntText(n)
    case Infinite(negative) => if negative then "-Infinity" else "Infinity"
    case NaN => "NaN"
    case Undefined => "undefined"
  }

  /** `x + 1` */
  function Succ(x: JsNumber): JsNumber {
    match x
    case Finite(n) => Finite(n + 1)
    case Infinite(_) => x
    case _ => NaN
  }

  /** `incrementVersion`: splits at dots, reads the first three parts as numbers, adds one to the third. */
  function IncrementVersion(v: string): string {
    var parts := Text.Split(v, '.');
    var major := NumberOf(parts[0]);
    var minor := if |parts| > 1 then NumberOf(parts[1]) else Undefined;
    var patch := if |parts| > 2 then NumberOf(parts[2]) else Undefined;
    Render(major) + "." + Render(minor) + "." + Render(Succ(patch))
  }

  /** A version written `x.y.z` in decimal. */
  function VersionString(x: nat, y: nat, z: nat): string {
    Text.NatToString(x) + "." + Text.NatToString(y) + "." + Text.NatToString(z)
  }

  /** Text that neither starts nor ends with a blank is its own trim. */
  lemma TrimUnchanged(t: string)
    requires |t| > 0 && !Text.IsSpace(t[0]) && !Text.IsSpace(t[|t| - 1])
    ensures Text.Trim(t) == t
  {
    assert Text.TrimStart(t) == t;
  }

  /** Decimal digits, with or without a minus sign in front, read as their signed value. */
  lemma NumberOfDigits(s: string)
    requires |s| > 0 && Text.AllDigits(s)
    ensures NumberOf(s) == Finite(Text.DigitsValue(s))
    ensures NumberOf("-" + s) == Finite(-(Text.DigitsValue(s) as int))
  {
    SignedDigits(s);
    NumberOfUnsigned(s);
    NumberOfMinus(s);
  }

  lemma NumberOfUnsigned(s: string)
    requires |s| > 0 && Text.AllDigits(s)
    ensures NumberOf(s) == SignedNumber(s)
  {
    assert Text.IsDigit(s[0]) && Text.IsDigit(s[|s| - 1]);
    TrimUnchanged(s);
    assert PrefixRadix(s) == 0 by {
      if |s| >= 2 {
        assert Text.IsDigit(s[1]);
      }
    }
  }

  lemma NumberOfMinus(s: string)
    requires |s| > 0 && Text.AllDigits(s)
    ensures NumberOf("-" + s) == SignedNumber("-" + s)
  {
    var t := "-" + s;
    assert t[0] == '-' && t[|t| - 1] == s[|s| - 1];
    assert Text.IsDigit(s[|s| - 1]);
    TrimUnchanged(t);
  }

  /** `0x` and hexadecimal digits read as their value. */
  lemma NumberOfHex(d: string)
    requires |d| > 0 && Text.AllRadixDigits(d, 16)
    ensures NumberOf("0x" + d) == Finite(Text.RadixValue(d, 16))
  {
    var t := "0x" + d;
    assert t[2..] == d;
    assert PrefixRadix(t) == 16;
    HexNotSpace(d[|d| - 1]);
    TrimUnchanged(t);
    NumberOfPrefixed(t);
  }

  lemma HexNotSpace(c: char)
    requires Text.IsRadixDigit(c, 16)
    ensures !Text.IsSpace(c)
  {
  }

  lemma NumberOfPrefixed(t: string)
    requires Text.Trim(t) == t && |t| > 2 && PrefixRadix(t) != 0
    requires Text.AllRadixDigits(t[2..], PrefixRadix(t))
    ensures NumberOf(t) == Finite(Text.RadixValue(t[2..], PrefixRadix(t)))
  {
  }

  /** A rendered number reads back as itself and holds no dot. */
  lemma NumberOfRendered(n: nat)
    ensures NumberOf(Text.NatToString(n)) == Finite(n)
    ensures NoDot(Text.NatToString(n))
  {
    Text.NatToStringRoundTrip(n);
    NumberOfDigits(Text.NatToString(n));
  }

  /** A minus sign before a rendered natural number reads as its negation. */
  lemma NumberOfNegated(n: nat)
    ensures NumberOf("-" + Text.NatToString(n)) == Finite(-(n as int))
    ensures NoDot("-" + Text.NatToString(n))
  {
    NumberOfRendered(n);
    Text.NatToStringRoundTrip(n);
    NegatedDigits(Text.NatToString(n), n);
  }

  lemma NegatedDigits(s: string, n: nat)
    requires |s| > 0 && Text.AllDigits(s) && NoDot(s) && Text.DigitsValue(s) == n
    ensures NumberOf("-" + s) == Finite(-(n as int))
    ensures NoDot("-" + s)
  {
    NumberOfDigits(s);
    NegatedNoDot(s);
  }

  lemma NegatedNoDot(s: string)
    requires NoDot(s)
    ensures NoDot("-" + s)
  {
    forall i | 0 <= i < |"-" + s|
      ensures ("-" + s)[i] != '.'
    {
      if i > 0 {
        assert ("-" + s)[i] == s[i - 1];
      }
    }
  }

  predicate NoDot(s: string) {
    forall i :: 0 <= i < |s| ==> s[i] != '.'
  }

  lemma SplitTwo(a: string, b: string)
    requires NoDot(a) && NoDot(b)
    ensures Text.Split(a + "." + b, '.') == [a, b]
  {
    Text.SplitWithoutSeparator(b, '.');
    Text.SplitAfterSegment(a, '.', b);
  }

  lemma SplitThree(a: string, b: string, c: string)
    requires NoDot(a) && NoDot(b) && NoDot(c)
    ensures Text.Split(a + "." + b + "." + c, '.') == [a, b, c]
  {
    SplitTwo(b, c);
    Text.SplitAfterSegment(a, '.', b + "." + c);
    DotsRegroup(a, b, c);
  }

  lemma DotsRegroup(a: string, b: string, c: string)
    ensures a + "." + b + "." + c == a + ['.'] + (b + "." + c)
  {
    assert "." == ['.'];
  }

  /** `incrementVersion` bumps only the patch part of an `x.y.z` version. */
  lemma IncrementVersionBumpsPatch(x: nat, y: nat, z: nat)
    ensures IncrementVersion(VersionString(x, y, z)) == VersionString(x, y, z + 1)
  {
    NumberOfRendered(x);
    NumberOfRendered(y);
    NumberOfRendered(z);
    SplitThree(Text.NatToString(x), Text.NatToString(y), Text.NatToString(z));
  }

  /**
   * A three-part version is rebuilt from its parts read as numbers, the last one plus one:
   * with `NumberOfNegated`, `1.0.-1` becomes `1.0.0`.
   */
  lemma IncrementVersionParts(a: string, b: string, c: string, major: JsNumber, minor: JsNumber, patch: JsNumber)
    requires NoDot(a) && NoDot(b) && NoDot(c)
    requires NumberOf(a) == major && NumberOf(b) == minor && NumberOf(c) == patch
    ensures IncrementVersion(a + "." + b + "." + c) == Render(major) + "." + Render(minor) + "." + Render(Succ(patch))
  {
    SplitThree(a, b, c);
  }

  /** A two-part version gets a `NaN` patch: `x.y` becomes `x.y.NaN`. */
  lemma IncrementVersionWithoutPatch(x: nat, y: nat)
    ensures IncrementVersion(Text.NatToString(x) + "." + Text.NatToString(y))
      == Text.NatToString(x) + "." + Text.NatToString(y) + "." + "NaN"
  {
    NumberOfRendered(x);
    NumberOfRendered(y);
    SplitTwo(Text.NatToString(x), Text.NatToString(y));
  }

  // ---------- Manifest building ----------

  /** `buildManifestFromFiles`' entries: each uploaded file's app-relative path with `{ id: txId }`. */
  function PathEntries(appPath: string, fileIds: seq<(string, string)>): (r: seq<(string, Json)>)
    ensures |r| == |fileIds|
  {
    seq(|fileIds|, i requires 0 <= i < |fileIds| => (AppRelative(appPath, fileIds[i].0), IdEntry(JStr(fileIds[i].1))))
  }

  lemma PathEntriesSnoc(appPath: string, fileIds: seq<(string, string)>, i: nat)
    requires i < |fileIds|
    ensures PathEntries(appPath, fileIds[..i + 1])
      == PathEntries(appPath, fileIds[..i]) + [(AppRelative(appPath, fileIds[i].0), IdEntry(JStr(fileIds[i].1)))]
  {
  }

  /** The built manifest has one path per distinct app-relative path of the input, holding the last id given for it. */
  lemma BuiltPaths(appPath: string, fileIds: seq<(string, string)>, p: string)
    ensures p in Keys(Assign([], PathEntries(appPath, fileIds))) <==>
      exists i :: 0 <= i < |fileIds| && AppRelative(appPath, fileIds[i].0) == p
    ensures p in Keys(PathEntries(appPath, fileIds)) ==>
      Lookup(Assign([], PathEntries(appPath, fileIds)), p) == Some(LastValue(PathEntries(appPath, fileIds), p))
  {
    var entries := PathEntries(appPath, fileIds);
    LookupAssign([], entries, p);
    KeysIndex(entries, p);
    assert Keys<string, Json>([]) == {};
    assert forall i :: 0 <= i < |fileIds| ==> entries[i].0 == AppRelative(appPath, fileIds[i].0);
  }

  // ---------- The manager ----------

  const ManifestLoadError := "Failed to load manifest for "
  const TrackerLoadError := "Failed to load deployment tracker for "

  class ManifestManager {
    const appId: string
    /** The app directory, relative to the repository root. */
    const appPath: string
    /** Whether `appPath` is a directory. */
    var isAppDirectory: bool
    /** The files of the recursive directory walk, in walk order. */
    var listing: seq<ListedFile>
    /** The paths `fileExists` reports. */
    var present: set<string>
    /** `manifest.json`, `deployment-tracker.json` and `manifest-overrides.json` of the app. */
    var manifestFile: Stored<Manifest>
    var trackerFile: Stored<Tracker>
    var overridesFile: Stored<Json>
    /** Whether writes into the app directory succeed. */
    var writable: bool

    constructor(appId: string, appPath: string, isAppDirectory: bool, listing: seq<ListedFile>, present: set<string>,
                manifestFile: Stored<Manifest>, trackerFile: Stored<Tracker>, overridesFile: Stored<Json>, writable: bool)
      ensures this.appId == appId && this.appPath == appPath && this.isAppDirectory == isAppDirectory
      ensures this.listing == listing && this.present == present && this.manifestFile == manifestFile
      ensures this.trackerFile == trackerFile && this.overridesFile == overridesFile && this.writable == writable
    {
      this.appId := appId;
      this.appPath := appPath;
      this.isAppDirectory := isAppDirectory;
      this.listing := listing;
      this.present := present;
      this.manifestFile := manifestFile;
      this.trackerFile := trackerFile;
      this.overridesFile := overridesFile;
      this.writable := writable;
    }

    /** What `discoverAppFiles` returns in the current state. */
    function Discovery(): Result<seq<string>>
      reads this`isAppDirectory, this`listing
    {
      if isAppDirectory then Ok(Discovered(listing)) else Err("App path does not exist: " + appPath)
    }

    /** What `getEntryPoint` returns in the current state. */
    function EntryPoint(): Result<string>
      reads this`isAppDirectory, this`listing, this`present
    {
      EntryPointOf(appId, appPath, present, Discovery())
    }

    /** `discoverAppFiles`: the walk's files, minus the three bookkeeping names and non-deployable entries. */
    method DiscoverAppFiles() returns (r: Result<seq<string>>)
      ensures r == Discovery()
    {
      if !isAppDirectory {
        return Err("App path does not exist: " + appPath);
      }
      var files: seq<string> := [];
      var i := 0;
      while i < |listing|
        invariant 0 <= i <= |listing|
        invariant files == Discovered(listing[..i])
      {
        assert listing[..i + 1][..i] == listing[..i];
        if !IsSkippedName(listing[i].name) && listing[i].deployable {
          files := files + [listing[i].path];
        }
        i := i + 1;
      }
      assert listing[..i] == listing;
      return Ok(files);
    }

    /** `getEntryPoint`: the first candidate name that exists, else the first discovered file. */
    method GetEntryPoint() returns (r: Result<string>)
      ensures r == EntryPoint()
    {
      var candidates := EntryCandidates;
      var i := 0;
      while i < |candidates|
        invariant 0 <= i <= |candidates|
        invariant FirstPresent(appPath, present, candidates) == FirstPresent(appPath, present, candidates[i..])
      {
        if JoinPath(appPath, candidates[i]) in present {
          return Ok(candidates[i]);
        }
        assert candidates[i..][1..] == candidates[i + 1..];
        i := i + 1;
      }
      var files := DiscoverAppFiles();
      if files.Err? {
        return Err(files.error);
      }
      if |files.value| > 0 {
        return Ok(AppRelative(appPath, files.value[0]));
      }
      return Err("No entry point found for app " + appId);
    }

    /** `saveManifest` */
    method SaveManifest(m: Manifest) returns (r: Result<()>)
      modifies this`manifestFile
      ensures writable ==> r.Ok? && manifestFile == Parsed(m)
      ensures !writable ==> (r == Err("Failed to save manifest for " + appId + ": " + WriteError)
        && manifestFile == old(manifestFile))
    {
      if !writable {
        return Err("Failed to save manifest for " + appId + ": " + WriteError);
      }
      manifestFile := Parsed(m);
      return Ok(());
    }

    /** `saveDeploymentTracker` */
    method SaveDeploymentTracker(t: Tracker) returns (r: Result<()>)
      modifies this`trackerFile
      ensures writable ==> r.Ok? && trackerFile == Parsed(t)
      ensures !writable ==> (r == Err("Failed to save deployment tracker for " + appId + ": " + WriteError)
        && trackerFile == old(trackerFile))
    {
      if !writable {
        return Err("Failed to save deployment tracker for " + appId + ": " + WriteError);
      }
      trackerFile := Parsed(t);
      return Ok(());
    }

    /** `loadManifest`: the parsed manifest, or a new empty one that is saved first. */
    method LoadManifest() returns (r: Result<Manifest>)
      modifies this`manifestFile
      ensures old(manifestFile).Parsed? ==> r == Ok(old(manifestFile).value)
      ensures old(manifestFile).Unparsable? ==> r == Err(ManifestLoadError + appId + ": " + ParseError)
      ensures old(manifestFile).Absent? && EntryPoint().Err? ==> r == Err(ManifestLoadError + appId + ": " + EntryPoint().error)
      ensures old(manifestFile).Absent? && EntryPoint().Ok? && !writable ==>
        r == Err(ManifestLoadError + appId + ": " + ("Failed to save manifest for " + appId + ": " + WriteError))
      ensures old(manifestFile).Absent? && EntryPoint().Ok? && writable ==> r == Ok(EmptyManifest(EntryPoint().value))
      ensures manifestFile == if r.Ok? then Parsed(r.value) else old(manifestFile)
    {
      if manifestFile.Parsed? {
        return Ok(manifestFile.value);
      }
      if manifestFile.Unparsable? {
        return Err(ManifestLoadError + appId + ": " + ParseError);
      }
      var entry := GetEntryPoint();
      if entry.Err? {
        return Err(ManifestLoadError + appId + ": " + entry.error);
      }
      var empty := EmptyManifest(entry.value);
      var saved := SaveManifest(empty);
      if saved.Err? {
        return Err(ManifestLoadError + appId + ": " + saved.error);
      }
      return Ok(empty);
    }

    /** What `loadDeploymentTracker` returns in the current state. */
    function TrackerLoad(): Result<Tracker>
      reads this`trackerFile, this`writable
    {
      match trackerFile
      case Parsed(t) => Ok(t)
      case Unparsable => Err(TrackerLoadError + appId + ": " + ParseError)
      case Absent =>
        if writable then Ok(EmptyTracker)
        else Err(TrackerLoadError + appId + ": " + ("Failed to save deployment tracker for " + appId + ": " + WriteError))
    }

    /** `loadDeploymentTracker`: the parsed tracker, or a new empty one that is saved first. */
    method LoadDeploymentTracker() returns (r: Result<Tracker>)
      modifies this`trackerFile
      ensures r == old(TrackerLoad())
      ensures r.Ok? <==> old(trackerFile).Parsed? || (old(trackerFile).Absent? && writable)
      ensures r.Ok? ==> r.value == TrackerOnLoad(old(trackerFile)) && trackerFile == Parsed(r.value)
      ensures old(trackerFile).Unparsable? ==> r == Err(TrackerLoadError + appId + ": " + ParseError)
      ensures old(trackerFile).Absent? && !writable ==>
        r == Err(TrackerLoadError + appId + ": " + ("Failed to save deployment tracker for " + appId + ": " + WriteError))
      ensures r.Err? ==> trackerFile == old(trackerFile)
    {
      if trackerFile.Parsed? {
        return Ok(trackerFile.value);
      }
      if trackerFile.Unparsable? {
        return Err(TrackerLoadError + appId + ": " + ParseError);
      }
      var saved := SaveDeploymentTracker(EmptyTracker);
      if saved.Err? {
        return Err(TrackerLoadError + appId + ": " + saved.error);
      }
      return Ok(EmptyTracker);
    }

    /** `loadManualOverrides`: the parsed overrides value; `{}` when missing, unparsable or `null`. */
    function LoadManualOverrides(): (r: Json)
      reads this`overridesFile
      ensures overridesFile.Parsed? && overridesFile.value != JNull ==> r == overridesFile.value
      ensures !(overridesFile.Parsed? && overridesFile.value != JNull) ==> OverrideEntries(r) == []
    {
      if overridesFile.Parsed? && overridesFile.value != JNull then overridesFile.value else JObj([])
    }

    /** `buildManifestFromFiles`: entries for the given files, with the given entry point or the detected one. */
    method BuildManifestFromFiles(fileIds: seq<(string, string)>, entryPoint: string) returns (r: Result<Manifest>)
      ensures var ep := if entryPoint != "" then Ok(entryPoint) else EntryPoint();
        r == if ep.Err? then Err(ep.error)
             else Ok(Manifest(ManifestKind, ManifestVersion, Some(ep.value), Assign([], PathEntries(appPath, fileIds))))
    {
      var actual := entryPoint;
      if actual == "" {
        var detected := GetEntryPoint();
        if detected.Err? {
          return Err(detected.error);
        }
        actual := detected.value;
      }
      var paths: seq<(string, Json)> := [];
      var i := 0;
      while i < |fileIds|
        invariant 0 <= i <= |fileIds|
        invariant paths == Assign([], PathEntries(appPath, fileIds[..i]))
      {
        PathEntriesSnoc(appPath, fileIds, i);
        paths := SetKey(paths, AppRelative(appPath, fileIds[i].0), IdEntry(JStr(fileIds[i].1)));
        i := i + 1;
      }
      assert fileIds[..i] == fileIds;
      return Ok(Manifest(ManifestKind, ManifestVersion, Some(actual), paths));
    }

    /**
     * `getChangedFilesByHash`: discovers the app's files, keeps those git tracks, loads the
     * tracker (creating it when missing) and compares each tracked file's blob hash with the
     * stored one.
     */
    method GetChangedFilesByHash(git: GitTracker.GitTracker) returns (r: Result<ChangeSet>)
      modifies this`trackerFile
      ensures !isAppDirectory ==> r == Err("App path does not exist: " + appPath)
      ensures isAppDirectory && old(trackerFile).Unparsable? ==> r == Err(TrackerLoadError + appId + ": " + ParseError)
      ensures isAppDirectory && old(trackerFile).Absent? && !writable ==> r.Err?
      ensures isAppDirectory && old(TrackerLoad()).Err? ==> r == Err(old(TrackerLoad()).error)
      ensures r.Ok? ==> r.value.currentFiles == TrackedFiles(Discovered(listing), git.isRepo, git.index)
      ensures isAppDirectory && (old(trackerFile).Parsed? || (old(trackerFile).Absent? && writable)) ==>
        var tracked := TrackedFiles(Discovered(listing), git.isRepo, git.index);
        var scan := DetectChanges(appPath, tracked, TrackerOnLoad(old(trackerFile)).fileHashes.GetOr(map[]), git.blobHashes);
        r == if scan.Err? then Err(scan.error) else Ok(ChangeSet(scan.value, tracked))
      ensures trackerFile == if isAppDirectory && old(trackerFile).Absent? && writable then Parsed(EmptyTracker) else old(trackerFile)
    {
      var discovered := DiscoverAppFiles();
      if discovered.Err? {
        return Err(discovered.error);
      }
      var tracked := TrackedByGit(git, discovered.value);
      var tracker := LoadDeploymentTracker();
      if tracker.Err? {
        return Err(tracker.error);
      }
      var changed := ScanChanges(git, appPath, tracked, tracker.value.fileHashes.GetOr(map[]));
      if changed.Err? {
        return Err(changed.error);
      }
      return Ok(ChangeSet(changed.value, tracked));
    }

    /**
     * `updateDeploymentTracker`: loads the tracker, records the deployment (count, commit, time,
     * a three-entry history), merges and migrates the hashes, prunes them to the current files
     * when there are any, and saves it.
     */
    method UpdateDeploymentTracker(commitHash: string, manifestTxId: string, changedFiles: seq<string>,
                                   fileHashes: map<string, string>, currentFiles: seq<string>, now: string)
      returns (r: Result<Tracker>)
      modifies this`trackerFile
      ensures r.Ok? <==> writable && !old(trackerFile).Unparsable?
      ensures r.Ok? ==> r.value == UpdatedTracker(TrackerOnLoad(old(trackerFile)),
        DeploymentEntry(commitHash, manifestTxId, RelativeAll(appPath, changedFiles), now),
        fileHashes, RelativeAll(appPath, currentFiles))
      ensures r.Ok? ==> trackerFile == Parsed(r.value)
      ensures r.Err? ==> trackerFile == old(trackerFile)
    {
      var loaded := LoadDeploymentTracker();
      if loaded.Err? {
        return Err(loaded.error);
      }
      var entry := DeploymentEntry(commitHash, manifestTxId, RelativeAll(appPath, changedFiles), now);
      var updated := RecordDeployment(loaded.value, entry, fileHashes, RelativeAll(appPath, currentFiles));
      var saved := SaveDeploymentTracker(updated);
      if saved.Err? {
        return Err(saved.error);
      }
      return Ok(updated);
    }
  }

  /** The body of `updateDeploymentTracker` between loading and saving. */
  method RecordDeployment(t: Tracker, entry: DeploymentEntry, uploaded: map<string, string>, current: seq<string>)
    returns (updated: Tracker)
    ensures updated == UpdatedTracker(t, entry, uploaded, current)
  {
    var version := if t.trackerVersion == "" then "1.0.0" else t.trackerVersion;
    var recent := [entry] + t.recentDeployments.GetOr([]);
    if |recent| > 3 {
      recent := recent[..3];
    }
    var hashes := MergeAndMigrate(t.fileHashes.GetOr(map[]), uploaded);
    if |current| > 0 {
      hashes := Prune(hashes, set f | f in current);
    }
    updated := Tracker(version, Some(entry.commit), Some(entry.deployed), Some(CountOf(t.deploymentCount) + 1),
                       Some(hashes), Some(recent));
  }

  /** `{ ...stored, ...uploaded }` and then the loop that rewrites legacy values with an oid to that oid. */
  method MergeAndMigrate(stored: map<string, StoredHash>, uploaded: map<string, string>) returns (hashes: map<string, StoredHash>)
    ensures hashes == MergedHashes(stored, uploaded)
  {
    var spread := stored + Spread(uploaded);
    hashes := MigrateAll(spread);
    MigratedSpread(stored, uploaded);
  }

  /** The uploaded hashes as stored values. */
  function Spread(uploaded: map<string, string>): map<string, StoredHash> {
    map k | k in uploaded :: Plain(uploaded[k])
  }

  /** Every value of `hashes` migrated. */
  function MigratedAll(hashes: map<string, StoredHash>): map<string, StoredHash> {
    map k | k in hashes :: Migrated(hashes[k])
  }

  /** Migrating after the spread is the merge: uploaded values are already plain. */
  lemma MigratedSpread(stored: map<string, StoredHash>, uploaded: map<string, string>)
    ensures MigratedAll(stored + Spread(uploaded)) == MergedHashes(stored, uploaded)
  {
    var spread := stored + Spread(uploaded);
    assert spread.Keys == stored.Keys + uploaded.Keys;
    forall k | k in spread
      ensures MigratedAll(spread)[k] == MergedHashes(stored, uploaded)[k]
    {
      if k in uploaded {
        assert spread[k] == Plain(uploaded[k]);
      }
    }
  }

  /** The migration loop: rewrites each legacy value with an oid to that oid. */
  method MigrateAll(spread: map<string, StoredHash>) returns (hashes: map<string, StoredHash>)
    ensures hashes == MigratedAll(spread)
  {
    hashes := spread;
    var pending := hashes.Keys;
    while pending != {}
      invariant pending <= spread.Keys && hashes.Keys == spread.Keys
      invariant forall k :: k in hashes ==> hashes[k] == if k in pending then spread[k] else Migrated(spread[k])
      decreases pending
    {
      var k :| k in pending;
      var h := hashes[k];
      if h.Legacy? && h.oid != "" {
        hashes := hashes[k := Plain(h.oid)];
      }
      pending := pending - {k};
    }
  }

  /** The clean-up loop: copies the entries whose path is in `keep` into a new table. */
  method Prune(hashes: map<string, StoredHash>, keep: set<string>) returns (cleaned: map<string, StoredHash>)
    ensures cleaned == Pruned(hashes, keep)
  {
    cleaned := map[];
    var pending := hashes.Keys;
    while pending != {}
      invariant pending <= hashes.Keys
      invariant forall k :: k in cleaned <==> k in hashes && k !in pending && k in keep
      invariant forall k :: k in cleaned ==> cleaned[k] == hashes[k]
      decreases pending
    {
      var k :| k in pending;
      if k in keep {
        cleaned := cleaned[k := hashes[k]];
      }
      pending := pending - {k};
    }
  }

  /** The first loop of `getChangedFilesByHash`: the files `isFileTracked` accepts, in order. */
  method TrackedByGit(git: GitTracker.GitTracker, files: seq<string>) returns (tracked: seq<string>)
    ensures tracked == TrackedFiles(files, git.isRepo, git.index)
  {
    var isRepo, index := git.isRepo, git.index;
    tracked := [];
    var i := 0;
    while i < |files|
      invariant 0 <= i <= |files|
      invariant tracked == Filter(files[..i], f => isRepo && GitTracker.InIndex(index, f))
    {
      assert files[..i + 1][..i] == files[..i];
      if git.IsFileTracked(files[i]) {
        tracked := tracked + [files[i]];
      }
      i := i + 1;
    }
    assert files[..i] == files;
  }

  /** One more hashed file extends the scan of the files before it. */
  lemma DetectChangesStep(appPath: string, tracked: seq<string>, j: int, stored: map<string, StoredHash>,
                          blobs: map<string, string>, changed: seq<string>)
    requires 0 <= j < |tracked| && tracked[j] in blobs
    requires DetectChanges(appPath, tracked[..j], stored, blobs) == Ok(changed)
    ensures DetectChanges(appPath, tracked[..j + 1], stored, blobs)
      == Ok(changed + if FileChanged(appPath, stored, blobs, tracked[j]) then [tracked[j]] else [])
  {
    assert tracked[..j + 1][..j] == tracked[..j];
  }

  /** The hashing loop of `getChangedFilesByHash`: compares each file's blob hash with the stored one. */
  method ScanChanges(git: GitTracker.GitTracker, appPath: string, tracked: seq<string>, stored: map<string, StoredHash>)
    returns (r: Result<seq<string>>)
    ensures r == DetectChanges(appPath, tracked, stored, git.blobHashes)
  {
    var blobs := git.blobHashes;
    var changed: seq<string> := [];
    var j := 0;
    while j < |tracked|
      invariant 0 <= j <= |tracked|
      invariant DetectChanges(appPath, tracked[..j], stored, blobs) == Ok(changed)
    {
      var f := tracked[j];
      var current := git.GetFileHash(f);
      if current.Err? {
        assert tracked[..j + 1][..j] == tracked[..j];
        DetectChangesKeepsError(appPath, tracked[..j + 1], tracked[j + 1..], stored, blobs);
        assert tracked[..j + 1] + tracked[j + 1..] == tracked;
        return Err(current.error);
      }
      assert f in blobs && current.value == blobs[f];
      DetectChangesStep(appPath, tracked, j, stored, blobs, changed);
      if HashChanged(current.value, Get(stored, AppRelative(appPath, f))) {
        changed := changed + [f];
      } else {
        assert changed + [] == changed;
      }
      j := j + 1;
    }
    assert tracked[..j] == tracked;
    return Ok(changed);
  }
}
