# playdead: a Dafny model of the deployment engine and the album tools

playdead publishes small web apps and music albums on Arweave. Its core is an **incremental
directory deployer**. For one app directory it:

1. finds the git-tracked files whose content hash differs from the hash stored in the app's
   `deployment-tracker.json`;
2. uploads only those files, in order, and stops at the first failure;
3. rebuilds the app's Arweave path manifest (`arweave/paths`, version `0.2.0`). It keeps the ids
   of surviving files, drops deleted ones, lays the new ids over them and applies the manual
   overrides last;
4. uploads the manifest and points an ArNS undername at it;
5. writes the tracker back, with a three-entry history and pruned hashes, saves the manifest and
   commits both.

This model covers that engine (`lib/`) and the command line around it (`deploy.js`). It also
covers the album player's track list and navigation (`scripts/player.js`), the gateway and device
helpers of the player page (`scripts/utils.js`), and the two Python album tools.

The model has one Dafny module per source file.

| module | source |
|---|---|
| `Utils` | `lib/utils.js` |
| `ManifestManager` | `lib/manifest-manager.js` |
| `GitTracker` | `lib/git-tracker.js` |
| `Arns` | `lib/arns.js` |
| `Arweave` | `lib/arweave.js` |
| `DynamicDeploy` | `lib/dynamic-deploy.js` |
| `Logging` | `lib/logging.js` |
| `TagManager` | `lib/tag-manager.js` |
| `Templates` | `lib/templates.js` |
| `DeployCli` | `deploy.js` |
| `Player` | `scripts/player.js` |
| `Gateway` | `scripts/utils.js` |
| `RenameTracks` | `tools/file-renaming-tool/rename_tracks.py` |
| `SetupAlbum` | `tools/album-setup-tool/setup_album.py` |

Five shared modules model the language built-ins the code relies on:

- `Wrappers`: `Option` and `Result`.
- `Json`: parsed JSON values with JavaScript truthiness.
- `Text`: string built-ins such as `split`, `join`, `trim`, `toLowerCase`, `lastIndexOf` and
  numerals.
- `Assoc`: a JavaScript object as an insertion-ordered key/value list, with `obj[k] = v` and
  `Object.assign`.
- `Sorting` and `Seqs`: stable sort by a comparator, `filter` and `slice`.

The code's shape is kept. Objects that the source updates in place are classes, with `modifies`
clauses on their methods:

- the deployer;
- the manifest manager's view of an app directory;
- the git tracker, with its deploy lock;
- the tag manager's map of configurations;
- the deployment log;
- the Turbo module's cached client;
- the player's current index;
- the renaming tool's folder.

Loops stay loops with invariants: the upload loop, the manifest rebuild, the change scan, the
retry loop and the argument loops. Pure branch trees stay functions: the ArNS result
classification, the validators, the templates, the gateway and the track derivation.

Things outside the program are inputs. These are the file system (listings and file contents),
git (the index, the log and blob hashes), the Turbo uploader, the ANT process, the clock and the
environment. A service call is an oracle outcome: an answer, an error text or the race timer's
timeout. The deployer keeps an effect trace of its steps: the file uploads (one step, once
all of them have succeeded), the manifest upload, the naming, the tracker write, the manifest save
and the commit. The trace states the step order the source promises: nothing is uploaded when
nothing changed, and the tracker is written only after the manifest upload and the ArNS step.

Some behaviours of the code are easy to miss; the model keeps them as written.

- Manual overrides are applied from the **top-level** keys of `manifest-overrides.json`
  (`lib/dynamic-deploy.js:238-241`), not from a `paths` object.
- A commit that fails after the tracker was written makes the whole deployment report
  `success: false`, with the tracker already written (`lib/dynamic-deploy.js:80-127`).
- `deployDirectoryFull` restores its backups in `finally`, after a successful deployment too. The
  restored old tracker therefore replaces the one the full deployment wrote
  (`deploy.js:139-191`).
- Three different lists of tracking files are kept as written: the manifest manager's, the
  dynamic deployer's and the git tracker's, which names `upload-tags.json`.

## Model

| member | source | states |
|---|---|---|
| Arns.VerifyAfterTimeout | lib/arns.js:40-50 | after a timeout the re-read records decide: success with the re-read record's id exactly when the undername is present, otherwise (or when the re-read fails) the `timeout` failure |
| Arns.CreateUndernameRecord | lib/arns.js:19-54 | an answered write gives `{success, recordId: result.id}`; a rejection mentioning "already exists" or "taken" gives `undername_taken`; otherwise a rejection mentioning "timeout" is verified by re-reading, giving the re-read record's id when the undername is present and otherwise the `timeout` failure "Assignment failed after timeout"; any other rejection gives `creation_failed`; no other error code is possible |
| Arns.UpdateUndernameRecord | lib/arns.js:56-86 | the same timeout-then-verify rule without a "taken" branch (the re-read record's id, or the `timeout` failure "Assignment failed after timeout"); other rejections give `update_failed` |
| Arns.SetRootRecord | lib/arns.js:99-127 | writes and, after a timeout, verifies the root key `@`: its re-read id, or the `timeout` failure "Root record assignment failed after timeout"; other rejections give `root_record_failed` |
| Arns.GetUndernameRecord | lib/arns.js:88-97 | the record exactly when a read succeeds and holds the undername, `null` on absence or any read error |
| Arns.CheckUndernameAvailability | lib/arns.js:6-17 | unavailable exactly when a successful read shows the name (and then `existing` is that record); a failed read fails open as available and carries the error |
| Arns.TakenWinsOverTimeout | lib/arns.js:35-40 | the "taken" test runs before the timeout test: a taken-name message that also mentions a timeout is reported as `undername_taken` without verification |
| Arns.TimeoutTextIsVerified | lib/arns.js:72-82 | any message containing "timeout" (the race timers' messages included) sends updates and root writes down the verification path |
| Templates.ReplaceAllAbsent | lib/templates.js:52 | a global replace leaves a text without the pattern unchanged |
| Templates.ReplaceAllPlainPrefix | lib/templates.js:52 | text before the first `{` is copied unchanged by the replace |
| Templates.ReplaceAllEveryOccurrence | lib/templates.js:52 | the `g` flag replaces every occurrence: brace-free segments joined by the placeholder come back joined by the replacement |
| Templates.Replacement | lib/templates.js:52 | `value \|\| ''`: a falsy value is replaced by the empty text, a string by itself, any other value by `String(value)` |
| Templates.ArrayReplacement | lib/templates.js:52 | an array value is replaced by its elements joined by commas: `[1, 2]` gives `1,2` |
| Templates.Placeholder | lib/templates.js:51 | the placeholder `{key}` is non-empty and starts with `{` |
| Templates.RenderTemplate | lib/templates.js:46-56 | the loop over the variables computes `Rendered(text, variables)`, each variable's placeholders replaced in entry order |
| Templates.RenderedWithoutPlaceholders | lib/templates.js:47-55 | a template text holding no placeholder of any given variable is returned unchanged |
| Templates.RenderOneVariable | lib/templates.js:50-53 | every placeholder of a variable is replaced by its value, and by nothing when the value is falsy |
| Templates.LoadTemplate | lib/templates.js:10-18 | the parsed template file, or the error "Template '<name>' not found: <cause>" for a missing or unparsable file |
| Templates.TemplateName | lib/templates.js:60-68 | `no-changes` when `isNoChanges` is truthy, else `success` when `success` is truthy, else no template |
| Templates.GetTemplateForDeployment | lib/templates.js:59-69 | loads the template `TemplateName` picks and fails with "No template available for failed deployments" otherwise |
| Templates.NoChangesWinsOverSuccess | lib/templates.js:60-63 | a no-changes deployment that also reports success is announced with `no-changes` |
| Templates.FirstMissing | lib/templates.js:75-79 | the first required field that is missing or falsy: every field before it is set; none exactly when all are set |
| Templates.ValidateTemplate | lib/templates.js:72-82 | `true` exactly when name, description and template are all truthy; otherwise the error names the first one missing, in the order name, description, template; a `null` template fails on reading `name` |
| Templates.RequiredInOrder | lib/templates.js:73-79 | the fields are checked in the order name, description, template: the first one not set is reported, and none when all three are set |
| Logging.ReadLogs | lib/logging.js:28-35 | the log as read: a missing or unparsable file reads as the empty list, a parsed file as its value |
| Logging.LogEntryFields | lib/logging.js:38-41 | the new entry holds `timestamp` and every field of the deployment data, a data field winning over the timestamp |
| Logging.Newest | lib/logging.js:47 | `slice(-n)`: the newest `n` entries, or all of them when there are fewer |
| Logging.Rolled | lib/logging.js:43-48 | after the push and the slice at most ten entries remain, and the new entry is the last one |
| Logging.NewestSnoc | lib/logging.js:43-48 | rolling after every push equals pushing and then keeping the newest `n` |
| Logging.LoggedAllKeepsNewest | lib/logging.js:10-48 | after any number of entries are logged the log is the newest ten of everything, oldest dropped first, order kept |
| Logging.Appended | lib/logging.js:28-51 | the file after logging holds the rolled list; a file that parses to something other than a list is not rewritten |
| Logging.DeploymentLog.constructor | lib/logging.js:9 | the log starts from the given `deployments.json` contents |
| Logging.DeploymentLog.LogToJSON | lib/logging.js:23-59 | writes back the rolled list and returns the new entry; when the parsed file is not a list the push throws, with the null-property error for `null`, and the file is left as it was |
| Logging.DeploymentLog.LogDeployment | lib/logging.js:62-75 | logs the entry; a logging failure is swallowed and the file is left as `LogToJSON` leaves it |
| Logging.CountSet | lib/logging.js:95-98 | `filter(log => log[key]).length` is at most the number of entries |
| Logging.CountUnset | lib/logging.js:96 | `filter(log => !log[key]).length` is at most the number of entries |
| Logging.SetPlusUnset | lib/logging.js:94-96 | successful plus failed deployments equals the total |
| Logging.CountSetPositive | lib/logging.js:95-98 | a flag count is positive exactly when some entry has the flag truthy |
| Logging.NumericFileSizes | lib/logging.js:99 | when every `fileSize` is a number or absent, the total is their sum with absent sizes as 0 |
| Logging.GetLogStats | lib/logging.js:89-111 | statistics over the log as read: total, successful, failed, dry runs, already deployed, total size and the last entry's timestamp (`null` for an empty log); `null` when reading a field throws |
| Logging.StatsPartition | lib/logging.js:94-96 | whenever statistics are produced, successful + failed = total |
| Logging.EmptyStats | lib/logging.js:28-35 | a missing or unparsable log gives all-zero counts and no last deployment (also lines 78-86, 93-104) |
| Logging.LastDeploymentAfterLogging | lib/logging.js:38-43 | right after an entry is logged, the last deployment is that entry's timestamp (also line 103) |
| TagManager.CustomTagEntries | lib/tag-manager.js:54-56 | a configuration without truthy `customTags` contributes no entries |
| TagManager.Values | lib/tag-manager.js:53 | the loaded configurations, one value per entry, in load order |
| TagManager.LastSetter | lib/tag-manager.js:53-57 | the last configuration whose `customTags` sets a key, or none |
| TagManager.LastSetterIsLast | lib/tag-manager.js:53-57 | no configuration after the last setter sets the key |
| TagManager.MergedTagsLookup | lib/tag-manager.js:49-60 | a merged tag has the value of the last (most specific) configuration setting it; a tag nobody sets is absent |
| TagManager.WithoutCustomTagsNoEffect | lib/tag-manager.js:54-56 | loading a configuration without `customTags` does not change the merge |
| TagManager.MergedTagsDistinct | lib/tag-manager.js:55 | the merged tags have distinct names |
| TagManager.TagsOfMembership | lib/tag-manager.js:67-73 | a tag is emitted exactly for each merged entry whose value is not `null` |
| TagManager.TagManager.constructor | lib/tag-manager.js:7-10 | the manager keeps the app path and starts with no configurations |
| TagManager.TagManager.GetConfigPaths | lib/tag-manager.js:31-47 | `./upload-tags.json`, `./apps/upload-tags.json`, then `upload-tags.json` joined onto the app path only when an app path is set; an app path of `.` gives `upload-tags.json` |
| TagManager.TagManager.GetMergedConfig | lib/tag-manager.js:49-60 | the merged `customTags` of the loaded configurations; fails exactly when one of them is `null` (reading its field throws) |
| TagManager.TagManager.Load | lib/tag-manager.js:12-29 | the configurations become the old ones overlaid with the parsed files in priority order, missing and unparsable files skipped; returns the merge |
| TagManager.TagManager.ReadConfigs | lib/tag-manager.js:16-26 | the loading loop overlays the old configurations, path by path in priority order, with every file that exists and parses |
| TagManager.TagManager.GetAllTags | lib/tag-manager.js:62-76 | one `{name, value}` per merged tag with a non-null value, in merge order |
| TagManager.LoadedSnoc | lib/tag-manager.js:16-26 | one more path adds its configuration exactly when the file parses |
| TagManager.LoadedKeys | lib/tag-manager.js:17-24 | the loaded paths are exactly the listed paths whose files parse |
| Utils.GenerateShortHash | lib/utils.js:15-17 | `substring(0, 16)`: a prefix of the full hash, 16 characters long unless the hash is shorter |
| Utils.ReplaceBackslashes | lib/utils.js:23 | the first replace keeps the length (each backslash becomes one slash) |
| Utils.CollapseSlashes | lib/utils.js:23 | the second replace keeps the first character of a non-empty path |
| Utils.CollapseLeavesNoDoubleSlash | lib/utils.js:23 | after `replace(/\/+/g, '/')` no two slashes are adjacent |
| Utils.CollapseAddsNoChar | lib/utils.js:23 | collapsing slashes introduces no character that was not there |
| Utils.NormalizedPath | lib/utils.js:20-24 | a normalised path has no backslash and no double slash |
| Utils.CollapseNoDoubleSlash | lib/utils.js:23 | collapsing a path without a double slash changes nothing |
| Utils.NormalizeFixpoint | lib/utils.js:20-24 | `normalizePath` leaves a path unchanged exactly when it has no backslash and no double slash |
| Utils.NormalizeIdempotent | lib/utils.js:20-24 | normalising twice is normalising once |
| Utils.CollapseKeepsText | lib/utils.js:23 | collapsing keeps every non-slash character, in order |
| Utils.NormalizeKeepsText | lib/utils.js:20-24 | normalising keeps every character other than the two separators, in order |
| Utils.ReplaceKeepsText | lib/utils.js:23 | replacing backslashes keeps every character other than the two separators, in order |
| Utils.RelativePath | lib/utils.js:124 | `path.relative(dir, file)` for a file under `dir`: joining it back onto `dir` gives the file |
| Utils.RelativeOfJoin | lib/utils.js:116-124 | the path relative to `dir` of `name` joined onto `dir` is `name`, with or without a trailing slash on `dir` |
| Utils.JoinPath | lib/utils.js:116 | a directory of two or more characters without a trailing slash is followed by one slash, one with a trailing slash by none, and an empty or `.` directory leaves the name alone |
| Utils.JoinTrailingSlash | lib/utils.js:116 | joining onto a directory written with a trailing slash gives one slash between directory and name: `apps/` and `blog` give `apps/blog` |
| Utils.BaseName | lib/utils.js:128 | `path.basename`: a suffix of the path |
| Utils.BaseNameHasNoSlash | lib/utils.js:128 | a base name holds no slash |
| Utils.BaseNameOfJoin | lib/utils.js:116-128 | the base name of a slash-free `name` joined onto `dir` is `name` |
| Utils.ExtName | lib/utils.js:48 | `path.extname`: empty, or a dot-led suffix of the base name (also line 142) |
| Utils.GuessContentType | lib/utils.js:141-208 | the table's type for the lower-cased extension, `application/octet-stream` for any other |
| Utils.LastIndexOfToLower | lib/utils.js:48 | lower-casing does not move the last dot or slash (also line 142) |
| Utils.BaseNameToLower | lib/utils.js:48 | the base name of the lower-cased path is the lower-cased base name (also line 142) |
| Utils.ToLowerSuffix | lib/utils.js:48 | lower-casing commutes with taking a suffix (also line 142) |
| Utils.ExtNameToLower | lib/utils.js:48 | the extension of the lower-cased path is the lower-cased extension (also line 142) |
| Utils.ClassificationIgnoresCase | lib/utils.js:47-66 | content type and binary classification depend only on the lower-cased extension: a path and its lower-cased form classify alike (also lines 141-208) |
| Utils.ValidateFileContent | lib/utils.js:329-340 | accepts exactly the content of length 1 to 10·1024·1024; empty content and larger content get their own error |
| Utils.ValidateFilePath | lib/utils.js:342-350 | accepts exactly the paths that neither contain `..` nor start with `/` |
| Utils.SplitFirstIsPrefix | lib/utils.js:346 | the first `/`-segment of a path is a prefix of it |
| Utils.ParentSegmentContainsDots | lib/utils.js:346 | a path with a `..` segment contains `..` |
| Utils.AcceptedPathStaysInside | lib/utils.js:342-350 | an accepted path is relative and has no parent-directory segment |
| Utils.EnvValue | lib/utils.js:214-251 | `process.env[name]` counted only when set to a non-empty (truthy) string |
| Utils.ParseInt | lib/utils.js:223-247 | `parseInt` yields a number only for non-empty text; after blanks and a sign, `0x`/`0X` selects the leading hexadecimal digits, otherwise the leading decimal digits are read |
| Utils.ParseIntOfNat | lib/utils.js:223-224 | `parseInt` reads back every rendered natural number |
| Utils.ParseIntOfDigits | lib/utils.js:223-224 | a non-empty digit string parses to its decimal value |
| Utils.ParseIntOfHex | lib/utils.js:223-224 | `0x` followed by hexadecimal digits parses to their base-16 value |
| Utils.ParseIntHexTtl | lib/utils.js:223-224 | a TTL written `0x3c` reads as 60 |
| Utils.LeadingDigitsOfDigits | lib/utils.js:223-224 | the leading digits of a digit string are the whole string |
| Utils.TruthyInt | lib/utils.js:223-224 | `parseInt(v) \|\|`: only a number other than 0 and NaN is kept |
| Utils.ArnsTtl | lib/utils.js:223-225 | `ARNS_UNDERNAME_TTL` when it parses to a non-zero number, else `DEFAULT_TTL_SECONDS` likewise, else 60; never 0 |
| Utils.SharedCreditsPaidBy | lib/utils.js:238-240 | the comma-separated addresses, each trimmed, exactly when the variable is set; otherwise `null` |
| Utils.LoadConfig | lib/utils.js:211-264 | fails exactly when `ANT_PROCESS_ID` or `ROOT_ARNS_NAME` is missing, the process id checked first; otherwise the configuration carries those values and the defaults |
| Utils.HandleError | lib/utils.js:316-326 | always `success: false` with the error's message and the context |
| Arweave.Pow2 | lib/arweave.js:48-49 | `2 ** i` is at least 1 |
| Arweave.Backoffs | lib/arweave.js:49 | one wait per failed attempt in the range |
| Arweave.UploadWithRetry | lib/arweave.js:42-52 | the loop's run (outcome, number of calls, waits) is the retry specification `Retry(attempt, 0, maxRetries)` |
| Arweave.RetryAfterFailure | lib/arweave.js:46-50 | a failed attempt other than the last costs one call and a wait of 2^i seconds before the rest of the run |
| Arweave.RetryReturnsFirstSuccess | lib/arweave.js:43-49 | the first successful attempt `k` is returned after `k + 1` calls, having waited 2^j seconds after each failed attempt `j < k` |
| Arweave.RetryRethrowsLast | lib/arweave.js:47 | when every attempt fails the last error is rethrown after `maxRetries` calls and `maxRetries - 1` waits |
| Arweave.RetryCallsBounded | lib/arweave.js:43 | a run makes at least one and at most `maxRetries` calls, one wait between consecutive calls, and has no outcome when `maxRetries <= 0` |
| Arweave.DefaultBackoffs | lib/arweave.js:42-49 | with the default of three attempts all failing, the waits are 1 s and 2 s and the third error is thrown |
| Arweave.RetryResult | lib/arweave.js:105-115 | the caller gets the run's returned id or thrown error |
| Arweave.FileTags | lib/arweave.js:77-83 | Content-Type first, App-Name second, then the custom tags in their order |
| Arweave.PayingAddresses | lib/arweave.js:95 | one paying address per received approval, in order |
| Arweave.PaidBy | lib/arweave.js:86-102 | unset without shared credits; otherwise the configured payers when non-empty, else the approvals' paying addresses when there are any, else unset (also lines 216-238) |
| Arweave.IdEntries | lib/arweave.js:175-179 | one `{id}` entry per path-map entry |
| Arweave.CreateManifest | lib/arweave.js:162-182 | the loop builds manifest `arweave/paths`, version `0.2.0`, the given index path, and the path map's entries as `{id}` objects |
| Arweave.ManifestPaths | lib/arweave.js:175-179 | the manifest's paths have exactly the path map's keys, each holding `{id: <its value>}` |
| Arweave.SameKeys | lib/arweave.js:175-179 | the entries built from a path map have its keys |
| Arweave.LastIdEntry | lib/arweave.js:175-179 | each key's entry wraps the path map's value for it |
| Arweave.Signer | lib/arweave.js:60-62 | the key passed in when truthy, else the loaded wallet (also lines 194-196) |
| Arweave.AppNameOr | lib/arweave.js:66-68 | the app name passed in when truthy, else the configured one (also lines 200-202) |
| Arweave.Installed | lib/arweave.js:152-159 | the client already held, else a client built from this key |
| Arweave.InstalledIsSticky | lib/arweave.js:153 | once a client is held every later key is ignored |
| Arweave.ManifestBalanceFailureIgnored | lib/arweave.js:223-236 | a failed balance read does not fail a manifest upload; it only leaves `paidBy` to the configured payers |
| Arweave.LoadWallet | lib/arweave.js:9-35 | a configuration failure is rethrown; the key in `ARWEAVE_JWK_JSON` comes first; otherwise the wallet file named by `ARWEAVE_WALLET_PATH` when it can be read; otherwise the missing-wallet error, and no other error is possible |
| Arweave.LoadWalletNeedsAntProcessId | lib/arweave.js:11 | loading a wallet fails with the configuration's `ANT_PROCESS_ID` error when that variable is unset, whatever the wallet sources hold |
| Arweave.EnvironmentKeyWins | lib/arweave.js:14-17 | a key in the environment is used whatever the wallet file holds |
| Arweave.TurboModule.constructor | lib/arweave.js:150 | the module starts without a client |
| Arweave.TurboModule.GetTurboClient | lib/arweave.js:152-159 | builds the client on the first call and returns the held client on every later call, whatever key is passed |
| Arweave.TurboModule.UploadToArweave | lib/arweave.js:55-120 | a wallet or configuration failure is rethrown before any client exists; then the client is installed, a balance failure is rethrown, and the upload runs with retries carrying `FileTags` and `PaidBy` |
| Arweave.TurboModule.UploadManifest | lib/arweave.js:184-256 | builds the manifest with `CreateManifest`, then the same wallet, configuration and client steps; the balance is read only when shared credits need it and its failure is ignored |
| ManifestManager.Get | lib/manifest-manager.js:212 | `storedHashes[relativePath]`: present exactly when the key is, with its value |
| ManifestManager.OverrideEntries | lib/dynamic-deploy.js:238 | `Object.entries` of the overrides value: an object's own entries, an array's index/item pairs, nothing for a number, boolean or `null` |
| ManifestManager.Discovered | lib/manifest-manager.js:141-163 | discovery returns at most as many paths as the walk listed |
| ManifestManager.DiscoveredMembership | lib/manifest-manager.js:150-160 | a path is discovered exactly when a listed file has it, is not named manifest.json, deployment-tracker.json or manifest-overrides.json, and is deployable |
| ManifestManager.AppRelativeOfJoin | lib/manifest-manager.js:118 | the app-relative path of a file joined onto the app path is its normalised name (also line 208) |
| ManifestManager.FirstPresentIsFirst | lib/manifest-manager.js:328-333 | the candidate search finds nothing exactly when no candidate exists, otherwise the earliest existing one |
| ManifestManager.EntryPointResolution | lib/manifest-manager.js:317-342 | the entry point is the earliest existing name of index.html, main.html, app.html, index.js, main.js, app.js, index.txt; when none exists, the first discovered file's relative path; with no files, "No entry point found for app <id>" |
| ManifestManager.DetectChangesKeepsError | lib/manifest-manager.js:207-225 | a failed hash read aborts the whole scan with its error |
| ManifestManager.DetectChangesIsFilter | lib/manifest-manager.js:207-225 | the scan fails exactly when a tracked file has no blob hash; otherwise the changed files are an order-preserving selection of the tracked files (also line 248) |
| ManifestManager.ChangedFilesExactly | lib/manifest-manager.js:212-248 | a tracked file is changed exactly when it has no stored hash or its hash differs from the stored one (a legacy `{oid}` compared by its oid); paths only in the stored hashes are never reported |
| ManifestManager.RelativeAll | lib/manifest-manager.js:271-299 | one relative path per file |
| ManifestManager.UpdatedTracker | lib/manifest-manager.js:254-309 | the count grows by exactly one (missing counts as 0); the commit and time are recorded; the new entry heads a history of at most 3 that keeps the older entries' order; uploaded hashes win over stored ones; legacy values are migrated; when current files are given only their paths survive, otherwise the keys are the stored and uploaded ones |
| ManifestManager.UpdatedTrackerKeepsStored | lib/manifest-manager.js:284-309 | a stored hash that no upload overwrites and the clean-up does not drop survives, migrated; with current files given, each of them that was uploaded or stored keeps a hash |
| ManifestManager.NumberOfRendered | lib/manifest-manager.js:135 | `Number` reads back a rendered natural number, which holds no dot |
| ManifestManager.NumberOfDigits | lib/manifest-manager.js:135 | `Number` reads decimal digits as their value, and with a minus sign in front as its negation |
| ManifestManager.NumberOfNegated | lib/manifest-manager.js:135 | `Number` reads `-` before a rendered natural number as its negation; the text holds no dot |
| ManifestManager.NumberOfHex | lib/manifest-manager.js:135 | `Number` reads `0x` and hexadecimal digits as their base-16 value |
| ManifestManager.SplitTwo | lib/manifest-manager.js:135 | two dot-free parts joined by a dot split back into those parts |
| ManifestManager.SplitThree | lib/manifest-manager.js:135 | three dot-free parts joined by dots split back into those parts |
| ManifestManager.IncrementVersionBumpsPatch | lib/manifest-manager.js:134-137 | `x.y.z` becomes `x.y.(z+1)`: only the patch part moves |
| ManifestManager.IncrementVersionWithoutPatch | lib/manifest-manager.js:134-137 | a two-part version `x.y` becomes `x.y.NaN` |
| ManifestManager.IncrementVersionParts | lib/manifest-manager.js:134-137 | for any three dot-free parts, the version is rebuilt from the parts read as numbers with one added to the third, so a negative patch counts up too (`1.0.-1` becomes `1.0.0` with `NumberOfNegated`) |
| ManifestManager.PathEntries | lib/manifest-manager.js:117-120 | one entry per uploaded file |
| ManifestManager.PathEntriesSnoc | lib/manifest-manager.js:117-120 | one more file adds its own `{id}` entry at the end |
| ManifestManager.BuiltPaths | lib/manifest-manager.js:105-123 | the built manifest has one path per distinct app-relative path of the input, holding the last id given for it |
| ManifestManager.ManifestManager.constructor | lib/manifest-manager.js:10-15 | the manager keeps the app id and path and the app directory's state |
| ManifestManager.ManifestManager.DiscoverAppFiles | lib/manifest-manager.js:141-163 | fails with "App path does not exist" for a missing directory; otherwise the walk's files minus the three bookkeeping names and non-deployable entries |
| ManifestManager.ManifestManager.GetEntryPoint | lib/manifest-manager.js:317-342 | the loop returns the entry point `EntryPointResolution` characterises |
| ManifestManager.ManifestManager.SaveManifest | lib/manifest-manager.js:34-40 | writes the manifest, or fails with "Failed to save manifest for <id>" and leaves the file |
| ManifestManager.ManifestManager.SaveDeploymentTracker | lib/manifest-manager.js:69-75 | writes the tracker, or fails with "Failed to save deployment tracker for <id>" and leaves the file |
| ManifestManager.ManifestManager.LoadManifest | lib/manifest-manager.js:19-50 | the parsed manifest; a missing one is created from the entry point and saved before it is returned; every failure is wrapped as "Failed to load manifest for <id>: …" |
| ManifestManager.ManifestManager.LoadDeploymentTracker | lib/manifest-manager.js:54-67 | the result is `TrackerLoad` of the file before the call: the parsed tracker; a missing one is created empty and saved first, so a first load writes the file; failures are wrapped and leave the file (also lines 92-101) |
| ManifestManager.ManifestManager.LoadManualOverrides | lib/manifest-manager.js:77-90 | the whole parsed overrides value; `{}` when the file is missing or unparsable |
| ManifestManager.ManifestManager.BuildManifestFromFiles | lib/manifest-manager.js:105-123 | `arweave/paths`, version `0.2.0`, the given entry point or the detected one, and `PathEntries` of the files |
| ManifestManager.ManifestManager.GetChangedFilesByHash | lib/manifest-manager.js:186-249 | fails for a missing app directory, or with the tracker's load error; otherwise `currentFiles` are the discovered files git tracks, in discovery order, and `changedFiles` is `DetectChanges` over them; the tracker file is created when it was missing |
| ManifestManager.ManifestManager.UpdateDeploymentTracker | lib/manifest-manager.js:251-313 | succeeds exactly when the tracker loads and can be written; the saved and returned tracker is `UpdatedTracker` of the loaded one; on failure the file is unchanged |
| ManifestManager.RecordDeployment | lib/manifest-manager.js:254-309 | the in-place field updates compute `UpdatedTracker` |
| ManifestManager.MergeAndMigrate | lib/manifest-manager.js:286-294 | `{...stored, ...uploaded}` followed by the migration loop computes the merged, migrated hashes |
| ManifestManager.MigrateAll | lib/manifest-manager.js:289-294 | every legacy value with a truthy oid becomes that oid; every other value and every key stays |
| ManifestManager.MigratedSpread | lib/manifest-manager.js:286-294 | migrating after the spread is the merge: uploaded hashes win and are already plain, stored ones are migrated |
| ManifestManager.Prune | lib/manifest-manager.js:297-309 | the clean-up loop keeps exactly the entries whose path is current |
| ManifestManager.TrackedByGit | lib/manifest-manager.js:193-198 | the files git tracks, in discovery order |
| ManifestManager.ScanChanges | lib/manifest-manager.js:207-225 | the hashing loop computes `DetectChanges` |
| GitTracker.FileHash | lib/git-tracker.js:218-227 | the blob hash git computes for the file, or "Failed to get file hash for <path>" when there is none |
| GitTracker.FormatDeployCommitMessage | lib/git-tracker.js:394-403 | the message starts with "Deploy app:<appId>" |
| GitTracker.MessageNamesManifest | lib/git-tracker.js:396-401 | the message names the manifest by the first 16 characters of its id |
| GitTracker.MessageCarriesMarker | lib/git-tracker.js:302 | a deployment commit's message contains its own app's marker, so `findLastDeployCommit` recognises it (also line 398) |
| GitTracker.MarkerMatchesLongerAppIds | lib/git-tracker.js:302-319 | the marker test is a plain substring test: commits of an app whose id extends `appId` match it too |
| GitTracker.FirstMatch | lib/git-tracker.js:301-307 | none exactly when no entry's message contains the marker; otherwise the oid of the first entry that does |
| GitTracker.DeploymentsAppend | lib/git-tracker.js:318-329 | the matching commits of a concatenated log are those of each part, in order |
| GitTracker.History | lib/git-tracker.js:317-331 | a prefix of the matching commits in log order, as many as there are up to the bound (`limit`, and one for `limit <= 0` because the length test follows the push) |
| GitTracker.SelectAppFilesMembership | lib/git-tracker.js:199-210 | a file is kept exactly when it is listed, starts with the app's path, is not a tracking file and is not a directory |
| GitTracker.PrefixSelectsSiblingApps | lib/git-tracker.js:200 | the prefix test ignores directory boundaries: a file of `apps/foobar` is selected for `apps/foo` |
| GitTracker.GitTracker.constructor | lib/git-tracker.js:50-57 | the tracker keeps the app and the repository state, with the lock free and nothing staged |
| GitTracker.GitTracker.GetShortCommitHash | lib/git-tracker.js:155-158 | the first 16 characters of `HEAD`'s oid; fails when `HEAD` cannot be resolved |
| GitTracker.GitTracker.GetCommitInfo | lib/git-tracker.js:170-191 | `shortHash` is always the first 16 characters of `fullHash`; a readable commit (the given hash, else `HEAD`) gives its oid, message and author; a read failure gives the given hash or `unknown`, "Unknown commit" and "Unknown" |
| GitTracker.GitTracker.GetAllAppFiles | lib/git-tracker.js:195-216 | the index's files selected by `SelectAppFiles`, in listing order; a library failure is rethrown as "Failed to get all app files" |
| GitTracker.KeepRegular | lib/git-tracker.js:205-210 | the loop keeps exactly the candidates that are regular files, in order |
| GitTracker.GitTracker.FindLastDeployCommit | lib/git-tracker.js:296-311 | the first of the last 100 log entries carrying "Deploy app:<appId>", or `null` |
| GitTracker.GitTracker.GetDeploymentHistory | lib/git-tracker.js:313-335 | the loop with its early `break` computes `History` over the last 100 entries; `[]` outside a repository |
| GitTracker.GitTracker.CreateDeployCommit | lib/git-tracker.js:339-392 | once the lock is taken it is released on every path; success exactly when no step fails, staging exactly the app's manifest.json and deployment-tracker.json and writing a commit with the formatted message at the head of the log; failures are rethrown as "Failed to create deployment commit: …" |
| GitTracker.GitTracker.CommitUnderLock | lib/git-tracker.js:347-383 | the `try` body: validates, stages both files, then commits; a failed step leaves log, head and objects unchanged |
| GitTracker.Fail | lib/git-tracker.js:385 | every rethrown error starts with "Failed to create deployment commit: " |
| GitTracker.NewDeployCommitIsFound | lib/git-tracker.js:296-311 | after a deployment commit, `findLastDeployCommit` finds that commit (also lines 394-403) |
| DynamicDeploy.Transfer | lib/dynamic-deploy.js:143-170 | one file's step succeeds only when the file was read and hashed (then a test id or an upload id) |
| DynamicDeploy.UploadAllKeepsError | lib/dynamic-deploy.js:137-171 | after a failure no later file is processed: the error is the whole result |
| DynamicDeploy.UploadAllSnoc | lib/dynamic-deploy.js:149-167 | a further successful file adds its hash under its relative path and its id under its absolute path |
| DynamicDeploy.UploadAllStopsAt | lib/dynamic-deploy.js:168-170 | a further failing file ends the uploads with "Failed to upload <rel>: <message>" |
| DynamicDeploy.UploadAllFailsAtStep | lib/dynamic-deploy.js:168-170 | the first failing transfer ends the uploads with "Failed to upload <rel>: <message>" |
| DynamicDeploy.UploadAllFails | lib/dynamic-deploy.js:137-171 | the uploads fail exactly when some file's step fails |
| DynamicDeploy.UploadAllFailsAtFirst | lib/dynamic-deploy.js:137-171 | a failure reports the first failing file, every earlier one having succeeded |
| DynamicDeploy.UploadAllIdsEveryFile | lib/dynamic-deploy.js:155-173 | after success the files with an id are exactly the changed files |
| DynamicDeploy.UploadAllHashesEveryFile | lib/dynamic-deploy.js:139-173 | after success the paths with a hash are exactly the changed files' relative paths |
| DynamicDeploy.RelativeSetSnoc | lib/dynamic-deploy.js:139 | one more file adds its relative path |
| DynamicDeploy.OverrideIds | lib/dynamic-deploy.js:238-241 | one `{id}` entry per top-level override entry |
| DynamicDeploy.UploadedPathsSnoc | lib/dynamic-deploy.js:229-234 | one more uploaded file adds its relative path exactly when it is not a tracking file |
| DynamicDeploy.NewEntriesKeys | lib/dynamic-deploy.js:229-234 | the paths with a new entry are exactly the relative paths of the uploaded non-tracking files |
| DynamicDeploy.KeptEntriesKeys | lib/dynamic-deploy.js:216-225 | an old path is kept exactly when it had an entry, is not a tracking file and is among the current files |
| DynamicDeploy.ReconciledLookup | lib/dynamic-deploy.js:215-241 | the rebuilt paths' keys are those of the kept, new and override entries; an override wins over a new id, which wins over a kept entry, even for paths not in the current files |
| DynamicDeploy.OverrideIdsKeys | lib/dynamic-deploy.js:238-241 | the override entries cover exactly the override keys |
| DynamicDeploy.OverrideIdsLast | lib/dynamic-deploy.js:239 | each override key holds `{id: <override value>}` |
| DynamicDeploy.KeptEntriesSnoc | lib/dynamic-deploy.js:217-225 | one more old entry is kept exactly when it passes the test |
| DynamicDeploy.NewEntriesSnoc | lib/dynamic-deploy.js:229-234 | one more upload adds its entry exactly when it is not a tracking file |
| DynamicDeploy.KeepCurrentEntries | lib/dynamic-deploy.js:216-226 | the first loop builds the kept entries |
| DynamicDeploy.AddNewEntries | lib/dynamic-deploy.js:229-234 | the second loop lays the new entries over them |
| DynamicDeploy.ApplyOverrides | lib/dynamic-deploy.js:237-241 | the third loop lays the override entries over the result |
| DynamicDeploy.CreateArnsRecord | lib/dynamic-deploy.js:255-314 | never fails except when root mode cannot load the configuration; test mode returns the bare name with no call; in root mode the root ArNS name; outside test mode a wallet that cannot be loaded gives the bare name; otherwise `<name>_<root>` when the record exists or is created, and the bare name when creation fails |
| DynamicDeploy.NoWalletBareName | lib/dynamic-deploy.js:267-313 | with a configuration but no wallet key or file, an undername deployment outside test mode reports the bare name |
| DynamicDeploy.TestModeIgnoresAnt | lib/dynamic-deploy.js:257-266 | in test mode the ANT plays no part |
| DynamicDeploy.TotalSizeAppend | lib/dynamic-deploy.js:321-329 | the total size of a concatenation is the sum of the totals |
| DynamicDeploy.CalculateDeploymentStats | lib/dynamic-deploy.js:318-339 | the loop sums the sizes of the readable changed files; counts of changed, unchanged and uploaded files |
| DynamicDeploy.StepOrderJoin | lib/dynamic-deploy.js:59-102 | the three preparing steps followed by a prefix of tracker, manifest save and commit keep the step order |
| DynamicDeploy.DynamicDeployer.constructor | lib/dynamic-deploy.js:14-19 | the deployer shares the app id and path with its manifest manager and git tracker and has taken no step |
| DynamicDeploy.DynamicDeployer.UploadChangedFiles | lib/dynamic-deploy.js:132-174 | the method computes `UploadChanged`: the wallet is loaded first and its failure is the whole result; then files in order, hash per relative path, id per absolute path, first failure aborts |
| DynamicDeploy.UploadChanged | lib/dynamic-deploy.js:132-174 | a configuration failure or a missing wallet ends the uploads with that message before any file; with a wallet the result is the per-file loop `UploadAll` |
| DynamicDeploy.ManifestTxId | lib/dynamic-deploy.js:176-195 | the wallet is loaded first; then test mode gives `test-manifest-<clock>` and otherwise the manifest upload's id or error; a configuration failure is the result in both modes |
| DynamicDeploy.TestModeNeedsConfiguration | lib/dynamic-deploy.js:132-195 | a test deployment still loads the wallet: without `ANT_PROCESS_ID` the file uploads and the manifest upload both fail with the configuration error |
| DynamicDeploy.NamingAfterManifest | lib/dynamic-deploy.js:69-78 | once the manifest upload has succeeded, the naming step cannot fail |
| DynamicDeploy.PreparingTrace | lib/dynamic-deploy.js:56-78 | a deployment stopped before the manifest upload has taken no step, or only the file uploads, in order |
| DynamicDeploy.DynamicDeployer.Announce | lib/dynamic-deploy.js:69-78 | uploads the manifest, then names it: the ids returned are `ManifestTxId` and `CreateArnsRecord`, recorded as two steps; a manifest failure adds no step |
| DynamicDeploy.DynamicDeployer.Finish | lib/dynamic-deploy.js:80-118 | writes the tracker, saves the manifest and commits; on success the result carries the prepared version, commit, manifest id, undername, changed files and new ids, the tracker holds the updated history and hashes and the manifest file holds the rebuilt manifest |
| DynamicDeploy.DynamicDeployer.UpdateManifestWithNewFiles | lib/dynamic-deploy.js:197-244 | version `0.2.0`, index path the resolved entry point, paths the reconciled kept, new and override entries; an entry-point failure is rethrown |
| DynamicDeploy.DynamicDeployer.UploadAndRebuild | lib/dynamic-deploy.js:56-67 | loads the manifest, uploads the files (`UploadChanged`) and rebuilds the manifest as `RebuiltManifest` of the manifest on disk, the new ids, the current files, the entry point and the overrides, leaving the manifest file as it was |
| DynamicDeploy.DynamicDeployer.Prepare | lib/dynamic-deploy.js:56-78 | the files, then the manifest are uploaded and the name is assigned, in that order, with at most those three steps; the release holds the uploads, manifest id and undername the services give and the manifest rebuilt from the state before the call (`Prepared`) |
| DynamicDeploy.DynamicDeployer.Record | lib/dynamic-deploy.js:80-102 | writes the tracker, then saves the manifest, then commits unless in test mode or CI; a step that fails stops the rest, and files reached by no step keep their contents |
| DynamicDeploy.DynamicDeployer.Commit | lib/dynamic-deploy.js:97 | a failed commit adds no step and leaves the log |
| DynamicDeploy.DynamicDeployer.Scan | lib/dynamic-deploy.js:36-42 | finds the changed files of the app directory, and succeeds exactly when the directory exists, the tracker loads and the scan succeeds; the tracker reads the same as before |
| DynamicDeploy.DynamicDeployer.Publish | lib/dynamic-deploy.js:56-118 | with changed files, a full run takes upload, manifest upload, naming, tracker, manifest save and (outside test mode and CI) commit in that order; the tracker is not written unless the first three succeeded; a success (`Published`) reports the uploads' new ids, the manifest id and the undername the services give, leaves the tracker with the new history entry and hashes on top of the one read before, and the manifest file with the manifest rebuilt from the state before the call |
| DynamicDeploy.PublishTrace | lib/dynamic-deploy.js:56-118 | past the naming, the earlier trace is kept and the new steps are upload, manifest upload, naming, then a prefix of tracker, manifest save and commit, in rank order |
| DynamicDeploy.DynamicDeployer.Deploy | lib/dynamic-deploy.js:23-128 | outside a repository it fails at once; it is skipped, with no outside step, exactly when the directory exists, the tracker loads and nothing changed; the steps always follow the order; the tracker is written only after the manifest upload and the naming (a first load may create an empty one); every error gives `success: false` with the app id; a success is `Published` against the state and file list read at the start |
| DynamicDeploy.DynamicDeployer.ValidateApp | lib/dynamic-deploy.js:365-391 | the result is `Validity` of the state before the call: valid exactly when the directory exists, the tracker loads, the scan succeeds, some file is git-tracked and an entry point resolves; otherwise invalid with the first of the missing-directory, tracker, scan, no-tracked-files and entry-point errors; the tracker reads the same afterwards |
| DeployCli.ArgAt | deploy.js:534-550 | `args[i]` exactly when `i` is in range, `undefined` past the end |
| DeployCli.FlagOfName | deploy.js:521-540 | an argument names a flag of the first pass exactly when it equals that flag's spelling |
| DeployCli.ParseFlags | deploy.js:519-541 | the first loop computes `Flags(args, 0, {})` |
| DeployCli.FlagsWithoutUndername | deploy.js:519-541 | without `--customUndername` the first pass cannot fail and applies each flag in turn |
| DeployCli.FlagEffectSwitch | deploy.js:521-540 | one flag turns on its own switch and leaves the other switches as they were |
| DeployCli.AppliedSwitch | deploy.js:521-540 | after the first pass each of `testMode`, `dryRun`, `announceDiscord`, `triggerAnnouncement`, `triggerGithubDeploy`, `useRootName` is on exactly when its flag appears (or it was on) |
| DeployCli.FlagEffectKeeps | deploy.js:531-532 | only `--no-dynamic` turns dynamic deployment off, and no flag sets the undername, path or content |
| DeployCli.AppliedNoDynamic | deploy.js:531-532 | `useDynamic` stays true exactly when `--no-dynamic` does not appear |
| DeployCli.TrailingUndernameRejected | deploy.js:533-537 | a `--customUndername` with no value after it fails with "--customUndername requires a value" |
| DeployCli.ParseCommands | deploy.js:544-655 | the second loop computes `Commands`: `-f`, `-c`, `-m` take the next argument, utility commands end the pass, first-pass flags are skipped, other dash arguments are unknown, anything else becomes content |
| DeployCli.ParseArguments | deploy.js:515-655 | both passes; a first-pass error is the fatal error |
| DeployCli.UndernameValueAlsoContent | deploy.js:533-534 | the value after `--customUndername` is not skipped by the second pass: it also becomes the content (also lines 638-651) |
| DeployCli.UndashedIsPlain | deploy.js:636-652 | an argument not starting with a dash names no flag, option or command, so the second pass takes it as content |
| DeployCli.FileValueTakenVerbatim | deploy.js:521-551 | the value after `--file` is taken even when it looks like a flag, while the first pass still acts on that flag |
| DeployCli.UnknownDashArgument | deploy.js:635-648 | a dash argument that is no option, command or first-pass flag stops the run as unknown |
| DeployCli.AppName | deploy.js:43 | the app name is never empty (`'app'` when both splits end empty) (also line 122) |
| DeployCli.AppNameOfJoin | deploy.js:43 | the app name of `dir/name` is `name` |
| DeployCli.AppNameKeepsTrailingSlash | deploy.js:43 | a path ending in `/` without backslashes is its own app name, trailing slash included |
| DeployCli.DynamicOutcome | deploy.js:49-113 | success exactly when validation passed and the deployment succeeded; a skipped deployment is a "no changes" success with its reason and commit; failures carry "Directory validation failed: …" or "Dynamic deployment failed: …" with the dynamic context |
| DeployCli.DeployDirectoryDynamic | deploy.js:38-114 | the result is `DynamicOutcome` of `Validity` before the call and of the deployment, so a missing directory fails; the log gains an entry for every result except "no changes"; an invalid or unchanged app reaches no outside step; a valid app is reported as "no changes" exactly when it is in a repository and nothing changed |
| DeployCli.ValidateAndDeploy | deploy.js:48-55 | an app is deployed exactly when `Validity` holds; outside a repository the deployment fails; it is skipped exactly when nothing changed; a success is `Published` against the state read before validation, with its steps in order |
| DeployCli.NoChangesNotLogged | deploy.js:94-101 | a skipped dynamic result is returned as a success and not logged |
| DeployCli.TrackingFiles.constructor | deploy.js:136-137 | the app's tracker and manifest contents |
| DeployCli.Restored | deploy.js:183-190 | after `finally` a file holds its backup when that was non-empty, otherwise what the deployment left |
| DeployCli.FullOutcome | deploy.js:128-200 | success exactly when validation passed and the deployment deployed; a skipped deployment fails (it has no statistics); failures carry their message and the full context |
| DeployCli.DeployDirectoryFull | deploy.js:117-201 | after validation, deletes tracker and manifest, deploys, restores every non-empty backup whatever the result, and logs the outcome; an invalid app leaves both files |
| DeployCli.FullDeployRestoresOldTracker | deploy.js:185-187 | even after a successful full deployment a non-empty old tracker overwrites the new one |
| DeployCli.EmptyBackupNotRestored | deploy.js:185 | an empty tracking file is deleted and not restored |
| DeployCli.DeployFileRoute | deploy.js:222-233 | an invalid path fails validation first; a directory goes to dynamic deployment when `useDynamic` (the default) and to full deployment otherwise; anything else is a single file |
| DeployCli.DeployFileFailure | deploy.js:416-423 | `deployFile`'s failure carries the error, context "Deployment " and the path given, else `hello-world.txt` |
| DeployCli.AnyAppsSuffixCounts | deploy.js:659-663 | any path ending in `apps` counts (`myapps`), a path below it (`apps/blog`) does not |
| DeployCli.SubdirectoryNames | deploy.js:757-771 | at most one name per entry |
| DeployCli.SubdirectoryNamesMembership | deploy.js:757-771 | exactly the directory entries are listed |
| DeployCli.GetSubdirectories | deploy.js:767-778 | each subdirectory joined under the path, in listing order, with one slash after a path written with a trailing slash; none when the directory cannot be read |
| DeployCli.ParentModeHasApps | deploy.js:665-673 | parent mode needs at least two subdirectories, so its "no subdirectories" exit is never taken (also lines 749-764) |
| DeployCli.CountCompleted | deploy.js:690-696 | the number of apps deployed is at most the number of apps |
| DeployCli.SkippedLineCountsFailures | deploy.js:703-706 | the summary's "Skipped" line (total minus successful) counts failed apps as well as unchanged ones |
| DeployCli.CountSuccessfulApps | deploy.js:679-701 | the loop's `successCount` is the number of results that deployed something |
| Player.NumberedPrefix | scripts/player.js:150 | the numeral captured from a video's file name is a run of leading digits of that name |
| Player.SeparatorRun | scripts/player.js:159 | the length of the run of separators `[\s-_.]+` at the start: all of them are separators and the next character is not |
| Player.StripExtension | scripts/player.js:160 | removing the extension leaves a prefix of the name |
| Player.VideoNumberOfNumbered | scripts/player.js:148-151 | a video named `n` followed by a separator is numbered `n` |
| Player.UnnumberedDefaults | scripts/player.js:148-160 | a name without a leading digit is numbered 1 as a video and 0 as audio, and its title is the name without extension |
| Player.GluedDigits | scripts/player.js:150-154 | digits glued to the name count for an audio track (`12Song.mp3` is 12) but not for a video (`12Song.mp4` is 1) |
| Player.StripNumberOfNumbered | scripts/player.js:159 | a numbered name loses its numeral and every separator after it |
| Player.SpacedDashRun | scripts/player.js:159 | ` - ` in front of a title is one run of three separators |
| Player.StripExtensionOf | scripts/player.js:160 | `name.ext` loses exactly `.ext` when the extension is non-empty and holds no dot or slash |
| Player.TitleOfNumbered | scripts/player.js:158-160 | `NN - Name.ext` is titled `Name` |
| Player.TrackOf | scripts/player.js:142-164 | a media path gives a track, a video exactly when it lies under `Reels/`; a `null` manifest entry throws |
| Player.TracksOf | scripts/player.js:142-164 | mapping the media paths gives one track per path or the first error |
| Player.TracksOfEach | scripts/player.js:142-164 | the `i`-th track is the track of the `i`-th path |
| Player.ManifestTracksFromMedia | scripts/player.js:138-165 | the manifest tracks are sorted by number, one per path under `Tracks/` or `Reels/`, each derived from such a path |
| Player.AlbumList | scripts/player.js:170-171 | `albumData.tracks?` / `albumData.reels?`: the items of the array, none when the key is missing |
| Player.FindByNumber | scripts/player.js:170-171 | a found entry is the first item carrying the track's number: every item before it is no `null` and carries another number |
| Player.FindByNumberFinds | scripts/player.js:170-171 | with no `null` item the search succeeds, and finds an entry exactly when some item has that number |
| Player.Merged | scripts/player.js:175-181 | the album entry's truthy title overrides the file-name title; url, number and kind stay the manifest's; no entry, no duration |
| Player.MatchTrack | scripts/player.js:168-181 | a matched track keeps its number and kind; a malformed list throws |
| Player.AlbumTitleWins | scripts/player.js:169-176 | an `album.json` entry with the track's number and a truthy title gives the track that title |
| Player.MatchTracks | scripts/player.js:167-182 | matching keeps the number of tracks |
| Player.MatchTracksKeeps | scripts/player.js:167-182 | matching keeps each track's position, number and kind |
| Player.LoadTracks | scripts/player.js:120-198 | an `album.json` of `null` is an error, and so is an `info` that is set but not text (its `endsWith` call throws before any track is built); it loads exactly when neither happens and the manifest's tracks match the album, and the tracks are then the matched ones, one per manifest track |
| Player.TextInfoLoads | scripts/player.js:125-127 | an `info` that is text does not stop the tracks from loading |
| Player.NumericInfoFails | scripts/player.js:125-127 | a non-zero number as `info` fails the load with the `endsWith` error |
| Player.LoadedTracksAscending | scripts/player.js:138-182 | the player's track list is in ascending order of number, one track per media path |
| Player.NextIndex | scripts/player.js:247-259 | Next moves forward exactly when a later track exists and stays within the list (also lines 291-296) |
| Player.PrevIndex | scripts/player.js:241-244 | Previous moves back exactly when an earlier track exists and stays within the list (also lines 283-288) |
| Player.NextTimesStopsAtLast | scripts/player.js:247-252 | pressing Next `k` times from track `i` reaches `i + k`, or the last track |
| Player.PrevUndoesNext | scripts/player.js:239-252 | Previous undoes a Next that moved |
| Player.Player.constructor | scripts/player.js:204-265 | the player starts on the first track, paused, at position 0 |
| Player.Player.LoadTrack | scripts/player.js:8-81 | loading a track makes it current and rewinds to its start |
| Player.Player.PlayCurrentTrack | scripts/player.js:84-90 | the current track plays |
| Player.Player.Next | scripts/player.js:247-259 | the index becomes `NextIndex`; a move starts the new track playing, no move changes nothing |
| Player.Player.Prev | scripts/player.js:239-245 | past two seconds it only rewinds; otherwise the index becomes `PrevIndex`, and a move starts the earlier track playing |
| Player.Player.ArrowLeft | scripts/player.js:283-289 | ArrowLeft goes back whenever it can, without the two-second rewind |
| Player.Player.Select | scripts/player.js:186-193 | a click on row `i` makes track `i` current and plays it from the start |
| Player.Player.TogglePlay | scripts/player.js:226-237 | the play button and Space flip between playing and paused (also lines 272-281) |
| Gateway.ArweaveNetIsNotArIo | scripts/utils.js:96-97 | the fallback gateway `https://arweave.net` does not itself mention `ar.io` |
| Gateway.DetectGatewayDomain | scripts/utils.js:84-101 | the gateway is either the one the host name suggests or `https://arweave.net`, and never mentions `ar.io` |
| Gateway.GatewayOfSubdomain | scripts/utils.js:88-93 | a host `first.domain` is served by `protocol//domain`, everything after the first dot |
| Gateway.ArIoHostUsesArweaveNet | scripts/utils.js:91-98 | a host whose domain mentions `ar.io` is sent to `https://arweave.net` |
| Gateway.SingleLabelUsesOrigin | scripts/utils.js:91-93 | a host name without a dot is served by the page's own origin |
| Gateway.IsMobileDevice | scripts/utils.js:104-117 | a touch device on a screen at most 768 pixels wide is mobile; on a wide screen, or without touch, a device is mobile exactly when its user agent names a mobile device; such a user agent makes it mobile on any screen |
| Gateway.IsMobileIgnoresCase | scripts/utils.js:112 | the user-agent test ignores case |
| Gateway.NamedDeviceIsMobile | scripts/utils.js:112-116 | a user agent containing any of the eight device names, in any case, is mobile |
| RenameTracks.ZeroPad2 | tools/file-renaming-tool/rename_tracks.py:8 | `{index:02d}` is at least two digits and reads back as the index |
| RenameTracks.CleanFilenameIsClean | tools/file-renaming-tool/rename_tracks.py:5-8 | a cleaned name holds none of `< > : " / \ \| ? *` |
| RenameTracks.CleanNameOnlyPrefixed | tools/file-renaming-tool/rename_tracks.py:5-8 | a name that is already clean only gains the `NN - ` prefix |
| RenameTracks.PlayerReadsIndex | tools/file-renaming-tool/rename_tracks.py:8 | the player reads the index back from a renamed file, as audio and as video |
| RenameTracks.Suffix | tools/file-renaming-tool/rename_tracks.py:47-57 | the suffix kept is an ending of the old name |
| RenameTracks.Stem | tools/file-renaming-tool/rename_tracks.py:47-57 | the stem is a beginning of the name |
| RenameTracks.StemSuffix | tools/file-renaming-tool/rename_tracks.py:47-57 | stem and suffix together give the name back |
| RenameTracks.StemAndSuffixOf | tools/file-renaming-tool/rename_tracks.py:47-58 | `stem.ext` has suffix `.ext` and stem `stem` when `ext` holds no dot |
| RenameTracks.LexLeTotalPreorder | tools/file-renaming-tool/rename_tracks.py:13 | Python's string order, used by `sorted`, is total and transitive |
| RenameTracks.MediaFilesSortedSelection | tools/file-renaming-tool/rename_tracks.py:10-13 | the media files are exactly the listed names with a supported extension in any case, sorted |
| RenameTracks.StripLine | tools/file-renaming-tool/rename_tracks.py:22 | `line.strip()` is empty or has no surrounding whitespace |
| RenameTracks.ReadNameIsStripped | tools/file-renaming-tool/rename_tracks.py:21-22 | every name read from `tracks.txt` is non-empty and stripped |
| RenameTracks.TrimOfStripped | tools/file-renaming-tool/rename_tracks.py:22 | stripping a stripped name changes nothing |
| RenameTracks.StrippedKeepsStripped | tools/file-renaming-tool/rename_tracks.py:22 | lines that are already stripped and non-empty are all kept, in order |
| RenameTracks.ReadNamesOfLines | tools/file-renaming-tool/rename_tracks.py:21-22 | writing names one per line and reading `tracks.txt` back gives the same names |
| RenameTracks.PlanPairsByPosition | tools/file-renaming-tool/rename_tracks.py:46-58 | the `i`-th file gets the `i`-th name numbered `i + 1` and keeps its extension; only the shorter count of pairs is planned |
| RenameTracks.Decide | tools/file-renaming-tool/rename_tracks.py:20-54 | renaming goes ahead only with `tracks.txt`, a confirmed `yes` and, on a count mismatch, a `yes` to continue; it then follows the positional plan |
| RenameTracks.MatchingCountsRenameAll | tools/file-renaming-tool/rename_tracks.py:36-54 | with as many names as files and a `yes`, every file is renamed |
| RenameTracks.MovedMoves | tools/file-renaming-tool/rename_tracks.py:59 | `os.rename` moves the contents to the target, replacing a file of that name, and leaves every other file alone |
| RenameTracks.AppliedLeavesOthers | tools/file-renaming-tool/rename_tracks.py:55-62 | a file the plan does not mention keeps its name and contents |
| RenameTracks.FailuresArePlanned | tools/file-renaming-tool/rename_tracks.py:56-62 | every reported failure is a rename the plan asked for |
| RenameTracks.Folder.constructor | tools/file-renaming-tool/rename_tracks.py:29 | the folder holds the given files |
| RenameTracks.Folder.Rename | tools/file-renaming-tool/rename_tracks.py:59-62 | a rename succeeds exactly when the source exists; on failure nothing changes |
| RenameTracks.RenameAll | tools/file-renaming-tool/rename_tracks.py:15-64 | `main` renames exactly the planned pairs in order, goes on past a failing rename, and changes nothing when it stops early |
| RenameTracks.ApplyPlan | tools/file-renaming-tool/rename_tracks.py:55-62 | the renaming loop leaves the folder and the failures the plan specifies, going on past a failing rename |
| RenameTracks.YesIsYes | tools/file-renaming-tool/rename_tracks.py:54 | the answer `yes` is accepted |
| SetupAlbum.CleanName | tools/album-setup-tool/setup_album.py:10-12 | the cleaned name holds no forbidden character and does not end in a space or a dot |
| SetupAlbum.CleanNameOfClean | tools/album-setup-tool/setup_album.py:8-13 | an already clean name is unchanged by cleaning |
| SetupAlbum.CleanNameIdempotent | tools/album-setup-tool/setup_album.py:8-13 | cleaning twice is cleaning once |
| SetupAlbum.NumberSeparatorRun | tools/album-setup-tool/setup_album.py:151 | the run of `[- _.]` separators after a leading number ends at the first other character |
| SetupAlbum.UnnumberedStemKept | tools/album-setup-tool/setup_album.py:151 | a stem without a leading number followed by a separator is offered as it is |
| SetupAlbum.SpacedDashRun | tools/album-setup-tool/setup_album.py:151 | ` - ` before a title is one run of three separators |
| SetupAlbum.OfferedTitleOfCleanedFile | tools/album-setup-tool/setup_album.py:148-156 | pressing Enter on a file named by `clean_filename` offers its cleaned name as the title |
| SetupAlbum.GetMediaFiles | tools/album-setup-tool/setup_album.py:15-37 | `Reels/` is used exactly when it holds a video file; a missing directory is created empty; the files are the media files of the chosen directory, sorted |
| SetupAlbum.AudioOnlyReelsUseTracks | tools/album-setup-tool/setup_album.py:24-27 | a `Reels/` holding only audio files is passed over for `Tracks/` |
| SetupAlbum.LoadAlbumJson | tools/album-setup-tool/setup_album.py:39-46 | the parsed value exactly when the file exists, is non-empty, parses, and is not `null` |
| SetupAlbum.ExistingData | tools/album-setup-tool/setup_album.py:54 | a missing or falsy album becomes the empty dictionary |
| SetupAlbum.Answered | tools/album-setup-tool/setup_album.py:60-63 | a non-empty answer wins; an empty one falls back on the old album's value or `''` |
| SetupAlbum.NewAlbum | tools/album-setup-tool/setup_album.py:48-73 | building fails exactly when the old `album.json` is truthy but not a dictionary |
| SetupAlbum.LookupAppended | tools/album-setup-tool/setup_album.py:69-71 | a key added at the end looks up to its value |
| SetupAlbum.ListKeysNotHeaders | tools/album-setup-tool/setup_album.py:57-71 | `tracks` and `reels` are not among the header keys |
| SetupAlbum.NewAlbumKeys | tools/album-setup-tool/setup_album.py:48-73 | a new album has the directory's type and an empty list under that directory's key and not the other |
| SetupAlbum.AnswersWithoutExisting | tools/album-setup-tool/setup_album.py:57-73 | with no old album every detail is exactly the line typed |
| SetupAlbum.RefilledSettled | tools/album-setup-tool/setup_album.py:137-139 | refilling details that are already settled changes nothing |
| SetupAlbum.LookupAt | tools/album-setup-tool/setup_album.py:137-139 | the `i`-th pair is what its key looks up to when no earlier pair has that key |
| SetupAlbum.AnsweredSettled | tools/album-setup-tool/setup_album.py:60-63 | an answered detail is set or already holds the old album's value (also lines 137-139) |
| SetupAlbum.RefillChangesNothing | tools/album-setup-tool/setup_album.py:131-139 | filling empty details from the old album again changes nothing, because `create_new_album_json` already fell back on the same values |
| SetupAlbum.MediaList | tools/album-setup-tool/setup_album.py:147-162 | one entry per file, numbered from 1 in sorted order, titled by the answer or the stripped stem |
| SetupAlbum.NumberedEntries | tools/album-setup-tool/setup_album.py:147-162 | the loop numbers the titles from 1, in order |
| SetupAlbum.RenameFromFiles | tools/album-setup-tool/setup_album.py:114-183 | cancels exactly when an existing file is not confirmed; reports no media exactly when a confirmed or first run finds none; fails exactly when the album cannot be built; otherwise the result is the new album typed after its directory with the media list under that directory's key |
| SetupAlbum.RenameFromJson | tools/album-setup-tool/setup_album.py:185-207 | ready exactly when `album.json` is a non-empty dictionary whose list for the directory is non-empty and as long as the file list |
| SetupAlbum.MissingListRefused | tools/album-setup-tool/setup_album.py:196-200 | an album without the directory's list, or with an empty one, is refused |
| SetupAlbum.WrittenAlbumAccepted | tools/album-setup-tool/setup_album.py:164-167 | the album `rename_from_files` writes is accepted by `rename_from_json` for the same files (also lines 196-207) |
| Text.Split | scripts/utils.js:88 | `split` on one character always gives at least one part |
| Text.JoinSplit | scripts/utils.js:88-92 | joining the parts of a split with the same separator gives the string back |
| Text.SplitJoin | scripts/utils.js:88-92 | splitting parts joined by a separator none of them holds gives the parts back |
| Text.Trim | tools/file-renaming-tool/rename_tracks.py:22 | the trimmed string neither starts nor ends with whitespace and is no longer than the input |
| Text.ToLower | tools/file-renaming-tool/rename_tracks.py:13 | lower-casing keeps the length and lower-cases each character |
| Text.ToLowerIdempotent | tools/file-renaming-tool/rename_tracks.py:13 | lower-casing twice is lower-casing once |
| Text.NatToStringRoundTrip | tools/file-renaming-tool/rename_tracks.py:8 | a rendered number is a canonical numeral that reads back as the number |
| Text.LeadingDigits | scripts/player.js:154 | `/^\d+/` matches the longest run of leading digits |
| Sorting.SortBy | scripts/player.js:165 | sorting is a permutation of its input |
| Sorting.SortBySorted | scripts/player.js:165 | under a total preorder the sorted sequence is in order |
| Sorting.SortBySortedInput | scripts/player.js:165 | sorting input that is already in order changes nothing |
| Seqs.FilterMembership | scripts/player.js:138-140 | an element is selected exactly when it occurs in the input and satisfies the predicate |
| Assoc.LookupSetKey | tools/album-setup-tool/setup_album.py:143 | after `obj[k] = v`, `k` reads `v` and every other key keeps its value |
| Assoc.LookupAssign | lib/tag-manager.js:55 | after `Object.assign`, a key takes its last value in the source, or keeps its value in the target |
| Json.Field | scripts/player.js:112 | only an object has named fields, and a field reads as the object's value under that key |

## Left out

- Arweave.LoadWallet: the key is kept as text and is not parsed as JSON, so a malformed `ARWEAVE_JWK_JSON`, which `JSON.parse` would reject with its own error, is not modelled. Reading the wallet file is an input: a file that cannot be read or parsed is `None`.
- Templates.RenderTemplate: the replacement patterns `$&`, `$$`, `` $` `` and `$'` in a string value, and RegExp metacharacters in a key, are not interpreted; values and keys are taken literally.
- ManifestManager.NumberOf: the exponent form (`1e3`) reads as `NaN` in the model where `Number` gives 1000; numbers are exact integers, so precision lost past 2^53 and the exponent rendering of values from 1e21 up are not modelled. Fractions cannot occur, since the parts are split at dots.
- `generateCommitHash`: SHA-256 is left as an uninterpreted function. `git.hashBlob`, isomorphic-git, the Turbo SDK and the ANT SDK are oracles.
- `downloadMedia`, `downloadBuffer` and the `readFile`/`writeFile` wrappers: network and file I/O.
- The recursive walk in `getAllFilesInDirectory`: the model receives the walk's result as a listing.
- `formatBytes`, `formatDuration`, `averageDuration` and progress percentages: floating-point presentation.
- Console output: `logDeploymentResult`, `showLogs`, `showStats`, the help text, `lib/logger.js`.
- `lib/discord.js` and `testDiscord`: a webhook call.
- `process.exit`: the command line's exits become outcomes.
- `listTemplates`: a directory listing.
- `clearLogs` and `archiveLogs`: file operations on the clock's timestamp.
- `getCurrentVersion`, `getAppInfo` and `getLastDeployCommit`: field reads of the loaded manifest or tracker, with nothing to state beyond the load.
- `getDeploymentInfo`: a field read of the loaded tracker.
- The dynamic deployer's own `getDeploymentHistory` wrapper: it only forwards to the git tracker's.
- Git lock acquisition: the lock file, the stale-PID check through `process.kill(pid, 0)` and the signal handlers are inter-process concurrency. Only the held/released flag is kept, and it is released on every exit of `createDeployCommit`.
- `validateGitState`, `getCommitMessage`, `isGitRepository`, `getRepositoryInfo` and `createDeployTag`: git queries and tags that the deployment outcome does not depend on.
- The single-file branch of `deployFile` (`deploy.js`, after the directory dispatch): only its routing is modelled, not the upload of one file.
- The full deployment's inner deploy: it is given as an outcome. Around it, the deletion of tracker and manifest and the restore of the backups are modelled.
- `rootArnsName` is not carried in the full deployment's record.
- Timestamps and durations (`Date`, `Date.now()`): parameters.
- The 120-second `Promise.race` timers: a `Timeout` outcome.
- CI detection: read from the given environment.
- Upload retries record their waits rather than sleeping.
- The player page's DOM, the media element and its events: only the track list, the current index, the playback position and the playing flag are modelled. `loadAlbum`'s two fetches are inputs: the manifest's `paths` and the parsed `album.json`.
- `scripts/laser-show.js`, `scripts/audio-laser-show.js` and the `dist/` copies of the scripts: drawing, audio analysis, or a duplicate of modelled navigation.
- `tools/File Renaming Tool/rename_tracks.py`: an older variant of `tools/file-renaming-tool/rename_tracks.py`, without track numbers. Only the newer tool is modelled.
- The Python prompts (`input()`), `os.rename` on disk and `os.makedirs`: answers are parameters, the renaming tool's directory is a `Folder` map, and a created directory is a flag. `os.rename` is modelled with POSIX overwrite semantics; Windows refuses to replace an existing target.
- Writing `album.json` (`json.dumps` and the one-line regex reformatting of entries): the model ends with the album value that would be written.
- `create_blank_album_json`, `create_album_structure` and the menu in `main` of `setup_album.py`: fixed templates and prompts around file creation.
- Exceptions that `load_album_json` does not catch (for example a decoding error): not modelled.
- SetupAlbum: the number prefix `^\d+[- _\.]+` of a file name matches ASCII digits only, where Python 3's `\d` also matches other Unicode decimal digits.
- Text.ToLower: lower-cases ASCII letters only, where JavaScript and Python also fold other scripts.
- Text.Trim: strips ASCII whitespace only, where `trim()` and `strip()` also strip Unicode spaces.
- JSON numbers are integers in the model. Fractional numbers in `album.json`, the tracker or the log are not modelled.
- Utils.BaseName: a path ending in `/` has the empty base name, where `path.basename` first strips trailing separators (`a/b/` gives `b`). Only file paths, which never end in `/`, are passed to it.
- Assoc: objects keep their keys in insertion order. `Object.entries`, `Object.assign` and the object spread list integer-like keys first, in ascending order; the model keeps the written order for the overrides, the custom tags and the manifest paths.
- RenameTracks.ReadNames: lines are split at `\n` only; Python's universal newlines also end a line at `\r` and `\r\n`.
- Utils.JoinPath: of `path.join`'s normalisation, only a trailing slash on the directory and a directory that is empty or `.` are modelled; `.` and `..` segments and repeated slashes inside the directory are kept as written.
- ManifestManager.Tracker: the tracker file is read as a typed record, so shapes that `JSON.parse` accepts but the record cannot hold are not modelled. These are: a file holding `null`, which throws at lib/dynamic-deploy.js:38 and lib/manifest-manager.js:204; a truthy `recentDeployments` that is not a list, on which `unshift` throws (lib/manifest-manager.js:272); a string `deploymentCount`, which `(x || 0) + 1` concatenates (lib/manifest-manager.js:268); extra top-level keys, which the in-place update writes back; and stored hashes that are neither strings nor `{oid}` objects, which the migration at lib/manifest-manager.js:289-294 passes through unchanged.
- DynamicDeploy.DynamicDeployer.UploadAndRebuild: the file uploads are one `FilesUploaded` step, appended once every file has been uploaded. A run that uploaded some files and then failed (lib/dynamic-deploy.js:137-170) has reached Arweave for those files but records no step. In test mode the upload and manifest steps are recorded although nothing leaves the machine.
- ManifestManager.Manifest: a manifest is a record of kind, version, index and paths. Other top-level keys of a stored manifest (such as `fallback`), which the spread at lib/dynamic-deploy.js:198 keeps in the rebuilt manifest, are dropped. A stored manifest that parses to `null` or has no `paths`, for which `Object.entries` throws at lib/dynamic-deploy.js:216 after the uploads, cannot be represented.
- ManifestManager.AppRelative: `path.relative` is modelled for files inside the app directory, the only files the engine passes it. Paths are relative to the repository root, which is the working directory.
