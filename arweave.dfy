/**
 * `lib/arweave.js`: uploads through the Turbo client with retries and exponential backoff,
 * the tags and shared-credit payers of each upload, the path-manifest document, and the
 * module-level Turbo client that is built once.
 *
 * The Turbo service is an oracle: `send(request, i)` is the outcome of the `i`-th attempt
 * (counting from 0) to upload `request`. Waits are recorded, not performed.
 */
module Arweave {
  import opened Wrappers
  import opened Json
  import opened Assoc
  import Utils
  import MM = ManifestManager

  // ---------- Retry ----------

  function Pow2(n: nat): (r: nat)
    ensures r >= 1
  {
    if n == 0 then 1 else 2 * Pow2(n - 1)
  }

  /** The wait after failed attempt `i` (counting from 0): 2^i seconds, in milliseconds. */
  function BackoffMs(i: nat): nat {
    Pow2(i) * 1000
  }

  /** The waits after attempts `from`, `from + 1`, ..., `from + n - 1`. */
  function Backoffs(from: nat, n: nat): (r: seq<nat>)
    ensures |r| == n
    decreases n
  {
    if n == 0 then [] else [BackoffMs(from)] + Backoffs(from + 1, n - 1)
  }

  /**
   * What a run of `uploadWithRetry` did: the outcome it returned or rethrew (`None`: the loop
   * never ran and the function returned `undefined`), the number of calls made and the waits.
   */
  datatype RetryRun = RetryRun(outcome: Option<Result<string>>, calls: nat, waits: seq<nat>)

  /** The run from attempt `i` on, attempt `j` having outcome `attempt(j)`. */
  function Retry(attempt: nat -> Result<string>, i: nat, maxRetries: int): RetryRun
    decreases maxRetries - i
  {
    if i >= maxRetries then RetryRun(None, 0, [])
    else
      match attempt(i)
      case Ok(id) => RetryRun(Some(Ok(id)), 1, [])
      case Err(e) =>
        if i == maxRetries - 1 then RetryRun(Some(Err(e)), 1, [])
        else
          var rest := Retry(attempt, i + 1, maxRetries);
          RetryRun(rest.outcome, rest.calls + 1, [BackoffMs(i)] + rest.waits)
  }

  /** A run that has already made `done` calls and waited `waits` before reaching `rest`. */
  function Resumed(done: nat, waits: seq<nat>, rest: RetryRun): RetryRun {
    RetryRun(rest.outcome, rest.calls + done, waits + rest.waits)
  }

  /** `uploadWithRetry(uploadFn, maxRetries)` */
  method UploadWithRetry(attempt: nat -> Result<string>, maxRetries: int) returns (run: RetryRun)
    ensures run == Retry(attempt, 0, maxRetries)
  {
    var i: nat := 0;
    var waits: seq<nat> := [];
    assert [] + Retry(attempt, 0, maxRetries).waits == Retry(attempt, 0, maxRetries).waits;
    while i < maxRetries
      invariant i == 0 || i < maxRetries
      invariant Retry(attempt, 0, maxRetries) == Resumed(i, waits, Retry(attempt, i, maxRetries))
      decreases maxRetries - i
    {
      var outcome := attempt(i);
      if outcome.Ok? {
        assert waits + [] == waits;
        return RetryRun(Some(outcome), i + 1, waits);
      }
      if i == maxRetries - 1 {
        assert waits + [] == waits;
        return RetryRun(Some(outcome), i + 1, waits);
      }
      RetryAfterFailure(attempt, i, maxRetries, waits);
      waits := waits + [BackoffMs(i)];
      i := i + 1;
    }
    return RetryRun(None, i, waits);
  }

  /** A failed attempt other than the last adds one call and one wait before the rest of the run. */
  lemma RetryAfterFailure(attempt: nat -> Result<string>, i: nat, maxRetries: int, waits: seq<nat>)
    requires i < maxRetries - 1 && attempt(i).Err?
    ensures Resumed(i, waits, Retry(attempt, i, maxRetries))
      == Resumed(i + 1, waits + [BackoffMs(i)], Retry(attempt, i + 1, maxRetries))
  {
    var rest := Retry(attempt, i + 1, maxRetries);
    assert waits + ([BackoffMs(i)] + rest.waits) == (waits + [BackoffMs(i)]) + rest.waits;
  }

  /**
   * The first successful attempt ends the run: its result is returned after `k + 1` calls,
   * having waited 2^j seconds after each failed attempt `j < k`.
   */
  lemma {:induction false} RetryReturnsFirstSuccess(attempt: nat -> Result<string>, i: nat, maxRetries: int, k: nat)
    requires i <= k < maxRetries && attempt(k).Ok?
    requires forall j :: i <= j < k ==> attempt(j).Err?
    ensures Retry(attempt, i, maxRetries) == RetryRun(Some(attempt(k)), k - i + 1, Backoffs(i, k - i))
    decreases k - i
  {
    if i < k {
      RetryReturnsFirstSuccess(attempt, i + 1, maxRetries, k);
    }
  }

  /** When every attempt fails, the last error is rethrown after `maxRetries` calls and `maxRetries - 1` waits. */
  lemma {:induction false} RetryRethrowsLast(attempt: nat -> Result<string>, i: nat, maxRetries: int)
    requires i < maxRetries
    requires forall j :: i <= j < maxRetries ==> attempt(j).Err?
    ensures Retry(attempt, i, maxRetries)
      == RetryRun(Some(attempt(maxRetries - 1)), maxRetries - i, Backoffs(i, maxRetries - i - 1))
    decreases maxRetries - i
  {
    if i < maxRetries - 1 {
      RetryRethrowsLast(attempt, i + 1, maxRetries);
    }
  }

  /** The upload is called at least once and at most `maxRetries` times, with one wait between consecutive calls. */
  lemma {:induction false} RetryCallsBounded(attempt: nat -> Result<string>, i: nat, maxRetries: int)
    ensures Retry(attempt, i, maxRetries).outcome.Some? <==> i < maxRetries
    ensures i < maxRetries ==> 1 <= Retry(attempt, i, maxRetries).calls <= maxRetries - i
    ensures i < maxRetries ==> |Retry(attempt, i, maxRetries).waits| == Retry(attempt, i, maxRetries).calls - 1
    decreases maxRetries - i
  {
    if i < maxRetries - 1 && attempt(i).Err? {
      RetryCallsBounded(attempt, i + 1, maxRetries);
    }
  }

  /** With the default of 3 attempts and all failing, the waits are 1 s and 2 s. */
  lemma DefaultBackoffs(attempt: nat -> Result<string>)
    requires forall j :: 0 <= j < MaxRetries ==> attempt(j).Err?
    ensures Retry(attempt, 0, MaxRetries).waits == [1000, 2000]
    ensures Retry(attempt, 0, MaxRetries).outcome == Some(attempt(2))
  {
    RetryRethrowsLast(attempt, 0, MaxRetries);
    assert Pow2(1) == 2;
  }

  /** The default number of attempts. */
  const MaxRetries := 3

  /** What the caller sees: the returned id, or the thrown error (`undefined.id` when no attempt was made). */
  function RetryResult(run: RetryRun): (r: Result<string>)
    ensures run.outcome.Some? ==> r == run.outcome.value
  {
    match run.outcome
    case Some(x) => x
    case None => Err(UndefinedIdError)
  }

  const UndefinedIdError := "Cannot read properties of undefined (reading 'id')"

  // ---------- Tags and payers ----------

  /** An upload tag `{ name, value }`. */
  datatype Tag = Tag(name: string, value: Json)

  /** The tags of a file upload: Content-Type, then App-Name, then the custom tags in their order. */
  function FileTags(contentType: string, appName: string, customTags: seq<Tag>): (r: seq<Tag>)
    ensures |r| == |customTags| + 2
    ensures r[0] == Tag("Content-Type", JStr(contentType)) && r[1] == Tag("App-Name", JStr(appName))
    ensures r[2..] == customTags
  {
    [Tag("Content-Type", JStr(contentType)), Tag("App-Name", JStr(appName))] + customTags
  }

  /** The tags of a manifest upload. */
  function ManifestTags(appName: string): seq<Tag> {
    [Tag("Content-Type", JStr(ManifestContentType)), Tag("Type", JStr("manifest")), Tag("App-Name", JStr(appName))]
  }

  const ManifestContentType := "application/x.arweave-manifest+json"

  /** One received credit approval. */
  datatype Approval = Approval(payingAddress: string)

  /** `turbo.getBalance()`: only the received approvals matter here (`undefined` is `None`). */
  datatype Balance = Balance(receivedApprovals: Option<seq<Approval>>)

  function PayingAddresses(approvals: seq<Approval>): (r: seq<string>)
    ensures |r| == |approvals|
    ensures forall i :: 0 <= i < |r| ==> r[i] == approvals[i].payingAddress
  {
    seq(|approvals|, i requires 0 <= i < |approvals| => approvals[i].payingAddress)
  }

  /**
   * `dataItemOpts.paidBy`: with shared credits on, the configured addresses when there are any,
   * else the paying addresses of the received approvals when there are any; otherwise unset.
   */
  function PaidBy(config: Utils.Config, approvals: Option<seq<Approval>>): (r: Option<seq<string>>)
    ensures !config.useSharedCredits ==> r.None?
    ensures config.useSharedCredits && config.sharedCreditsPaidBy.Some? && |config.sharedCreditsPaidBy.value| > 0
      ==> r == config.sharedCreditsPaidBy
    ensures (config.useSharedCredits
      && !(config.sharedCreditsPaidBy.Some? && |config.sharedCreditsPaidBy.value| > 0)
      && approvals.Some? && |approvals.value| > 0)
      ==> r == Some(PayingAddresses(approvals.value))
    ensures r.None? <==> (!config.useSharedCredits
      || (!(config.sharedCreditsPaidBy.Some? && |config.sharedCreditsPaidBy.value| > 0)
        && !(approvals.Some? && |approvals.value| > 0)))
  {
    if !config.useSharedCredits then None
    else if config.sharedCreditsPaidBy.Some? && |config.sharedCreditsPaidBy.value| > 0 then config.sharedCreditsPaidBy
    else if approvals.Some? && |approvals.value| > 0 then Some(PayingAddresses(approvals.value))
    else None
  }

  /** `dataItemOpts` */
  datatype DataItemOptions = DataItemOptions(tags: seq<Tag>, paidBy: Option<seq<string>>)

  // ---------- Manifest ----------

  /** The entries `{ id: txId }` of a path map, in its order. */
  function IdEntries(pathMap: seq<(string, string)>): (r: seq<(string, Json)>)
    ensures |r| == |pathMap|
  {
    seq(|pathMap|, i requires 0 <= i < |pathMap| => (pathMap[i].0, MM.IdEntry(JStr(pathMap[i].1))))
  }

  /** `createManifest(pathMap, indexPath)` */
  method CreateManifest(pathMap: seq<(string, string)>, indexPath: string) returns (m: MM.Manifest)
    ensures m == MM.Manifest(MM.ManifestKind, MM.ManifestVersion, Some(indexPath), Assign([], IdEntries(pathMap)))
  {
    var paths: seq<(string, Json)> := [];
    var i := 0;
    while i < |pathMap|
      invariant 0 <= i <= |pathMap|
      invariant paths == Assign([], IdEntries(pathMap[..i]))
    {
      assert IdEntries(pathMap[..i + 1]) == IdEntries(pathMap[..i]) + [(pathMap[i].0, MM.IdEntry(JStr(pathMap[i].1)))];
      AssignSnoc([], IdEntries(pathMap[..i]), (pathMap[i].0, MM.IdEntry(JStr(pathMap[i].1))));
      paths := SetKey(paths, pathMap[i].0, MM.IdEntry(JStr(pathMap[i].1)));
      i := i + 1;
    }
    assert pathMap[..i] == pathMap;
    return MM.Manifest(MM.ManifestKind, MM.ManifestVersion, Some(indexPath), paths);
  }

  /** The manifest's paths have exactly the keys of the path map, each holding `{ id: <its value> }`. */
  lemma ManifestPaths(pathMap: seq<(string, string)>, p: string)
    ensures p in Keys(Assign([], IdEntries(pathMap))) <==> p in Keys(pathMap)
    ensures p in Keys(pathMap) ==>
      Lookup(Assign([], IdEntries(pathMap)), p) == Some(MM.IdEntry(JStr(LastValue(pathMap, p))))
  {
    var entries := IdEntries(pathMap);
    LookupAssign([], entries, p);
    assert Keys<string, Json>([]) == {};
    SameKeys(pathMap, entries);
    if p in Keys(pathMap) {
      LastIdEntry(pathMap, p);
    }
  }

  lemma {:induction false} SameKeys(pathMap: seq<(string, string)>, entries: seq<(string, Json)>)
    requires entries == IdEntries(pathMap)
    ensures Keys(entries) == Keys(pathMap)
    decreases |pathMap|
  {
    if |pathMap| > 0 {
      var n := |pathMap| - 1;
      assert IdEntries(pathMap[..n]) == entries[..n];
      SameKeys(pathMap[..n], entries[..n]);
      KeysSnoc(pathMap);
      KeysSnoc(entries);
    }
  }

  lemma {:induction false} LastIdEntry(pathMap: seq<(string, string)>, p: string)
    requires p in Keys(pathMap)
    ensures p in Keys(IdEntries(pathMap))
    ensures LastValue(IdEntries(pathMap), p) == MM.IdEntry(JStr(LastValue(pathMap, p)))
    decreases |pathMap|
  {
    var entries := IdEntries(pathMap);
    SameKeys(pathMap, entries);
    var n := |pathMap| - 1;
    if pathMap[n].0 != p {
      KeysSnoc(pathMap);
      assert IdEntries(pathMap[..n]) == entries[..n];
      LastIdEntry(pathMap[..n], p);
    }
  }

  // ---------- The Turbo client and uploads ----------

  /** A wallet key (JWK), as loaded. */
  type Jwk = string

  /** The error `loadWallet` throws when neither source gives a key. */
  const NoWalletError := "No wallet configuration found. Set ARWEAVE_JWK_JSON or provide a valid ARWEAVE_WALLET_PATH"

  /**
   * `loadWallet()`: the configuration's own failure first; then the key in `ARWEAVE_JWK_JSON`;
   * then the wallet file at `walletPath` (`walletFile` is its key, `None` when the file cannot
   * be read or parsed); otherwise the missing-wallet error.
   */
  function LoadWallet(config: Result<Utils.Config>, walletFile: Option<Jwk>): (r: Result<Jwk>)
    ensures config.Err? ==> r == Err(config.error)
    ensures config.Ok? && config.value.walletJson.Some? ==> r == Ok(config.value.walletJson.value)
    ensures r.Ok? ==> (config.Ok? && (config.value.walletJson == Some(r.value)
      || (config.value.walletJson.None? && config.value.walletPath != "" && walletFile == Some(r.value))))
    ensures config.Ok? && r.Err? ==> r == Err(NoWalletError)
  {
    if config.Err? then Err(config.error)
    else if config.value.walletJson.Some? then Ok(config.value.walletJson.value)
    else if config.value.walletPath != "" && walletFile.Some? then Ok(walletFile.value)
    else Err(NoWalletError)
  }

  /** With a configuration loaded from the environment, a missing `ANT_PROCESS_ID` is what loading the wallet reports. */
  lemma LoadWalletNeedsAntProcessId(env: Utils.Env, walletFile: Option<Jwk>)
    requires Utils.EnvValue(env, "ANT_PROCESS_ID").None?
    ensures LoadWallet(Utils.LoadConfig(env), walletFile) == Err(Utils.AntProcessIdError)
  {
  }

  /** A key in the environment is used whatever the wallet file holds. */
  lemma EnvironmentKeyWins(env: Utils.Env, walletFile: Option<Jwk>)
    requires Utils.LoadConfig(env).Ok? && Utils.EnvValue(env, "ARWEAVE_JWK_JSON").Some?
    ensures LoadWallet(Utils.LoadConfig(env), walletFile) == Ok(env["ARWEAVE_JWK_JSON"])
  {
  }

  /** A Turbo client, authenticated by the signer built from a wallet key. */
  datatype TurboClient = TurboClient(signer: Jwk)

  /** What is uploaded: a file's bytes, or a manifest serialised as JSON. */
  datatype Payload = FileData(bytes: seq<bv8>) | ManifestData(manifest: MM.Manifest)

  /** One `turbo.uploadFile` request. */
  datatype Request = Request(client: TurboClient, payload: Payload, options: DataItemOptions)

  /**
   * What the environment answers: `loadWallet()`, `loadConfig()`, `turbo.getBalance()`, and
   * the outcome of each upload attempt.
   */
  datatype Turbo = Turbo(
    wallet: Result<Jwk>,
    config: Result<Utils.Config>,
    balance: Result<Balance>,
    send: (Request, nat) -> Result<string>)

  /** The attempts `uploadWithRetry` makes for one request. */
  function Attempts(send: (Request, nat) -> Result<string>, request: Request): nat -> Result<string> {
    (i: nat) => send(request, i)
  }

  /** The key used: the one passed in when truthy, else the loaded wallet. */
  function Signer(jwk: Jwk, wallet: Result<Jwk>): (r: Result<Jwk>)
    ensures jwk != "" ==> r == Ok(jwk)
    ensures jwk == "" ==> r == wallet
  {
    if jwk != "" then Ok(jwk) else wallet
  }

  /** `appName || config.appName` */
  function AppNameOr(appName: string, config: Utils.Config): (r: string)
    ensures appName != "" ==> r == appName
    ensures appName == "" ==> r == config.appName
  {
    if appName != "" then appName else config.appName
  }

  /** The client `getTurboClient` returns when the module already holds `held`. */
  function Installed(held: Option<TurboClient>, jwk: Jwk): (c: TurboClient)
    ensures held.Some? ==> c == held.value
    ensures held.None? ==> c == TurboClient(jwk)
  {
    if held.Some? then held.value else TurboClient(jwk)
  }

  /** Once a client is held, every later key is ignored. */
  lemma InstalledIsSticky(held: Option<TurboClient>, first: Jwk, later: Jwk)
    ensures Installed(Some(Installed(held, first)), later) == Installed(held, first)
  {
  }

  /** The request a file upload sends. */
  function FileRequest(client: TurboClient, data: seq<bv8>, contentType: string, appName: string,
                       customTags: seq<Tag>, config: Utils.Config, balance: Balance): Request {
    Request(client, FileData(data),
      DataItemOptions(FileTags(contentType, AppNameOr(appName, config), customTags), PaidBy(config, balance.receivedApprovals)))
  }

  /** The approvals the manifest upload consults: read only when no payers are configured; a failed read counts as none. */
  function ManifestApprovals(config: Utils.Config, balance: Result<Balance>): Option<seq<Approval>> {
    if config.useSharedCredits && !(config.sharedCreditsPaidBy.Some? && |config.sharedCreditsPaidBy.value| > 0)
       && balance.Ok?
    then balance.value.receivedApprovals
    else None
  }

  /** A failed balance read never fails a manifest upload: it only leaves `paidBy` to the configured payers. */
  lemma ManifestBalanceFailureIgnored(config: Utils.Config, e: string)
    ensures PaidBy(config, ManifestApprovals(config, Err(e))) == PaidBy(config, None)
  {
  }

  /** The module-level state of `lib/arweave.js`: the Turbo client, built on first use. */
  class TurboModule {
    var turboClient: Option<TurboClient>

    constructor()
      ensures turboClient == None
    {
      turboClient := None;
    }

    /** `getTurboClient(jwk)`: builds the client on the first call; later calls return it whatever key they pass. */
    method GetTurboClient(jwk: Jwk) returns (c: TurboClient)
      modifies this
      ensures c == Installed(old(turboClient), jwk)
      ensures turboClient == Some(c)
    {
      if turboClient.None? {
        turboClient := Some(TurboClient(jwk));
      }
      c := turboClient.value;
    }

    /**
     * `uploadToArweave`: loads the key and the configuration, gets the client, reads the
     * balance, then uploads with retries; every failure is rethrown.
     */
    method UploadToArweave(data: seq<bv8>, contentType: string, appName: string, jwk: Jwk,
                           customTags: seq<Tag>, t: Turbo) returns (r: Result<string>)
      modifies this
      ensures Signer(jwk, t.wallet).Err? ==> r == Err(t.wallet.error) && turboClient == old(turboClient)
      ensures Signer(jwk, t.wallet).Ok? && t.config.Err? ==> r == Err(t.config.error) && turboClient == old(turboClient)
      ensures Signer(jwk, t.wallet).Ok? && t.config.Ok? ==>
        turboClient == Some(Installed(old(turboClient), Signer(jwk, t.wallet).value))
      ensures Signer(jwk, t.wallet).Ok? && t.config.Ok? && t.balance.Err? ==> r == Err(t.balance.error)
      ensures Signer(jwk, t.wallet).Ok? && t.config.Ok? && t.balance.Ok? ==>
        r == RetryResult(Retry(Attempts(t.send, FileRequest(turboClient.value, data, contentType, appName,
          customTags, t.config.value, t.balance.value)), 0, MaxRetries))
    {
      var key := Signer(jwk, t.wallet);
      if key.Err? {
        return Err(key.error);
      }
      if t.config.Err? {
        return Err(t.config.error);
      }
      var turbo := GetTurboClient(key.value);
      if t.balance.Err? {
        return Err(t.balance.error);
      }
      var request := FileRequest(turbo, data, contentType, appName, customTags, t.config.value, t.balance.value);
      var run := UploadWithRetry(Attempts(t.send, request), MaxRetries);
      r := RetryResult(run);
    }

    /**
     * `uploadManifest`: builds the manifest, loads the key and the configuration, gets the
     * client, consults the balance only when shared credits need it, then uploads with retries.
     */
    method UploadManifest(pathMap: seq<(string, string)>, indexPath: string, appName: string, jwk: Jwk, t: Turbo)
      returns (r: Result<string>)
      modifies this
      ensures Signer(jwk, t.wallet).Err? ==> r == Err(t.wallet.error) && turboClient == old(turboClient)
      ensures Signer(jwk, t.wallet).Ok? && t.config.Err? ==> r == Err(t.config.error) && turboClient == old(turboClient)
      ensures Signer(jwk, t.wallet).Ok? && t.config.Ok? ==>
        var client := Installed(old(turboClient), Signer(jwk, t.wallet).value);
        var manifest := MM.Manifest(MM.ManifestKind, MM.ManifestVersion, Some(indexPath), Assign([], IdEntries(pathMap)));
        var config := t.config.value;
        var options := DataItemOptions(ManifestTags(AppNameOr(appName, config)), PaidBy(config, ManifestApprovals(config, t.balance)));
        && turboClient == Some(client)
        && r == RetryResult(Retry(Attempts(t.send, Request(client, ManifestData(manifest), options)), 0, MaxRetries))
    {
      var manifest := CreateManifest(pathMap, indexPath);
      var key := Signer(jwk, t.wallet);
      if key.Err? {
        return Err(key.error);
      }
      if t.config.Err? {
        return Err(t.config.error);
      }
      var config := t.config.value;
      var turbo := GetTurboClient(key.value);
      var approvals := ManifestApprovals(config, t.balance);
      var options := DataItemOptions(ManifestTags(AppNameOr(appName, config)), PaidBy(config, approvals));
      var run := UploadWithRetry(Attempts(t.send, Request(turbo, ManifestData(manifest), options)), MaxRetries);
      r := RetryResult(run);
    }
  }
}
