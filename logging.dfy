/**
 * `lib/logging.js`: the JSON deployment log `./logs/deployments.json`, a rolling window of the
 * ten most recent entries, and the statistics read back from it.
 *
 * The log file is `Absent`, `Unparsable` (an empty file included) or a parsed JSON value;
 * timestamps are parameters.
 */
module Logging {
  import opened Wrappers
  import opened Json
  import opened Assoc
  import MM = ManifestManager

  const MaxLogEntries := 10

  /** The log as read: a missing or unparsable file reads as the empty list. */
  function ReadLogs(file: MM.Stored<Json>): (r: Json)
    ensures !file.Parsed? ==> r == JArr([])
    ensures file.Parsed? ==> r == file.value
  {
    if file.Parsed? then file.value else JArr([])
  }

  /** `{ timestamp, ...deploymentData }`: the timestamp first, then the data's fields, a data field of the same name winning. */
  function LogEntry(timestamp: string, data: seq<(string, Json)>): Json {
    JObj(Assign([("timestamp", JStr(timestamp))], data))
  }

  /** The entry holds the timestamp and every field of the data, each with its last value there. */
  lemma LogEntryFields(timestamp: string, data: seq<(string, Json)>, k: string)
    ensures Keys(LogEntry(timestamp, data).fields) == {"timestamp"} + Keys(data)
    ensures Lookup(LogEntry(timestamp, data).fields, k)
      == if k in Keys(data) then Some(LastValue(data, k))
         else if k == "timestamp" then Some(JStr(timestamp))
         else None
  {
    LookupAssign([("timestamp", JStr(timestamp))], data, k);
    assert Keys([("timestamp", JStr(timestamp))]) == {"timestamp"};
  }

  /** The last `n` items (all of them when there are fewer): `xs.slice(-n)` for `n > 0`. */
  function Newest<T>(xs: seq<T>, n: nat): (r: seq<T>)
    ensures |r| == if |xs| > n then n else |xs|
  {
    if |xs| > n then xs[|xs| - n..] else xs
  }

  /** `logs.push(entry)`, then the slice to the last ten when the list grew longer. */
  function Rolled(logs: seq<Json>, entry: Json): (r: seq<Json>)
    ensures |r| <= MaxLogEntries && |r| > 0 && r[|r| - 1] == entry
  {
    Newest(logs + [entry], MaxLogEntries)
  }

  /** Keeping the newest `n`, then appending and keeping the newest `n`, is appending then keeping the newest `n`. */
  lemma NewestSnoc<T>(xs: seq<T>, x: T, n: nat)
    requires n > 0
    ensures Newest(Newest(xs, n) + [x], n) == Newest(xs + [x], n)
  {
    if |xs| > n {
      assert Newest(xs, n) + [x] == (xs + [x])[|xs| - n..];
      assert (xs + [x])[|xs| - n..][1..] == (xs + [x])[|xs| + 1 - n..];
    }
  }

  /** The log after logging each entry of `entries` in turn. */
  function LoggedAll(logs: seq<Json>, entries: seq<Json>): seq<Json>
    decreases |entries|
  {
    if |entries| == 0 then logs
    else Rolled(LoggedAll(logs, entries[..|entries| - 1]), entries[|entries| - 1])
  }

  /** Rolling window: after one or more entries are logged, the log holds the newest ten of everything, in order. */
  lemma {:induction false} LoggedAllKeepsNewest(logs: seq<Json>, entries: seq<Json>)
    requires |entries| > 0
    ensures LoggedAll(logs, entries) == Newest(logs + entries, MaxLogEntries)
    decreases |entries|
  {
    var init := entries[..|entries| - 1];
    var last := entries[|entries| - 1];
    assert logs + entries == (logs + init) + [last];
    if |init| == 0 {
      assert logs + init == logs;
    } else {
      LoggedAllKeepsNewest(logs, init);
      NewestSnoc(logs + init, last, MaxLogEntries);
    }
  }

  /** The log file after an entry is logged: the rolled list, or the file untouched when it does not hold a list. */
  function Appended(file: MM.Stored<Json>, data: seq<(string, Json)>, timestamp: string): (r: MM.Stored<Json>)
    ensures ReadLogs(file).JArr? ==> r == MM.Parsed(JArr(Rolled(ReadLogs(file).items, LogEntry(timestamp, data))))
    ensures !ReadLogs(file).JArr? ==> r == file
  {
    var logs := ReadLogs(file);
    if logs.JArr? then MM.Parsed(JArr(Rolled(logs.items, LogEntry(timestamp, data)))) else file
  }

  /** The error `logs.push` throws when the file holds neither a list nor `null`. */
  const NotAListError := "logs.push is not a function"

  /** The error reading `push` off a file that holds `null` throws. */
  const NullLogError := "Cannot read properties of null (reading 'push')"

  /** The log file on disk. */
  class DeploymentLog {
    var file: MM.Stored<Json>

    constructor(file: MM.Stored<Json>)
      ensures this.file == file
    {
      this.file := file;
    }

    /**
     * `logToJSON(deploymentData)`: reads the log, appends the new entry, keeps the last ten and
     * writes the list back; returns the entry.
     */
    method LogToJSON(data: seq<(string, Json)>, timestamp: string) returns (r: Result<Json>)
      modifies this
      ensures file == Appended(old(file), data, timestamp)
      ensures ReadLogs(old(file)).JArr? ==> r == Ok(LogEntry(timestamp, data))
      ensures ReadLogs(old(file)) == JNull ==> r == Err(NullLogError)
      ensures !ReadLogs(old(file)).JArr? && ReadLogs(old(file)) != JNull ==> r == Err(NotAListError)
    {
      var logs := ReadLogs(file);
      if logs == JNull {
        return Err(NullLogError);
      }
      if !logs.JArr? {
        return Err(NotAListError);
      }
      var entry := LogEntry(timestamp, data);
      var items := logs.items + [entry];
      if |items| > MaxLogEntries {
        items := items[|items| - MaxLogEntries..];
      }
      file := MM.Parsed(JArr(items));
      return Ok(entry);
    }

    /** `logDeployment`: logs the entry; a failure is reported and swallowed. */
    method LogDeployment(data: seq<(string, Json)>, timestamp: string)
      modifies this
      ensures file == Appended(old(file), data, timestamp)
    {
      var _ := LogToJSON(data, timestamp);
    }
  }

  // ---------- Statistics ----------

  /** `logs.filter(log => log[key]).length` */
  function CountSet(logs: seq<Json>, key: string): (n: nat)
    ensures n <= |logs|
  {
    if |logs| == 0 then 0
    else CountSet(logs[..|logs| - 1], key) + (if FieldSet(logs[|logs| - 1], key) then 1 else 0)
  }

  /** `logs.filter(log => !log[key]).length` */
  function CountUnset(logs: seq<Json>, key: string): (n: nat)
    ensures n <= |logs|
  {
    if |logs| == 0 then 0
    else CountUnset(logs[..|logs| - 1], key) + (if FieldSet(logs[|logs| - 1], key) then 0 else 1)
  }

  /** Every entry is counted exactly once, as set or as unset. */
  lemma {:induction false} SetPlusUnset(logs: seq<Json>, key: string)
    ensures CountSet(logs, key) + CountUnset(logs, key) == |logs|
    decreases |logs|
  {
    if |logs| > 0 {
      SetPlusUnset(logs[..|logs| - 1], key);
    }
  }

  /** Entries without the flag, or with a falsy one, do not count. */
  lemma {:induction false} CountSetPositive(logs: seq<Json>, key: string)
    ensures CountSet(logs, key) > 0 <==> exists i :: 0 <= i < |logs| && FieldSet(logs[i], key)
    decreases |logs|
  {
    if |logs| > 0 {
      var init := logs[..|logs| - 1];
      CountSetPositive(init, key);
      if exists i :: 0 <= i < |init| && FieldSet(init[i], key) {
        var i :| 0 <= i < |init| && FieldSet(init[i], key);
        assert logs[i] == init[i];
      }
      if exists i :: 0 <= i < |logs| && FieldSet(logs[i], key) {
        var i :| 0 <= i < |logs| && FieldSet(logs[i], key);
        if i < |init| {
          assert init[i] == logs[i];
        }
      }
    }
  }

  /**
   * `sum + (log.fileSize || 0)` while the sum is a number: a number adds itself, `true` adds 1,
   * a falsy value adds 0; any other value turns the sum into a string (`None`).
   */
  function AddFileSize(sum: Option<int>, log: Json): Option<int> {
    if sum.None? then None
    else
      match Field(log, "fileSize")
      case None => sum
      case Some(v) =>
        if !Truthy(v) then sum
        else if v.JNum? then Some(sum.value + v.n)
        else if v.JBool? then Some(sum.value + 1)
        else None
  }

  /** `logs.reduce((sum, log) => sum + (log.fileSize || 0), 0)` */
  function TotalFileSize(logs: seq<Json>): Option<int> {
    if |logs| == 0 then Some(0) else AddFileSize(TotalFileSize(logs[..|logs| - 1]), logs[|logs| - 1])
  }

  /** Sizes that are all numbers (or absent) add up to their sum. */
  lemma {:induction false} NumericFileSizes(logs: seq<Json>)
    requires forall i :: 0 <= i < |logs| ==> Field(logs[i], "fileSize").None? || Field(logs[i], "fileSize").value.JNum?
    ensures TotalFileSize(logs) == Some(SizeSum(logs))
    decreases |logs|
  {
    if |logs| > 0 {
      NumericFileSizes(logs[..|logs| - 1]);
    }
  }

  /** The sum of the numeric `fileSize` fields. */
  function SizeSum(logs: seq<Json>): int {
    if |logs| == 0 then 0
    else
      var f := Field(logs[|logs| - 1], "fileSize");
      SizeSum(logs[..|logs| - 1]) + (if f.Some? && f.value.JNum? then f.value.n else 0)
  }

  /** `getLogStats`' record; `lastDeployment` is `None` for `null` (empty log) or a missing timestamp. */
  datatype LogStats = LogStats(
    totalDeployments: nat,
    successfulDeployments: nat,
    failedDeployments: nat,
    dryRuns: nat,
    alreadyDeployed: nat,
    totalFileSize: Option<int>,
    lastDeployment: Option<Json>)

  /** `log[key]` throws for a `null` entry. */
  predicate HasNullEntry(logs: seq<Json>) {
    exists i :: 0 <= i < |logs| && logs[i] == JNull
  }

  /**
   * `getLogStats`: the counts over the log as read; `None` (the function's `null`) when the log
   * is not a list or holds a `null` entry, where reading a field throws.
   */
  function GetLogStats(file: MM.Stored<Json>): (r: Option<LogStats>)
    ensures r.Some? <==> ReadLogs(file).JArr? && !HasNullEntry(ReadLogs(file).items)
    ensures r.Some? ==> var logs := ReadLogs(file).items;
      && r.value.totalDeployments == |logs|
      && r.value.successfulDeployments == CountSet(logs, "success")
      && r.value.failedDeployments == CountUnset(logs, "success")
      && r.value.dryRuns == CountSet(logs, "dryRun")
      && r.value.alreadyDeployed == CountSet(logs, "alreadyDeployed")
      && r.value.totalFileSize == TotalFileSize(logs)
      && r.value.lastDeployment == (if |logs| > 0 then Field(logs[|logs| - 1], "timestamp") else None)
  {
    var logs := ReadLogs(file);
    if !logs.JArr? || HasNullEntry(logs.items) then None
    else
      var items := logs.items;
      Some(LogStats(
        |items|,
        CountSet(items, "success"),
        CountUnset(items, "success"),
        CountSet(items, "dryRun"),
        CountSet(items, "alreadyDeployed"),
        TotalFileSize(items),
        if |items| > 0 then Field(items[|items| - 1], "timestamp") else None))
  }

  /** The statistics always split the deployments into successful and failed ones. */
  lemma StatsPartition(file: MM.Stored<Json>)
    requires GetLogStats(file).Some?
    ensures GetLogStats(file).value.successfulDeployments + GetLogStats(file).value.failedDeployments
      == GetLogStats(file).value.totalDeployments
  {
    SetPlusUnset(ReadLogs(file).items, "success");
  }

  /** A missing or unparsable log has all-zero statistics and no last deployment. */
  lemma EmptyStats(file: MM.Stored<Json>)
    requires !file.Parsed?
    ensures GetLogStats(file) == Some(LogStats(0, 0, 0, 0, 0, Some(0), None))
  {
  }

  /** Right after an entry is logged, the last deployment is that entry's timestamp (when the data does not override it). */
  lemma LastDeploymentAfterLogging(logs: seq<Json>, timestamp: string, data: seq<(string, Json)>)
    requires "timestamp" !in Keys(data)
    requires !HasNullEntry(logs)
    ensures GetLogStats(MM.Parsed(JArr(Rolled(logs, LogEntry(timestamp, data))))).Some?
    ensures GetLogStats(MM.Parsed(JArr(Rolled(logs, LogEntry(timestamp, data))))).value.lastDeployment
      == Some(JStr(timestamp))
  {
    var entry := LogEntry(timestamp, data);
    var rolled := Rolled(logs, entry);
    LogEntryFields(timestamp, data, "timestamp");
    assert rolled == Newest(logs + [entry], MaxLogEntries);
  }
}
