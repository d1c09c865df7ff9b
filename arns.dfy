/**
 * `lib/arns.js`: each call to the ANT process is one service outcome (an answer, an error
 * text, or the 120-second race timer's rejection) plus, for timeouts, a second read of the
 * records; each function classifies those into a result record.
 */
module Arns {
  import opened Wrappers
  import opened Text

  /** A record of the ANT: the transaction it points to. */
  datatype ArnsRecord = ArnsRecord(id: string)

  /** The outcome of a write to the ANT: the SDK's answer with its id, or a rejection with its message. */
  datatype WriteOutcome = Answered(id: string) | Rejected(message: string)

  /** The outcome of `ant.getRecords()`: the records by name (`null` reads as no records), or an error. */
  datatype Snapshot = Records(records: map<string, ArnsRecord>) | ReadFailed(message: string)

  /** The result records: `{success: true, recordId}` or `{success: false, error, message}`. */
  datatype SetResult = Success(recordId: string) | Failure(error: string, message: string)

  /** `records && records[name]`: the snapshot holds a record under `name`. */
  predicate Holds(s: Snapshot, name: string) {
    s.Records? && name in s.records
  }

  /** The verification after a timeout: success with the re-read record, else the `timeout` failure. */
  function VerifyAfterTimeout(name: string, reread: Snapshot, message: string): (r: SetResult)
    ensures r.Success? <==> Holds(reread, name)
    ensures r.Success? ==> r.recordId == reread.records[name].id
    ensures r.Failure? ==> r == Failure("timeout", message)
  {
    if Holds(reread, name) then Success(reread.records[name].id) else Failure("timeout", message)
  }

  /** The messages of the `timeout` failures. */
  const AssignmentTimeout := "Assignment failed after timeout"
  const RootTimeout := "Root record assignment failed after timeout"

  predicate TakenMessage(m: string) {
    Contains(m, "already exists") || Contains(m, "taken")
  }

  predicate TimeoutMessage(m: string) {
    Contains(m, "timeout")
  }

  /** `createUndernameRecord` */
  function CreateUndernameRecord(undername: string, write: WriteOutcome, reread: Snapshot): (r: SetResult)
    ensures write.Answered? ==> r == Success(write.id)
    ensures write.Rejected? && TakenMessage(write.message) ==> r == Failure("undername_taken", write.message)
    ensures write.Rejected? && !TakenMessage(write.message) && TimeoutMessage(write.message) ==>
      (if Holds(reread, undername) then r == Success(reread.records[undername].id)
       else r == Failure("timeout", AssignmentTimeout))
    ensures write.Rejected? && !TakenMessage(write.message) && !TimeoutMessage(write.message) ==>
      r == Failure("creation_failed", write.message)
    ensures r.Failure? ==> r.error == "undername_taken" || r.error == "timeout" || r.error == "creation_failed"
  {
    match write
    case Answered(id) => Success(id)
    case Rejected(m) =>
      if TakenMessage(m) then Failure("undername_taken", m)
      else if TimeoutMessage(m) then VerifyAfterTimeout(undername, reread, AssignmentTimeout)
      else Failure("creation_failed", m)
  }

  /** `updateUndernameRecord`: the same timeout rule, no "taken" branch. */
  function UpdateUndernameRecord(undername: string, write: WriteOutcome, reread: Snapshot): (r: SetResult)
    ensures write.Answered? ==> r == Success(write.id)
    ensures write.Rejected? && TimeoutMessage(write.message) ==>
      (if Holds(reread, undername) then r == Success(reread.records[undername].id)
       else r == Failure("timeout", AssignmentTimeout))
    ensures write.Rejected? && !TimeoutMessage(write.message) ==> r == Failure("update_failed", write.message)
    ensures r.Failure? ==> r.error == "timeout" || r.error == "update_failed"
  {
    match write
    case Answered(id) => Success(id)
    case Rejected(m) =>
      if TimeoutMessage(m) then VerifyAfterTimeout(undername, reread, AssignmentTimeout)
      else Failure("update_failed", m)
  }

  /** The name of the root record. */
  const RootName := "@"

  /** `setRootRecord`: writes `@` and, after a timeout, verifies `@`. */
  function SetRootRecord(write: WriteOutcome, reread: Snapshot): (r: SetResult)
    ensures write.Answered? ==> r == Success(write.id)
    ensures write.Rejected? && TimeoutMessage(write.message) ==>
      (if Holds(reread, RootName) then r == Success(reread.records[RootName].id)
       else r == Failure("timeout", RootTimeout))
    ensures write.Rejected? && !TimeoutMessage(write.message) ==> r == Failure("root_record_failed", write.message)
    ensures r.Failure? ==> r.error == "timeout" || r.error == "root_record_failed"
  {
    match write
    case Answered(id) => Success(id)
    case Rejected(m) =>
      if TimeoutMessage(m) then VerifyAfterTimeout(RootName, reread, RootTimeout)
      else Failure("root_record_failed", m)
  }

  /** `getUndernameRecord`: the record, or `null` when it is absent or the read fails. */
  function GetUndernameRecord(undername: string, read: Snapshot): (r: Option<ArnsRecord>)
    ensures r.Some? <==> Holds(read, undername)
    ensures r.Some? ==> r.value == read.records[undername]
  {
    if Holds(read, undername) then Some(read.records[undername]) else None
  }

  /** `checkUndernameAvailability`'s answer. */
  datatype Availability = Availability(available: bool, existing: Option<ArnsRecord>, error: Option<string>)

  /** `checkUndernameAvailability`: unavailable only when a read succeeds and shows the name; fails open on errors. */
  function CheckUndernameAvailability(undername: string, read: Snapshot): (r: Availability)
    ensures !r.available <==> Holds(read, undername)
    ensures r.existing.Some? <==> !r.available
    ensures r.error.Some? <==> read.ReadFailed?
  {
    match read
    case ReadFailed(m) => Availability(true, None, Some(m))
    case Records(records) =>
      if undername in records then Availability(false, Some(records[undername]), None)
      else Availability(true, None, None)
  }

  /** The test for "already exists" or "taken" comes first: a taken-name error that also mentions a timeout is not verified. */
  lemma TakenWinsOverTimeout(undername: string, m: string, reread: Snapshot)
    requires TakenMessage(m) && TimeoutMessage(m)
    ensures CreateUndernameRecord(undername, Rejected(m), reread) == Failure("undername_taken", m)
  {
  }

  /**
   * A rejection whose text mentions a timeout (the race timers reject with "ArNS assignment timeout
   * after 120 seconds" and "ArNS root record timeout after 120 seconds") takes the verification path
   * for updates and for the root record.
   */
  lemma TimeoutTextIsVerified(undername: string, before: string, after: string, reread: Snapshot)
    ensures UpdateUndernameRecord(undername, Rejected(before + "timeout" + after), reread)
      == VerifyAfterTimeout(undername, reread, AssignmentTimeout)
    ensures SetRootRecord(Rejected(before + "timeout" + after), reread)
      == VerifyAfterTimeout(RootName, reread, RootTimeout)
  {
    ContainsInContext(before, "timeout", after);
  }
}
