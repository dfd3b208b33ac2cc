/**
 * The durable record of one model call, and what its history of writes says.
 * A journal key belongs to one execution and one operation.
 */
module ModelJournal {
  import opened Wrappers
  import opened Classification
  import Exec = ExecutionSecurity
  import Scanners = ScannerRegistry

  datatype Stage = Input | Output
  datatype Usage = Usage(inputTokens: nat, outputTokens: nat, cachedInputTokens: nat, cacheWriteTokens: nat)
  datatype ModelResult = ModelResult(content: Option<string>, toolCalls: seq<string>, usage: Usage)

  /** Stands for the SHA-256 of the canonical request, taken to be injective. */
  datatype RequestDigest = RequestDigest(provider: string, model: string, input: string)

  datatype Call = Call(digest: RequestDigest, provider: string, registration: nat, model: string, capacity: Capacity)

  datatype FailureCode = Aborted | ProviderFailed | OutputTooLarge | ProviderUnavailable | StreamMismatch

  datatype Record =
    | Prepared(call: Call)
    | Dispatched(call: Call, level: Level, revision: nat)
    | OutputPending(call: Call, level: Level, revision: nat, usage: Usage)
    | Released(call: Call, level: Level, revision: nat, result: ModelResult)
    | Denied(call: Call, stage: Stage)
    | Failed(call: Call, code: FailureCode)

  /** An authorisation that was given: of a stage, at a revision and its level, of a report, and whether a person was asked and agreed. */
  datatype Approval = Approval(stage: Stage, revision: nat, level: Level, report: Scanners.Report, agreed: bool)

  /**
   * One write, with the execution as it was at that moment, the approvals of the call
   * that wrote it, and whether its provider was found in service just before.
   */
  datatype Entry = Entry(record: Record, security: Exec.Context, approvals: set<Approval>, served: bool)

  predicate Blocks(report: Scanners.Report) {
    exists f <- report.findings :: f.action == Scanners.Block
  }

  predicate Flags(report: Scanners.Report) {
    exists f <- report.findings :: f.action == Scanners.Review
  }

  /** No scanner blocks it, and a person has agreed to an input that one would have reviewed. */
  predicate Cleared(a: Approval) {
    !Blocks(a.report) && (a.stage.Input? && Flags(a.report) ==> a.agreed)
  }

  ghost predicate ApprovedFor(approvals: set<Approval>, stage: Stage, revision: nat, level: Level) {
    exists a <- approvals :: a.stage == stage && a.revision == revision && a.level == level && Cleared(a)
  }

  // ----- The phases

  function Phase(r: Option<Record>): nat {
    match r
    case None => 0
    case Some(Prepared(_)) => 1
    case Some(Dispatched(_, _, _)) => 2
    case Some(OutputPending(_, _, _, _)) => 3
    case Some(Released(_, _, _, _)) => 4
    case Some(Denied(_, _)) => 5
    case Some(Failed(_, _)) => 5
  }

  predicate Edge(before: Option<Record>, after: Record) {
    && (before.Some? ==>
          && after.call.digest == before.value.call.digest
          && (before.value.Prepared? || after.call.registration == before.value.call.registration))
    && match after
       case Prepared(_) => before.None? || before.value.Prepared?
       case Dispatched(_, _, _) =>
         before.Some? && before.value.Prepared? && after.call.registration == before.value.call.registration
       case OutputPending(_, level, revision, _) =>
         before.Some? && before.value.Dispatched? && (before.value.level, before.value.revision) == (level, revision)
       case Released(_, _, _, result) =>
         before.Some? && before.value.OutputPending? && before.value.usage == result.usage
       case Denied(_, stage) =>
         before.Some? && if stage.Input? then before.value.Prepared? else before.value.OutputPending?
       case Failed(_, _) =>
         before.Some? && (before.value.Dispatched? || before.value.OutputPending? || before.value.Released?)
  }

  function Last(log: seq<Entry>): Option<Record> {
    if log == [] then None else Some(log[|log| - 1].record)
  }

  ghost predicate Path(log: seq<Entry>) {
    forall i :: 0 <= i < |log| ==> Edge(Last(log[..i]), log[i].record)
  }

  /** Dispatch and release commit to the execution as it is, under a clear approval of exactly that, while the provider serves. */
  ghost predicate Authorized(e: Entry) {
    match e.record
    case Dispatched(_, level, revision) =>
      && e.security.lifecycle.Open? && (e.security.revision, e.security.level) == (revision, level)
      && ApprovedFor(e.approvals, Input, revision, level) && e.served
    case Released(_, level, revision, _) =>
      && e.security.lifecycle.Open? && (e.security.revision, e.security.level) == (revision, level)
      && ApprovedFor(e.approvals, Output, revision, level) && e.served
    case _ => true
  }

  // ----- What a path of writes means

  function Dispatches(log: seq<Entry>): nat {
    if log == [] then 0
    else Dispatches(log[..|log| - 1]) + (if log[|log| - 1].record.Dispatched? then 1 else 0)
  }

  function Releases(log: seq<Entry>): nat {
    if log == [] then 0
    else Releases(log[..|log| - 1]) + (if log[|log| - 1].record.Released? then 1 else 0)
  }

  lemma PathAppend(log: seq<Entry>, e: Entry)
    requires Path(log) && Edge(Last(log), e.record)
    ensures Path(log + [e])
    ensures Dispatches(log + [e]) == Dispatches(log) + (if e.record.Dispatched? then 1 else 0)
    ensures Releases(log + [e]) == Releases(log) + (if e.record.Released? then 1 else 0)
  {
    assert (log + [e])[..|log|] == log;
    forall i | 0 <= i < |log|
      ensures Edge(Last((log + [e])[..i]), (log + [e])[i].record)
    {
      assert (log + [e])[..i] == log[..i];
    }
  }

  lemma PathPrefix(log: seq<Entry>, n: nat)
    requires Path(log) && n <= |log|
    ensures Path(log[..n])
  {
    forall i | 0 <= i < n
      ensures Edge(Last(log[..n][..i]), log[..n][i].record)
    {
      assert log[..n][..i] == log[..i];
    }
  }

  /** A call is dispatched at most once, not before it was prepared, and released at most once. */
  lemma {:induction false} DispatchedAtMostOnce(log: seq<Entry>)
    requires Path(log)
    ensures Dispatches(log) <= 1 && Releases(log) <= 1
    ensures Phase(Last(log)) <= 1 ==> Dispatches(log) == 0
    ensures Phase(Last(log)) <= 3 ==> Releases(log) == 0
    ensures 2 <= Phase(Last(log)) <= 4 ==> Dispatches(log) == 1
  {
    if log != [] {
      var before := log[..|log| - 1];
      PathPrefix(log, |log| - 1);
      DispatchedAtMostOnce(before);
      assert Edge(Last(before), log[|log| - 1].record);
    }
  }

  /** The phase never goes back, and a call that left the prepared phase never returns to it. */
  lemma {:induction false} PhaseNeverReturns(log: seq<Entry>, i: nat, j: nat)
    requires Path(log) && i <= j <= |log|
    ensures Phase(Last(log[..i])) <= Phase(Last(log[..j]))
    ensures Phase(Last(log[..i])) > 1 ==> forall k :: i <= k < j ==> !log[k].record.Prepared?
    decreases j - i
  {
    if i < j {
      PhaseNeverReturns(log, i, j - 1);
      assert Edge(Last(log[..j - 1]), log[j - 1].record);
      assert log[..j][..j - 1] == log[..j - 1];
    }
  }

  /** Every write of a key answers the same request, by the same provider and model. */
  lemma {:induction false} OneRequestPerKey(log: seq<Entry>, i: nat)
    requires Path(log) && i < |log|
    ensures log[i].record.call.digest == log[0].record.call.digest
  {
    if i > 0 {
      OneRequestPerKey(log, i - 1);
      assert Edge(Last(log[..i]), log[i].record);
    }
  }

  /** What a released record releases is what the usage of its own dispatch was recorded for. */
  lemma ReleaseFollowsItsDispatch(log: seq<Entry>, i: nat)
    requires Path(log) && i < |log| && log[i].record.Released?
    ensures i >= 3 && log[i - 1].record.OutputPending? && log[i - 2].record.Dispatched? && log[i - 3].record.Prepared?
    ensures log[i - 1].record.usage == log[i].record.result.usage
    ensures log[i - 1].record.call.registration == log[i - 2].record.call.registration == log[i].record.call.registration
  {
    assert Edge(Last(log[..i]), log[i].record);
    assert Edge(Last(log[..i - 1]), log[i - 1].record);
    assert Edge(Last(log[..i - 2]), log[i - 2].record);
  }
}
