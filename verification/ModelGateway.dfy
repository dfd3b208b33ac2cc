/**
 * One model operation: the durable journal of its key, and every call that is
 * made to complete it. Between two awaits a call runs alone. At each await the
 * rest of the host may observe and close executions, register and revoke
 * providers, or cancel the call; and the call may stop there for good, because
 * the process dies or whatever it awaits fails. Calls of one key do not overlap.
 */
module ModelGateway {
  import opened Wrappers
  import opened Classification
  import opened ModelJournal
  import Trust = TrustAuthorizer
  import Scanners = ScannerRegistry
  import Exec = ExecutionSecurity
  import Invariant = ExecutionInvariant
  import Runs = ExecutionRuns
  import Service = ExecutionService

  datatype Registration = Registration(id: nat, models: seq<string>, capacity: Capacity)

  datatype RegistryChange = Register(provider: string, models: seq<string>, capacity: Capacity) | Dispose(provider: string)

  /** input stands for the canonical messages and tools. */
  datatype Request = Request(provider: Option<string>, model: Option<string>, input: string)

  /** What a provider does with its permit and its callbacks, in order. */
  datatype ProviderAction = CommitPermit | EmitToken(token: string) | ReportUsage(usage: Usage)

  /**
   * What an undisturbed call commits to: the registration of a provider, at a revision of the execution; or,
   * where the journal has the answer, that revision alone.
   */
  datatype Course = Course(provider: string, registration: Registration, revision: nat) | Answering(revision: nat)

  /** What the scanners find in the input and in the output of a call, and what a person says who is asked. */
  datatype Reviews = Reviews(input: Scanners.Report, output: Scanners.Report, agrees: bool)

  datatype PermitState = Ready | Committing | Consumed

  datatype Outcome =
    | Completed(result: ModelResult)
    | Replayed(result: ModelResult)
    | InputDenied
    | OutputDenied
    | ProviderFailure
    | Conflict
    | Indeterminate
    | Unavailable
    | Stopped

  datatype Release = Retry | Blocked | Done

  /** What a round of the output review ends with. */
  datatype Round = Again | LetOut | Withheld | Lost

  /** The call is for the target that the request names, if it names one, and for its input. */
  predicate Answers(call: Call, request: Request) {
    && (request.provider.Some? ==> request.provider.value == call.provider)
    && (request.model.Some? ==> request.model.value == call.model)
    && call.digest == RequestDigest(call.provider, call.model, request.input)
  }

  /**
   * What a record past prepared decides, if the call does not stop: another request is a
   * conflict, the same one gets the result again, or hears of the denial or the failure, or
   * that nobody knows what became of it.
   */
  predicate RecordDecides(record: Record, request: Request, outcome: Outcome) {
    outcome == Stopped ||
    if !Answers(record.call, request) then outcome == Conflict
    else
      match record
      case Released(_, _, _, result) => outcome == Replayed(result)
      case Denied(_, stage) => outcome == if stage == Input then InputDenied else OutputDenied
      case Failed(_, _) => outcome == ProviderFailure
      case _ => outcome == Indeterminate
  }

  /** A scanner blocks the input, or would have it reviewed and the person who is asked refuses. */
  predicate MustStop(reviews: Reviews) {
    Blocks(reviews.input) || (Flags(reviews.input) && !reviews.agrees)
  }

  /** The tokens that a provider streams after it has committed its permit; None if it never does. */
  function Streamed(script: seq<ProviderAction>): Option<seq<string>> {
    if script == [] then None
    else
      var before := Streamed(script[..|script| - 1]);
      match script[|script| - 1]
      case CommitPermit => if before.Some? then before else Some([])
      case EmitToken(token) => if before.Some? && token != "" then Some(before.value + [token]) else before
      case ReportUsage(_) => before
  }

  /** The usage that a provider reports last. */
  function Reported(script: seq<ProviderAction>): Option<Usage> {
    if script == [] then None
    else
      match script[|script| - 1]
      case ReportUsage(usage) => Some(usage)
      case _ => Reported(script[..|script| - 1])
  }

  /** No more was dispatched or released. */
  ghost predicate NothingSent(before: seq<Entry>, after: seq<Entry>) {
    Dispatches(after) == Dispatches(before) && Releases(after) == Releases(before)
  }

  function Joined(tokens: seq<string>): string {
    if tokens == [] then "" else Joined(tokens[..|tokens| - 1]) + tokens[|tokens| - 1]
  }

  function HeldBytes(byteLength: string -> nat, tokens: seq<string>): nat {
    if tokens == [] then 0
    else HeldBytes(byteLength, tokens[..|tokens| - 1]) + byteLength(tokens[|tokens| - 1])
  }

  function Text(result: ModelResult): string {
    if result.content.Some? then result.content.value else ""
  }

  class ModelOperation {
    const service: Service.ExecutionSecurityService
    const owner: Exec.Plugin
    const execution: Exec.Id
    const byteLength: string -> nat
    const encode: ModelResult -> string
    const maxHeldBytes: nat

    // Durable.
    var journal: Option<Record>

    // In memory: the registry of providers, the signals of the current call, and what the cost ledger holds of the key.
    var providers: map<string, Registration>
    var revoked: set<nat>
    var nextRegistration: nat
    var aborted: bool
    var ownerAborted: bool
    var ledger: seq<Usage>

    // What reached the outside, over all processes: the observer, providers and people.
    var delivered: seq<string>
    var providerCalls: nat
    var asks: nat

    // History variables. past holds the states that calls have read; recorded every usage
    // that was ever recorded, by the process recordedIn, of which process is the current one.
    ghost var log: seq<Entry>
    ghost var approvals: set<Approval>
    ghost var past: set<Exec.State>
    ghost var recorded: seq<Usage>
    ghost var recordedIn: nat
    ghost var process: nat

    // What the current call can count on, as long as nobody interferes and nothing that it awaits fails.
    ghost var course: Option<Course>

    /** What was released has had its usage recorded, once. */
    ghost predicate Billed()
      reads this`journal, this`recorded
    {
      journal.Some? && journal.value.Released? ==> recorded == [journal.value.result.usage]
    }

    /** The ledger holds what its own process recorded, and nothing of an earlier one. */
    ghost predicate LedgerOfProcess()
      reads this`ledger, this`recorded, this`recordedIn, this`process
    {
      recordedIn <= process && ledger == if recordedIn == process then recorded else []
    }

    /** On its course a call finds its execution open at that revision, and its provider in service. */
    ghost predicate OnCourse()
      reads this`course, this`providers, this`aborted, this`ownerAborted, service
    {
      course.Some? ==>
        && execution in service.contexts && service.contexts[execution].owner == owner
        && service.contexts[execution].lifecycle.Open? && service.contexts[execution].revision == course.value.revision
        && !aborted && !ownerAborted
        && (course.value.Course? ==> Registered(course.value.provider, course.value.registration))
    }

    lemma StillOnCourse()
      requires Valid()
      ensures OnCourse()
    {
    }

    /** What is in the stores, the ledger and the history fits together. */
    ghost predicate Kept()
      reads this`past, this`journal, this`log, this`ledger, this`recorded, this`recordedIn, this`process, service
    {
      && Invariant.Inv(service.hash, service.State())
      && (forall p <- past :: Invariant.Inv(service.hash, p) && Runs.Later(p, service.State()))
      && journal == Last(log)
      && Path(log)
      && (forall e <- log :: Authorized(e))
      && |recorded| <= Dispatches(log) && Billed() && LedgerOfProcess()
    }

    ghost predicate Valid()
      reads this`past, this`journal, this`log, this`ledger, this`recorded, this`recordedIn, this`process, service,
        this`course, this`providers, this`aborted, this`ownerAborted
    {
      Kept() && OnCourse()
    }

    constructor (service: Service.ExecutionSecurityService, owner: Exec.Plugin, execution: Exec.Id,
                 byteLength: string -> nat, encode: ModelResult -> string, maxHeldBytes: nat)
      requires Invariant.Inv(service.hash, service.State())
      ensures Valid() && journal == None && log == []
      ensures this.service == service && this.owner == owner && this.execution == execution
    {
      this.service, this.owner, this.execution := service, owner, execution;
      this.byteLength, this.encode, this.maxHeldBytes := byteLength, encode, maxHeldBytes;
      journal, providers, revoked, nextRegistration := None, map[], {}, 0;
      aborted, ownerAborted, delivered, ledger, providerCalls, asks := false, false, [], [], 0, 0;
      log, approvals, past := [], {}, {};
      recorded, recordedIn, process, course := [], 0, 0, None;
    }

    // ----- The environment

    ghost method Disturbed()
      requires Valid()
      modifies this`course
      ensures Valid() && course.None?
    {
      course := None;
    }

    /** Executions cannot change here, but providers and signals can. */
    method AwaitInsideMutation() returns (alive: bool)
      requires Valid()
      modifies this`providers, this`revoked, this`nextRegistration, this`aborted, this`ownerAborted, this`course
      ensures Valid()
      ensures old(aborted) ==> aborted
      ensures course.None? || (course == old(course) && alive)
    {
      hide Kept;
      alive := *;
      var cancelled: bool, ownerGone: bool := *, *;
      var changes: seq<RegistryChange> := *;
      if !alive || cancelled || ownerGone || changes != [] {
        Disturbed();
      }
      aborted, ownerAborted := aborted || cancelled, ownerAborted || ownerGone;
      for i := 0 to |changes|
        invariant Valid() && (old(aborted) ==> aborted)
        invariant course.None? || (course == old(course) && alive && changes == [])
      {
        Reregister(changes[i]);
      }
    }

    /** A provider comes or goes. */
    method Reregister(change: RegistryChange)
      requires Valid() && course.None?
      modifies this`providers, this`revoked, this`nextRegistration
      ensures Valid()
    {
      hide Kept;
      match change
      case Register(provider, models, capacity) =>
        if provider !in providers {
          providers := providers[provider := Registration(nextRegistration, models, capacity)];
          nextRegistration := nextRegistration + 1;
        }
      case Dispose(provider) =>
        if provider in providers {
          revoked := revoked + {providers[provider].id};
          providers := providers - {provider};
        }
    }

    method Await() returns (alive: bool)
      requires Valid()
      modifies this`providers, this`revoked, this`nextRegistration, this`aborted, this`ownerAborted, this`course, service
      ensures Valid()
      ensures old(aborted) ==> aborted
      ensures Runs.Later(old(service.State()), service.State())
      ensures course.None? || (course == old(course) && alive)
    {
      hide Invariant.Inv, Runs.Later, Valid;
      var others: seq<Exec.Event> := *;
      Runs.LaterReflexive(service.State());
      if others != [] {
        Disturbed();
      }
      for i := 0 to |others|
        invariant Valid() && aborted == old(aborted) && Runs.Later(old(service.State()), service.State())
        invariant course.None? || (course == old(course) && others == [])
      {
        ghost var before := service.State();
        Interfere(others[i]);
        Runs.LaterTransitive(old(service.State()), before, service.State());
      }
      alive := AwaitInsideMutation();
    }

    /** Somebody else does something with an execution. */
    method Interfere(e: Exec.Event)
      requires Valid() && course.None?
      modifies service
      ensures Valid() && Runs.Later(old(service.State()), service.State())
    {
      hide Invariant.Inv, Runs.Later, Path, Authorized, Dispatches, Billed, LedgerOfProcess;
      ghost var before := service.State();
      service.Perform(e);
      Invariant.StepKeepsInv(service.hash, before, e);
      Runs.StepIsLater(service.hash, before, e);
      AllLater(past, before, service.State());
    }

    /** Keeps the state of the executions as one that was read. */
    ghost method Remember()
      requires Valid()
      modifies this`past
      ensures Valid() && past == old(past) + {service.State()}
    {
      hide Invariant.Inv, Runs.Later;
      Runs.LaterReflexive(service.State());
      past := past + {service.State()};
    }

    /** Reads the execution, after everything that was going on. */
    method ReadSecurity() returns (r: Option<Exec.Context>, ghost at: Exec.State)
      requires Valid()
      modifies this`providers, this`revoked, this`nextRegistration, this`aborted, this`ownerAborted, this`course, this`past, service
      ensures Valid()
      ensures old(past) <= past
      ensures old(ClosedFor()) ==> r.None? || r.value.lifecycle.Closed?
      ensures r.Some? ==>
        && at == service.State() && at in past && execution in at.contexts && r.value == at.contexts[execution] && r.value.owner == owner
      ensures course.Some? ==>
        course == old(course) && r.Some? && r.value.revision == course.value.revision && r.value.lifecycle.Open?
    {
      hide Invariant.Inv, Runs.Later, Valid;
      var alive := Await();
      var read := service.Snapshot(owner, execution);
      at := service.State();
      StillOnCourse();
      if old(ClosedFor()) {
        Runs.ClosedStays(old(service.State()), at, execution);
      }
      Remember();
      r := if alive && read.Ok? then Some(read.value) else None;
    }

    /** A revision that was read before and still stands names the level that was read. */
    lemma RevisionStands(at: Exec.State)
      requires Valid() && at in past && execution in at.contexts
      ensures execution in service.contexts
      ensures var c, d := at.contexts[execution], service.contexts[execution];
        && d.owner == c.owner
        && 1 <= c.revision <= d.revision <= 1 + MAX_RANK
        && (c.revision == d.revision ==> c.level == d.level)
    {
      hide Invariant.Inv, Runs.Later;
      Runs.RevisionGuardsLevel(service.hash, at, service.State(), execution);
      Runs.SameOwner(at, service.State(), execution);
    }

    // ----- The pieces of a call

    /** The record of the key, not yet dispatched, answers the same request as call. */
    predicate IsPrepared(call: Call)
      reads this`journal
    {
      journal.Some? && journal.value.Prepared? && journal.value.call.digest == call.digest
      && journal.value.call.registration == call.registration
    }

    method Save(record: Record, ghost served: bool)
      requires Valid() && Edge(journal, record) && execution in service.contexts
      requires Authorized(Entry(record, service.contexts[execution], approvals, served))
      requires record.Released? ==> recorded == [record.result.usage]
      modifies this`journal, this`log
      ensures Valid() && journal == Some(record)
      ensures log == old(log) + [Entry(record, service.contexts[execution], approvals, served)]
      ensures Dispatches(log) == Dispatches(old(log)) + (if record.Dispatched? then 1 else 0)
      ensures Releases(log) == Releases(old(log)) + (if record.Released? then 1 else 0)
    {
      hide Invariant.Inv, Runs.Later, Path, Authorized, Dispatches, Releases, Edge;
      ghost var entry := Entry(record, service.contexts[execution], approvals, served);
      PathAppend(log, entry);
      AuthorizedAppend(log, entry);
      log := log + [entry];
      journal := Some(record);
    }

    /** A last write, which may fail, or come through although the call stops. */
    method SaveDenied(call: Call, stage: Stage, ghost at: Exec.State) returns (alive: bool)
      requires Valid() && at in past && execution in at.contexts
      requires if stage.Input? then IsPrepared(call) else Phase(journal) == 3 && journal.value.call == call
      modifies this`journal, this`log, this`course
      ensures Valid() && old(log) <= log && Dispatches(log) == Dispatches(old(log)) && NothingSent(old(log), log)
      ensures journal == Some(Denied(call, stage)) || (!alive && journal == old(journal) && log == old(log))
      ensures course.None? || (course == old(course) && alive)
    {
      var written: bool := *;
      if !written {
        Disturbed();
        return false;
      }
      RevisionStands(at);
      Save(Denied(call, stage), true);
      alive := *;
      if !alive {
        Disturbed();
      }
    }

    method SaveFailed(call: Call, code: FailureCode, ghost at: Exec.State) returns (alive: bool)
      requires Valid() && at in past && execution in at.contexts
      requires 2 <= Phase(journal) <= 4 && journal.value.call == call
      modifies this`journal, this`log, this`course
      ensures Valid() && old(log) <= log && Dispatches(log) == Dispatches(old(log)) && NothingSent(old(log), log)
      ensures journal == Some(Failed(call, code)) || (!alive && journal == old(journal) && log == old(log))
      ensures course.None? || (course == old(course) && alive)
    {
      var written: bool := *;
      if !written {
        Disturbed();
        return false;
      }
      RevisionStands(at);
      Save(Failed(call, code), true);
      alive := *;
      if !alive {
        Disturbed();
      }
    }

    /** A released result had its usage recorded once; the ledger holds it exactly in the process that recorded it. */
    lemma ReleasedIsBilled()
      requires Valid() && Phase(journal) == 4
      ensures recorded == [journal.value.result.usage]
      ensures ledger == if recordedIn == process then recorded else []
    {
    }

    lemma OneDispatch()
      requires Valid() && Phase(journal) == 2
      ensures Dispatches(log) == 1
    {
      DispatchedAtMostOnce(log);
    }

    lemma NoUsageYet()
      requires Valid() && Phase(journal) <= 1
      ensures recorded == [] && ledger == []
    {
      DispatchedAtMostOnce(log);
    }

    /** The ledger may refuse the usage; and after it has taken it, it may still throw. */
    method RecordUsage(usage: Usage) returns (alive: bool)
      requires Valid() && recorded == [] && 1 <= Dispatches(log) && !(journal.Some? && journal.value.Released?)
      modifies this`ledger, this`recorded, this`recordedIn, this`course
      ensures Valid() && recorded == ledger
      ensures ledger == [usage] || (!alive && ledger == [])
      ensures course.None? || (course == old(course) && alive)
    {
      var accepted: bool := *;
      if !accepted {
        Disturbed();
        return false;
      }
      ledger := ledger + [usage];
      recorded, recordedIn := recorded + [usage], process;
      alive := *;
      if !alive {
        Disturbed();
      }
    }

    /** Asks the authorizer about one reading of the execution. */
    method Authorize(stage: Stage, security: Exec.Context, capacity: Capacity, report: Scanners.Report, interactionUsed: bool,
                     agrees: bool)
      returns (alive: bool, allowed: bool, usedAfter: bool)
      requires Valid()
      modifies this`providers, this`revoked, this`nextRegistration, this`aborted, this`ownerAborted, this`course, this`approvals,
        this`asks, service
      ensures Valid()
      ensures allowed <==> !Blocks(report) && (stage.Input? && Flags(report) ==> !interactionUsed && agrees)
      ensures asks == old(asks) + (if stage.Input? && !Blocks(report) && Flags(report) && !interactionUsed then 1 else 0)
      ensures approvals ==
        if alive && allowed then old(approvals) + {Approval(stage, security.revision, security.level, report, asks > old(asks))}
        else old(approvals)
      ensures alive && allowed ==> ApprovedFor(approvals, stage, security.revision, security.level)
      ensures asks > old(asks) ==> usedAfter
      ensures interactionUsed ==> usedAfter
      ensures course.None? || (course == old(course) && alive)
    {
      hide Invariant.Inv, Runs.Later, Valid;
      var mark: Level := *;
      var feature := if stage.Input? then Trust.ModelInput else Trust.ModelOutput;
      var request := Trust.Request(feature, Trust.Auto, security.level, Some(capacity), Some(report), interactionUsed);
      usedAfter := Trust.UsedAfter(request, mark, false);
      var agreed := false;
      match Trust.Decide(request, mark, false) {
        case Refused => allowed := false;
        case RefusedSecondPrompt => allowed := false;
        case Allowed => allowed := true;
        case AskPerson =>
          asks := asks + 1;
          allowed, agreed := agrees, agrees;
      }
      alive := Await();
      if alive && allowed {
        approvals := approvals + {Approval(stage, security.revision, security.level, report, agreed)};
      }
    }

    predicate Registered(provider: string, registration: Registration)
      reads this`providers
    {
      provider in providers && providers[provider] == registration
    }

    /**
     * One attempt to commit at the current revision, which must be authorised.
     * The guarded part runs inside the mutation, where the execution stays put.
     */
    method TryCommit(current: nat, ghost authorizedAt: Exec.State, call: Call, registration: Registration)
      returns (won: bool, moved: bool, level: Level, ghost failedAt: Exec.State)
      requires Valid() && IsPrepared(call) && call.registration == registration.id
      requires authorizedAt in past && execution in authorizedAt.contexts
      requires authorizedAt.contexts[execution].revision == current
      requires ApprovedFor(approvals, Input, current, authorizedAt.contexts[execution].level)
      modifies this`providers, this`revoked, this`nextRegistration, this`aborted, this`ownerAborted, this`course, this`past,
        this`journal, this`log, service
      ensures Valid() && old(log) <= log && old(past) <= past
      ensures journal.Some?
      ensures won ==> journal == Some(Dispatched(call, level, current)) && Dispatches(log) == 1
      ensures journal == old(journal) || journal.value.Dispatched?
      ensures moved ==> !won && journal == old(journal) && log == old(log)
      ensures moved ==>
        failedAt in past && execution in failedAt.contexts && failedAt.contexts[execution].revision > current
      ensures course.None? || course == old(course)
      ensures course == Some(Course(call.provider, registration, current)) ==> won
    {
      hide Invariant.Inv, Runs.Later, Valid, Dispatches;
      won, moved, level := false, false, Public;
      failedAt := authorizedAt;
      var alive := Await();
      StillOnCourse();
      var commit := service.CommitIfCurrent(owner, execution, current);
      if !alive || commit.Err? {
        return;
      }
      RevisionStands(authorizedAt);
      if commit.value.None? {
        failedAt := service.State();
        Remember();
        moved := true;
        return;
      }
      if !Registered(call.provider, registration) {
        return;
      }
      ghost var served := Registered(call.provider, registration);
      alive := AwaitInsideMutation();
      if !alive || journal.None? || !journal.value.Prepared? || journal.value.call.registration != registration.id {
        return;
      }
      level := commit.value.value.level;
      Save(Dispatched(call, level, current), served);
      OneDispatch();
      alive := AwaitInsideMutation();
      won := alive;
    }

    /** An input is authorised again, at a revision that has risen; a refusal is recorded. */
    method Renew(current: Exec.Context, ghost at: Exec.State, call: Call, report: Scanners.Report, interactionUsed: bool,
                 agrees: bool)
      returns (approved: bool, usedAfter: bool)
      requires Valid() && at in past && execution in at.contexts && IsPrepared(call) && !Blocks(report)
      modifies this`providers, this`revoked, this`nextRegistration, this`aborted, this`ownerAborted, this`course, this`approvals,
        this`asks, this`journal, this`log, service
      ensures Valid() && old(log) <= log && Dispatches(log) == Dispatches(old(log))
      ensures approved ==> ApprovedFor(approvals, Input, current.revision, current.level) && journal == old(journal) && log == old(log)
      ensures journal == old(journal) || (journal == Some(Denied(call, Input)) && Flags(report))
      ensures asks == old(asks) + (if Flags(report) && !interactionUsed then 1 else 0)
      ensures (asks > old(asks) || interactionUsed) ==> usedAfter
      ensures course.None? || course == old(course)
    {
      hide Invariant.Inv, Runs.Later, Valid, Dispatches, ApprovedFor, Blocks, Flags;
      var alive, allowed;
      alive, allowed, usedAfter := Authorize(Input, current, call.capacity, report, interactionUsed, agrees);
      if alive && !allowed {
        var saved := SaveDenied(call, Input, at);
      }
      approved := alive && allowed;
    }

    /** There is a record, it is no release, and if it is a denial, then one of an input that a scanner flagged. */
    ghost predicate Unreleased(report: Scanners.Report)
      reads this`journal
    {
      journal.Some? && Phase(journal) != 4 && (journal.value.Denied? ==> journal.value.stage == Input && Flags(report))
    }

    lemma PreparedIsUnreleased(call: Call, report: Scanners.Report)
      requires IsPrepared(call)
      ensures Unreleased(report)
    {
    }

    /**
     * One round of the permit's commit, at the revision current: authorised again, if it is not the one
     * that was authorised last, and then tried. Ready means that the revision has moved on, to next.
     */
    method CommitRound(current: Exec.Context, ghost at: Exec.State, authorizedRevision: nat, ghost authorizedAt: Exec.State,
                       call: Call, registration: Registration, report: Scanners.Report, interactionUsed: bool, agrees: bool)
      returns (r: PermitState, level: Level, usedAfter: bool, next: Exec.Context, ghost nextAt: Exec.State,
               ghost approvedAt: Exec.State)
      requires Valid() && at in past && execution in at.contexts && current == at.contexts[execution]
      requires authorizedAt in past && execution in authorizedAt.contexts
      requires authorizedAt.contexts[execution].revision == authorizedRevision
      requires ApprovedFor(approvals, Input, authorizedRevision, authorizedAt.contexts[execution].level)
      requires IsPrepared(call) && call.registration == registration.id && !Blocks(report)
      modifies this`providers, this`revoked, this`nextRegistration, this`aborted, this`ownerAborted, this`course, this`approvals,
        this`asks, this`past, this`journal, this`log, service
      ensures Valid() && old(log) <= log && old(past) <= past
      ensures r.Consumed? ==> journal == Some(Dispatched(call, level, current.revision)) && Dispatches(log) == 1
      ensures Unreleased(report)
      ensures old(asks) <= asks <= old(asks) + (if !interactionUsed && usedAfter then 1 else 0)
      ensures interactionUsed ==> usedAfter
      ensures r.Ready? ==>
        && log == old(log) && journal == old(journal)
        && approvedAt in past && execution in approvedAt.contexts && approvedAt.contexts[execution].revision == current.revision
        && ApprovedFor(approvals, Input, current.revision, approvedAt.contexts[execution].level)
        && nextAt in past && execution in nextAt.contexts && next == nextAt.contexts[execution]
        && current.revision < next.revision <= 1 + MAX_RANK
      ensures course.None? || course == old(course)
      ensures course == Some(Course(call.provider, registration, authorizedRevision))
              && current.revision == authorizedRevision && current.lifecycle.Open? ==>
        r.Consumed?
    {
      hide Invariant.Inv, Runs.Later, Valid, Dispatches, Edge, Path, ApprovedFor, Blocks, Flags;
      r, level, usedAfter, next, nextAt, approvedAt := Committing, Public, interactionUsed, current, at, authorizedAt;
      if current.lifecycle.Closed? {
        return;
      }
      if current.revision != authorizedRevision {
        var approved;
        approved, usedAfter := Renew(current, at, call, report, interactionUsed, agrees);
        if !approved {
          return;
        }
        approvedAt := at;
      }
      var won, moved, committed, failedAt := TryCommit(current.revision, approvedAt, call, registration);
      if won {
        r, level := Consumed, committed;
        return;
      }
      if !moved {
        return;
      }
      var read, readAt := ReadSecurity();
      if read.Some? {
        RevisionStands(failedAt);
        RevisionStands(readAt);
        r, next, nextAt := Ready, read.value, readAt;
      }
    }

    /**
     * The permit's commit: it dispatches at a revision it authorised, or
     * authorises again. An attempt fails only when the revision has moved on,
     * and there are at most four revisions.
     */
    method Commit(initial: Exec.Context, ghost initialAt: Exec.State, call: Call, registration: Registration,
                  report: Scanners.Report, inputUsed: bool, agrees: bool)
      returns (r: PermitState, level: Level, revision: nat, ghost rounds: nat)
      requires Valid() && initialAt in past && execution in initialAt.contexts
      requires initial == initialAt.contexts[execution]
      requires ApprovedFor(approvals, Input, initial.revision, initial.level)
      requires IsPrepared(call) && call.registration == registration.id && !Blocks(report)
      modifies this`providers, this`revoked, this`nextRegistration, this`aborted, this`ownerAborted, this`course, this`approvals,
        this`asks, this`past, this`journal, this`log, service
      ensures Valid() && old(log) <= log && old(past) <= past
      ensures rounds <= 1 + MAX_RANK
      ensures r == Consumed ==> journal == Some(Dispatched(call, level, revision)) && Dispatches(log) == 1
      ensures r != Ready && Unreleased(report)
      ensures old(asks) <= asks <= old(asks) + (if inputUsed then 0 else 1)
      ensures course.None? || course == old(course)
      ensures course == Some(Course(call.provider, registration, initial.revision)) ==> r == Consumed && revision == initial.revision
    {
      hide Invariant.Inv, Runs.Later, Valid, Dispatches, Edge, Path, ApprovedFor, Blocks, Flags;
      r, level, revision, rounds := Committing, Public, 0, 0;
      var read, at := ReadSecurity();
      if read.None? {
        return;
      }
      var current := read.value;
      var authorizedRevision := initial.revision;
      ghost var authorizedAt := initialAt;
      var interactionUsed := inputUsed;
      RevisionStands(at);
      while true
        invariant Valid() && at in past && execution in at.contexts && current == at.contexts[execution]
        invariant authorizedAt in past && execution in authorizedAt.contexts
        invariant authorizedAt.contexts[execution].revision == authorizedRevision
        invariant ApprovedFor(approvals, Input, authorizedRevision, authorizedAt.contexts[execution].level)
        invariant IsPrepared(call) && log == old(log) && old(past) <= past
        invariant 0 <= rounds < current.revision <= 1 + MAX_RANK
        invariant old(asks) <= asks <= old(asks) + (if interactionUsed && !inputUsed then 1 else 0)
        invariant inputUsed ==> interactionUsed
        invariant course.None? || course == old(course)
        invariant course == Some(Course(call.provider, registration, initial.revision)) ==>
          current.revision == authorizedRevision == initial.revision && current.lifecycle.Open?
        decreases 1 + MAX_RANK - current.revision
      {
        rounds, revision := rounds + 1, current.revision;
        var next: Exec.Context;
        ghost var nextAt;
        ghost var approvedAt;
        r, level, interactionUsed, next, nextAt, approvedAt :=
          CommitRound(current, at, authorizedRevision, authorizedAt, call, registration, report, interactionUsed, agrees);
        if r != Ready {
          return;
        }
        authorizedRevision, authorizedAt := current.revision, approvedAt;
        current, at := next, nextAt;
      }
    }

    /** The permit is committed when the provider does that, and what it streams from then on is held. */
    predicate Follows(done: seq<ProviderAction>, permit: Option<PermitState>, held: seq<string>, heldBytes: nat) {
      if Streamed(done).None? then permit == Some(Ready) && heldBytes == 0
      else
        && permit == Some(Consumed) && heldBytes == HeldBytes(byteLength, Streamed(done).value)
        && (heldBytes <= maxHeldBytes ==> held == Streamed(done).value)
    }

    /** Nothing is held before the permit is committed, and never more than fits. */
    predicate Hold(permit: Option<PermitState>, held: seq<string>, heldBytes: nat) {
      && HeldBytes(byteLength, held) <= heldBytes && HeldBytes(byteLength, held) <= maxHeldBytes
      && (permit == Some(Ready) ==> held == [])
    }

    lemma NothingStreamed()
      ensures Follows([], Some(Ready), [], 0) && Hold(Some(Ready), [], 0) && Reported([]) == None
    {
    }

    lemma CommitFollows(done: seq<ProviderAction>, permit: Option<PermitState>, held: seq<string>, heldBytes: nat)
      requires Hold(permit, held, heldBytes)
      ensures Hold(Some(Consumed), held, heldBytes) && Reported(done + [CommitPermit]) == Reported(done)
      ensures Follows(done, permit, held, heldBytes) ==> Follows(done + [CommitPermit], Some(Consumed), held, heldBytes)
    {
      assert (done + [CommitPermit])[..|done|] == done;
    }

    /** What the provider streams or reports. A token is held if the permit is committed and the call goes on, as long as all fits. */
    method Hear(action: ProviderAction, ghost done: seq<ProviderAction>, permit: Option<PermitState>, held: seq<string>,
                heldBytes: nat, partial: Option<Usage>)
      returns (holds: seq<string>, bytes: nat, reported: Option<Usage>)
      requires !action.CommitPermit? && Hold(permit, held, heldBytes) && partial == Reported(done)
      ensures Hold(permit, holds, bytes) && reported == Reported(done + [action])
      ensures Follows(done, permit, held, heldBytes) && !aborted ==> Follows(done + [action], permit, holds, bytes)
    {
      assert (done + [action])[..|done|] == done;
      holds, bytes, reported := held, heldBytes, partial;
      match action
      case EmitToken(token) =>
        if !aborted && permit == Some(Consumed) && token != "" {
          bytes := heldBytes + byteLength(token);
          assert (held + [token])[..|held|] == held;
          if Streamed(done).Some? {
            var before := Streamed(done).value;
            assert (before + [token])[..|before|] == before;
          }
          if bytes <= maxHeldBytes {
            holds := held + [token];
          }
        }
      case ReportUsage(usage) =>
        reported := Some(usage);
    }

    /**
     * The provider runs: it may commit its permit, stream tokens into the hold
     * and report usage. It awaits its commit, and has stopped when this returns.
     */
    method RunProvider(initial: Exec.Context, ghost initialAt: Exec.State, call: Call, registration: Registration,
                       report: Scanners.Report, inputUsed: bool, agrees: bool, script: seq<ProviderAction>)
      returns (permit: Option<PermitState>, level: Level, revision: nat, held: seq<string>, partial: Option<Usage>,
               ghost rounds: nat)
      requires Valid() && initialAt in past && execution in initialAt.contexts
      requires initial == initialAt.contexts[execution]
      requires ApprovedFor(approvals, Input, initial.revision, initial.level)
      requires IsPrepared(call) && call.registration == registration.id && !Blocks(report)
      modifies this`providers, this`revoked, this`nextRegistration, this`aborted, this`ownerAborted, this`course, this`approvals,
        this`asks, this`past, this`journal, this`log, this`providerCalls, service
      ensures Valid() && old(log) <= log && old(past) <= past && providerCalls == old(providerCalls) + 1
      ensures rounds <= 1 + MAX_RANK
      ensures permit == Some(Consumed) ==> journal == Some(Dispatched(call, level, revision)) && Dispatches(log) == 1
      ensures permit != Some(Committing) && Unreleased(report)
      ensures HeldBytes(byteLength, held) <= maxHeldBytes && (permit == Some(Ready) ==> held == [])
      ensures old(asks) <= asks <= old(asks) + (if inputUsed then 0 else 1)
      ensures course.None? || course == old(course)
      ensures permit.Some? ==> partial == Reported(script)
      ensures course == Some(Course(call.provider, registration, initial.revision)) && Holds(script) ==>
        if Streamed(script).None? then permit == Some(Ready)
        else permit == Some(Consumed) && held == Streamed(script).value && revision == initial.revision
    {
      hide Invariant.Inv, Runs.Later, Joined, Valid, Dispatches, Edge, ApprovedFor, Blocks, Flags, Follows,
        Streamed, Reported, HeldBytes, Hold, Unreleased;
      NothingStreamed();
      PreparedIsUnreleased(call, report);
      providerCalls := providerCalls + 1;
      permit, level, revision, held, partial, rounds := Some(Ready), Public, 0, [], None, 0;
      var heldBytes: nat := 0;
      for i := 0 to |script|
        invariant Valid() && old(log) <= log && old(past) <= past && providerCalls == old(providerCalls) + 1
        invariant rounds <= 1 + MAX_RANK && (permit == Some(Ready) || permit == Some(Consumed))
        invariant Hold(permit, held, heldBytes) && Unreleased(report)
        invariant permit == Some(Ready) ==>
          && IsPrepared(call) && asks == old(asks)
          && initialAt in past && ApprovedFor(approvals, Input, initial.revision, initial.level)
        invariant permit == Some(Consumed) ==> journal == Some(Dispatched(call, level, revision)) && Dispatches(log) == 1
        invariant old(asks) <= asks <= old(asks) + (if inputUsed then 0 else 1)
        invariant course.None? || course == old(course)
        invariant partial == Reported(script[..i])
        invariant course == Some(Course(call.provider, registration, initial.revision)) ==>
          Follows(script[..i], permit, held, heldBytes) && (permit == Some(Consumed) ==> revision == initial.revision)
      {
        assert script[..i + 1] == script[..i] + [script[i]];
        var alive := Await();
        StillOnCourse();
        if !alive {
          Followed(script, permit, held, heldBytes);
          permit := None;
          return;
        }
        match script[i]
        case CommitPermit =>
          CommitFollows(script[..i], permit, held, heldBytes);
          if permit == Some(Ready) {
            var committed;
            committed, level, revision, rounds := Commit(initial, initialAt, call, registration, report, inputUsed, agrees);
            if committed != Consumed {
              // The commit threw, or denied the input; no later action of the provider changes the record.
              Followed(script, permit, held, heldBytes);
              permit := None;
              return;
            }
            permit := Some(Consumed);
          }
        case _ =>
          held, heldBytes, partial := Hear(script[i], script[..i], permit, held, heldBytes, partial);
      }
      Followed(script, permit, held, heldBytes);
    }

    lemma Followed(script: seq<ProviderAction>, permit: Option<PermitState>, held: seq<string>, heldBytes: nat)
      requires Hold(permit, held, heldBytes)
      ensures HeldBytes(byteLength, held) <= maxHeldBytes && (permit == Some(Ready) ==> held == [])
      ensures script[..|script|] == script
      ensures Follows(script, permit, held, heldBytes) && Holds(script) ==>
        if Streamed(script).None? then permit == Some(Ready) else permit == Some(Consumed) && held == Streamed(script).value
    {
    }

    method BlockReason(provider: string, registration: Registration) returns (blocked: Option<FailureCode>)
      ensures blocked.Some? <==> aborted || ownerAborted || !Registered(provider, registration)
    {
      if aborted || ownerAborted {
        return Some(Aborted);
      }
      return if Registered(provider, registration) then None else Some(ProviderUnavailable);
    }

    /** Records that the approved output was seen by the execution. */
    method ObserveOutput(level: Level, note: string, stamp: Exec.Stamp)
      returns (r: Option<Exec.Context>, ghost at: Exec.State)
      requires Valid()
      modifies this`providers, this`revoked, this`nextRegistration, this`aborted, this`ownerAborted, this`course, this`past, service
      ensures Valid() && old(past) <= past
      ensures r.Some? ==>
        && at == service.State() && at in past && execution in at.contexts && r.value == at.contexts[execution]
      ensures course.None? || course == old(course)
      ensures course.Some? ==> r.Some? && r.value.revision == course.value.revision
    {
      hide Invariant.Inv, Runs.Later, Valid;
      var alive := Await();
      r := ObserveNow(Exec.Observation(level, Exec.FromPlugin(note), "Approved model output", stamp));
      at := service.State();
      Remember();
      if !alive {
        r := None;
      }
    }

    /** The execution observes something; if that is not above its level, its revision stays. */
    method ObserveNow(o: Exec.Observation) returns (r: Option<Exec.Context>)
      requires Valid()
      modifies this`course, service
      ensures Valid()
      ensures r.Some? ==> execution in service.contexts && r.value == service.contexts[execution]
      ensures course.None? || course == old(course)
      ensures course.Some? ==> r.Some? && r.value.revision == course.value.revision
    {
      hide Invariant.Inv, Runs.Later, Path, Authorized, Dispatches, Billed, LedgerOfProcess;
      ghost var before := service.State();
      if execution !in service.contexts || Rank(o.level) > Rank(service.contexts[execution].level) {
        Disturbed();
      }
      var observed := service.Observe(owner, execution, o);
      var e := Exec.DoObserve(owner, execution, o);
      Invariant.StepKeepsInv(service.hash, before, e);
      Runs.StepIsLater(service.hash, before, e);
      AllLater(past, before, service.State());
      r := if observed.Ok? then Some(observed.value) else None;
    }

    /** One attempt to release at the current revision, which must be authorised for output. */
    method TryRelease(current: nat, ghost authorizedAt: Exec.State, call: Call, registration: Registration,
                      result: ModelResult)
      returns (alive: bool, release: Release, reason: FailureCode, ghost failedAt: Exec.State)
      requires Valid() && Phase(journal) == 3 && journal.value.call == call && journal.value.usage == result.usage
      requires recorded == ledger == [result.usage]
      requires authorizedAt in past && execution in authorizedAt.contexts
      requires authorizedAt.contexts[execution].revision == current
      requires ApprovedFor(approvals, Output, current, authorizedAt.contexts[execution].level)
      modifies this`providers, this`revoked, this`nextRegistration, this`aborted, this`ownerAborted, this`course, this`past,
        this`journal, this`log, service
      ensures Valid() && old(log) <= log && old(past) <= past && Dispatches(log) == Dispatches(old(log))
      ensures authorizedAt in past && execution in authorizedAt.contexts
      ensures alive && release == Done ==>
        Phase(journal) == 4 && journal.value.call == call && journal.value.result == result
      ensures alive && release == Blocked ==> 3 <= Phase(journal) <= 4 && journal.value.call == call
      ensures alive && release == Retry ==>
        && journal == old(journal) && log == old(log)
        && failedAt in past && execution in failedAt.contexts && failedAt.contexts[execution].revision > current
      ensures course.None? || course == old(course)
      ensures course == Some(Course(call.provider, registration, current)) ==> alive && release == Done
    {
      hide Invariant.Inv, Runs.Later, Valid, Path, Dispatches;
      alive, release, reason, failedAt := false, Retry, Aborted, authorizedAt;
      var up := Await();
      StillOnCourse();
      var commit := service.CommitIfCurrent(owner, execution, current);
      if !up || commit.Err? {
        return;
      }
      RevisionStands(authorizedAt);
      alive := true;
      if commit.value.None? {
        failedAt := service.State();
        Remember();
        return;
      }
      alive, release, reason := ReleaseNow(current, commit.value.value, call, registration, result);
    }

    /** The guarded part of a release, inside the mutation. */
    method ReleaseNow(current: nat, security: Exec.Context, call: Call, registration: Registration, result: ModelResult)
      returns (alive: bool, release: Release, reason: FailureCode)
      requires Valid() && Phase(journal) == 3 && journal.value.call == call && journal.value.usage == result.usage
      requires recorded == [result.usage] && execution in service.contexts && security == service.contexts[execution]
      requires security.lifecycle.Open? && security.revision == current && ApprovedFor(approvals, Output, current, security.level)
      modifies this`providers, this`revoked, this`nextRegistration, this`aborted, this`ownerAborted, this`course, this`journal,
        this`log
      ensures Valid() && old(log) <= log && Dispatches(log) == Dispatches(old(log))
      ensures release == Done ==> Phase(journal) == 4 && journal.value.call == call && journal.value.result == result
      ensures release == Blocked ==> 3 <= Phase(journal) <= 4 && journal.value.call == call
      ensures release != Retry
      ensures course.None? || course == old(course)
      ensures course.Some? && IsFor(course.value, call, registration) ==> alive && release == Done
    {
      hide Invariant.Inv, Runs.Later, Valid, Path, Dispatches;
      reason := Aborted;
      StillOnCourse();
      var blocked := BlockReason(call.provider, registration);
      if blocked.Some? {
        return true, Blocked, blocked.value;
      }
      Save(Released(call, security.level, current, result),
           !aborted && !ownerAborted && Registered(call.provider, registration));
      alive := AwaitInsideMutation();
      StillOnCourse();
      blocked := BlockReason(call.provider, registration);
      if blocked.Some? {
        return alive, Blocked, blocked.value;
      }
      release := Done;
    }

    /** After an approval: the execution observes the output, and unless it has moved on, the output is released. */
    method ReleaseRound(current: Exec.Context, ghost authorizedAt: Exec.State, call: Call, registration: Registration,
                        result: ModelResult, stamp: Exec.Stamp)
      returns (round: Round, reason: FailureCode, next: Exec.Context, ghost nextAt: Exec.State)
      requires Valid() && Phase(journal) == 3 && journal.value.call == call && journal.value.usage == result.usage
      requires recorded == ledger == [result.usage]
      requires authorizedAt in past && execution in authorizedAt.contexts && current == authorizedAt.contexts[execution]
      requires ApprovedFor(approvals, Output, current.revision, current.level)
      modifies this`providers, this`revoked, this`nextRegistration, this`aborted, this`ownerAborted, this`course, this`past,
        this`journal, this`log, service
      ensures Valid() && old(log) <= log && old(past) <= past && Dispatches(log) == Dispatches(old(log))
      ensures round.LetOut? ==> Phase(journal) == 4 && journal.value.call == call && journal.value.result == result
      ensures round.Withheld? ==> 3 <= Phase(journal) <= 4 && journal.value.call == call
      ensures round.Again? ==>
        && journal == old(journal) && log == old(log) && nextAt in past && execution in nextAt.contexts
        && next == nextAt.contexts[execution] && current.revision < next.revision <= 1 + MAX_RANK
      ensures course.None? || course == old(course)
      ensures course == Some(Course(call.provider, registration, current.revision)) ==> round.LetOut?
    {
      hide Invariant.Inv, Runs.Later, Valid, Dispatches, Edge, ApprovedFor;
      round, reason, next, nextAt := Lost, Aborted, current, authorizedAt;
      var read, at := ObserveOutput(current.level, call.provider, stamp);
      if read.None? {
        return;
      }
      RevisionStands(authorizedAt);
      RevisionStands(at);
      if read.value.revision != current.revision || read.value.level != current.level {
        return Again, reason, read.value, at;
      }
      var up, release, blocked, failedAt := TryRelease(current.revision, authorizedAt, call, registration, result);
      if !up {
        return;
      }
      match release
      case Done =>
        round := LetOut;
      case Blocked =>
        round, reason := Withheld, blocked;
      case Retry =>
        read, at := ReadSecurity();
        if read.Some? {
          RevisionStands(failedAt);
          RevisionStands(at);
          round, next, nextAt := Again, read.value, at;
        }
    }

    /** One round of the output's review, at the revision current; None means that the revision has moved on, to next. */
    method ReviewRound(current: Exec.Context, ghost at: Exec.State, call: Call, registration: Registration,
                       result: ModelResult, report: Scanners.Report, interactionUsed: bool, stamp: Exec.Stamp)
      returns (outcome: Option<Outcome>, usedAfter: bool, next: Exec.Context, ghost nextAt: Exec.State)
      requires Valid() && Phase(journal) == 3 && journal.value.call == call && journal.value.usage == result.usage
      requires recorded == ledger == [result.usage]
      requires at in past && execution in at.contexts && current == at.contexts[execution]
      modifies this`providers, this`revoked, this`nextRegistration, this`aborted, this`ownerAborted, this`course, this`approvals,
        this`asks, this`past, this`journal, this`log, service
      ensures Valid() && old(log) <= log && old(past) <= past
      ensures Dispatches(log) == Dispatches(old(log)) && asks == old(asks)
      ensures outcome.Some? ==>
        outcome.value.Completed? || outcome.value.OutputDenied? || outcome.value.ProviderFailure? || outcome.value.Stopped?
      ensures outcome == Some(OutputDenied) ==> journal == Some(Denied(call, Output)) && Blocks(report)
      ensures Blocks(report) ==> outcome.Some? && !outcome.value.Completed? && Phase(journal) != 4
      ensures outcome == Some(ProviderFailure) ==> journal.Some? && journal.value.Failed?
      ensures outcome.Some? && outcome.value.Completed? ==>
        outcome.value.result == result && Phase(journal) == 4 && journal.value.call == call && journal.value.result == result
      ensures outcome.None? ==>
        && journal == old(journal) && log == old(log) && nextAt in past && execution in nextAt.contexts
        && next == nextAt.contexts[execution] && current.revision < next.revision <= 1 + MAX_RANK
      ensures course.None? || course == old(course)
      ensures course == Some(Course(call.provider, registration, current.revision)) && current.lifecycle.Open? ==>
        outcome == Some(if Blocks(report) then OutputDenied else Completed(result))
    {
      hide Invariant.Inv, Runs.Later, Valid, Dispatches, Edge, ApprovedFor, Blocks, Flags;
      outcome, usedAfter, next, nextAt := Some(Stopped), interactionUsed, current, at;
      if current.lifecycle.Closed? {
        return;
      }
      var alive, allowed;
      alive, allowed, usedAfter := Authorize(Output, current, call.capacity, report, interactionUsed, false);
      if !alive {
        return;
      }
      if !allowed {
        alive := SaveDenied(call, Output, at);
        outcome := Some(if alive then OutputDenied else Stopped);
        return;
      }
      var round, reason;
      round, reason, next, nextAt := ReleaseRound(current, at, call, registration, result, stamp);
      match round
      case LetOut =>
        outcome := Some(Completed(result));
      case Withheld =>
        alive := SaveFailed(call, reason, at);
        outcome := Some(if alive then ProviderFailure else Stopped);
      case Lost =>
      case Again =>
        outcome := None;
    }

    /**
     * Reviews the output until it is refused, or released at a revision that
     * was authorised and observed. Every further round follows a rise of the
     * classification, so there are at most four.
     */
    method ReleaseOutput(call: Call, registration: Registration, result: ModelResult, report: Scanners.Report,
                         stamp: Exec.Stamp)
      returns (outcome: Outcome, ghost rounds: nat)
      requires Valid() && Phase(journal) == 3 && journal.value.call == call && journal.value.usage == result.usage
      requires recorded == ledger == [result.usage]
      modifies this`providers, this`revoked, this`nextRegistration, this`aborted, this`ownerAborted, this`course, this`approvals,
        this`asks, this`past, this`journal, this`log, service
      ensures Valid() && old(log) <= log && old(past) <= past
      ensures Dispatches(log) == Dispatches(old(log)) && asks == old(asks)
      ensures rounds <= 1 + MAX_RANK
      ensures outcome in {Completed(result), OutputDenied, ProviderFailure, Stopped}
      ensures outcome.OutputDenied? ==> journal == Some(Denied(call, Output)) && Blocks(report)
      ensures Blocks(report) ==> !outcome.Completed? && Phase(journal) != 4
      ensures outcome.ProviderFailure? ==> journal.Some? && journal.value.Failed?
      ensures outcome.Completed? ==> Phase(journal) == 4 && journal.value.call == call && journal.value.result == result
      ensures course.None? || course == old(course)
      ensures course.Some? && IsFor(course.value, call, registration) ==>
        outcome == if Blocks(report) then OutputDenied else Completed(result)
    {
      hide Invariant.Inv, Runs.Later, Valid, Dispatches, Edge, ApprovedFor, Blocks, Flags;
      rounds := 0;
      var read, at := ReadSecurity();
      if read.None? {
        return Stopped, rounds;
      }
      var current := read.value;
      var interactionUsed := false;
      RevisionStands(at);
      while true
        invariant Valid() && at in past && execution in at.contexts && current == at.contexts[execution]
        invariant journal == old(journal) && log == old(log) && old(past) <= past && asks == old(asks)
        invariant 0 <= rounds < current.revision <= 1 + MAX_RANK
        invariant course.None? || course == old(course)
        invariant course.Some? && IsFor(course.value, call, registration) ==>
          current.revision == course.value.revision && current.lifecycle.Open?
        decreases 1 + MAX_RANK - current.revision
      {
        rounds := rounds + 1;
        var ended, next: Exec.Context;
        ghost var nextAt;
        ended, interactionUsed, next, nextAt :=
          ReviewRound(current, at, call, registration, result, report, interactionUsed, stamp);
        if ended.Some? {
          return ended.value, rounds;
        }
        current, at := next, nextAt;
      }
    }

    /** Hands approved tokens to the observer, one at a time. */
    method Deliver(tokens: seq<string>) returns (alive: bool)
      requires Valid() && Phase(journal) == 4 && Joined(tokens) == Text(journal.value.result)
      modifies this`providers, this`revoked, this`nextRegistration, this`aborted, this`ownerAborted, this`course, this`delivered, service
      ensures Valid() && old(delivered) <= delivered
      ensures Joined(delivered[|old(delivered)|..]) <= Text(journal.value.result)
      ensures alive ==> Joined(delivered[|old(delivered)|..]) == Text(journal.value.result)
      ensures course.None? || (course == old(course) && alive)
    {
      hide Invariant.Inv, Runs.Later, Valid;
      alive := true;
      for i := 0 to |tokens|
        invariant Valid() && delivered == old(delivered) + tokens[..i] && (course.None? || course == old(course))
      {
        assert tokens[..i + 1] == tokens[..i] + [tokens[i]];
        JoinedPrefix(tokens, i + 1);
        delivered := delivered + [tokens[i]];
        assert delivered[|old(delivered)|..] == tokens[..i + 1];
        alive := Await();
        if !alive {
          return;
        }
      }
      assert tokens[..|tokens|] == tokens;
      assert delivered[|old(delivered)|..] == tokens;
      alive := true;
    }

    /** The registered provider and model that a fresh operation runs on. */
    method ResolveTarget(provider: Option<string>, model: Option<string>) returns (r: Option<(string, string)>)
      ensures r.Some? ==>
        && r.value.0 in providers && r.value.1 in providers[r.value.0].models
        && (provider.Some? ==> r.value.0 == provider.value) && (model.Some? ==> r.value.1 == model.value)
      ensures CanServe(Request(provider, model, "")) ==> r.Some?
    {
      if provider.Some? {
        if provider.value !in providers || providers[provider.value].models == [] {
          return None;
        }
        var m := if model.Some? then model.value else providers[provider.value].models[0];
        return if m in providers[provider.value].models then Some((provider.value, m)) else None;
      }
      // The first match in registration order, or a preferred one: any that fits.
      var p: string, m: string := *, *;
      if p in providers && m in providers[p].models && (model.Some? ==> m == model.value) {
        return Some((p, m));
      }
      return None;
    }

    /** A record of another registration is not taken over when that one was revoked, or had another capacity. */
    predicate TakeoverRefused(before: Option<Record>, gone: set<nat>, registration: Registration) {
      && before.Some? && before.value.call.registration != registration.id
      && (before.value.call.registration in gone || before.value.call.capacity != registration.capacity)
    }

    /** Makes sure the key is prepared under the current registration of its provider. */
    method Prepare(call: Call, registration: Registration, ghost at: Exec.State) returns (alive: bool)
      requires Valid() && at in past && execution in at.contexts && call.registration == registration.id
      requires journal.Some? ==> journal.value.Prepared? && journal.value.call.digest == call.digest
      modifies this`providers, this`revoked, this`nextRegistration, this`aborted, this`ownerAborted, this`course, this`journal,
        this`log, service
      ensures Valid() && old(log) <= log && NothingSent(old(log), log)
      ensures alive ==> IsPrepared(call) && journal.value.call.registration == registration.id
      ensures TakeoverRefused(old(journal), old(revoked), registration) ==> !alive && journal == old(journal) && log == old(log)
      ensures old(journal).Some? && !TakeoverRefused(old(journal), old(revoked), registration) ==>
        || journal == Some(Prepared(old(journal).value.call.(registration := registration.id)))
        || (!alive && journal == old(journal) && log == old(log))
      ensures old(journal).None? ==> journal in {None, Some(Prepared(call))}
      ensures course.None? || course == old(course)
      ensures course.Some? && (old(journal).Some? ==> old(journal).value.call.registration == registration.id) ==> alive
    {
      hide Invariant.Inv, Runs.Later, Dispatches, Releases, Path;
      if journal.Some? && journal.value.call.registration != registration.id {
        if journal.value.call.registration in revoked || journal.value.call.capacity != registration.capacity {
          return false;
        }
        var written: bool := *;
        if !written {
          Disturbed();
          return false;
        }
        RevisionStands(at);
        Save(Prepared(journal.value.call.(registration := registration.id)), true);
        alive := Await();
        if !alive {
          return;
        }
      }
      alive := Await();
      if !alive {
        return;
      }
      if journal.None? {
        RevisionStands(at);
        Save(Prepared(call), true);
        alive := Await();
        return;
      }
      alive := journal.value.Prepared?;
    }

    /** Why an answer is not taken: it is too large, no longer wanted or allowed, or not what was streamed. */
    function Rejection(call: Call, registration: Registration, held: seq<string>, result: ModelResult): Option<FailureCode>
      reads this`aborted, this`providers
    {
      if byteLength(encode(result)) > maxHeldBytes then Some(OutputTooLarge)
      else if aborted then Some(Aborted)
      else if !Registered(call.provider, registration) then Some(ProviderUnavailable)
      else if held != [] && Joined(held) != Text(result) then Some(StreamMismatch)
      else None
    }

    /** The provider rejected after its dispatch: what it reported of its usage is recorded, and then the failure. */
    method GiveUp(call: Call, partial: Option<Usage>, ghost at: Exec.State) returns (outcome: Outcome)
      requires Valid() && at in past && execution in at.contexts
      requires Phase(journal) == 2 && journal.value.call == call && Dispatches(log) == 1 && recorded == ledger == []
      modifies this`journal, this`log, this`course, this`ledger, this`recorded, this`recordedIn
      ensures Valid() && old(log) <= log && (outcome.ProviderFailure? || outcome.Stopped?)
      ensures journal == old(journal) || journal == Some(Failed(call, if aborted then Aborted else ProviderFailed))
      ensures recorded == ledger && (ledger == [] || (partial.Some? && ledger == [partial.value]))
      ensures outcome.ProviderFailure? || journal != old(journal) ==>
        journal != old(journal) && ledger == if partial.Some? then [partial.value] else []
      ensures course.None? || (course == old(course) && outcome == ProviderFailure)
    {
      hide Invariant.Inv, Runs.Later, Valid, Dispatches;
      if partial.Some? {
        var recorded := RecordUsage(partial.value);
        if !recorded {
          return Stopped;
        }
      }
      var saved := SaveFailed(call, if aborted then Aborted else ProviderFailed, at);
      return if saved then ProviderFailure else Stopped;
    }

    predicate IsFor(course: Course, call: Call, registration: Registration) {
      course.Course? && course.provider == call.provider && course.registration == registration
    }

    /** What the provider streams is not more than is held. */
    predicate Holds(script: seq<ProviderAction>) {
      Streamed(script).Some? ==> HeldBytes(byteLength, Streamed(script).value) <= maxHeldBytes
    }

    /** The result is not too large, and it is what was streamed, if anything was. */
    predicate Takes(held: seq<string>, result: ModelResult) {
      byteLength(encode(result)) <= maxHeldBytes && (held != [] ==> Joined(held) == Text(result))
    }

    /** How a call ends that nobody interferes with, from what the scanners, the person and the provider say. */
    function Undisturbed(reviews: Reviews, script: seq<ProviderAction>, answer: Option<ModelResult>): Outcome {
      if MustStop(reviews) then InputDenied
      else if Streamed(script).None? || answer.None? || !Takes(Streamed(script).value, answer.value) then ProviderFailure
      else if Blocks(reviews.output) then OutputDenied
      else Completed(answer.value)
    }

    /** The usage that such a call records: that of the answer, or else what a committed provider has reported. */
    function Used(reviews: Reviews, script: seq<ProviderAction>, answer: Option<ModelResult>): seq<Usage> {
      if MustStop(reviews) || Streamed(script).None? then []
      else if answer.Some? then [answer.value.usage]
      else if Reported(script).Some? then [Reported(script).value] else []
    }

    ghost predicate GoesAsExpected(reviews: Reviews, script: seq<ProviderAction>, answer: Option<ModelResult>, outcome: Outcome)
      reads this`ledger
    {
      Holds(script) ==> outcome == Undisturbed(reviews, script, answer) && ledger == Used(reviews, script, answer)
    }

    /** The call was cancelled, or its provider is gone. */
    predicate Withdrawn(failure: Option<FailureCode>) {
      failure in {Some(Aborted), Some(ProviderUnavailable)}
    }

    /**
     * What the provider returned is checked, journalled, and its usage recorded:
     * first the journal and then the ledger, the other way round when the call
     * was withdrawn. The call may stop between the two.
     */
    method Settle(call: Call, registration: Registration, level: Level, revision: nat, held: seq<string>,
                  result: ModelResult, ghost at: Exec.State)
      returns (outcome: Option<Outcome>)
      requires Valid() && at in past && execution in at.contexts
      requires journal == Some(Dispatched(call, level, revision)) && Dispatches(log) == 1 && recorded == ledger == []
      modifies this`providers, this`revoked, this`nextRegistration, this`aborted, this`ownerAborted, this`course, this`journal, this`log,
        this`ledger, this`recorded, this`recordedIn, service
      ensures Valid() && old(log) <= log && Dispatches(log) == 1 && recorded == ledger <= [result.usage]
      ensures journal == old(journal) || journal == Some(
        if old(Rejection(call, registration, held, result)).Some?
        then Failed(call, old(Rejection(call, registration, held, result)).value)
        else OutputPending(call, level, revision, result.usage))
      ensures outcome in {None, Some(ProviderFailure), Some(Stopped)}
      ensures outcome != Some(Stopped) ==>
        && ledger == [result.usage] && journal != old(journal)
        && (outcome.None? <==> old(Rejection(call, registration, held, result)).None?)
      ensures if Withdrawn(old(Rejection(call, registration, held, result)))
              then journal != old(journal) ==> ledger == [result.usage]
              else ledger != [] ==> journal != old(journal)
      ensures outcome.None? ==>
        && byteLength(encode(result)) <= maxHeldBytes && !old(aborted) && (held != [] ==> Joined(held) == Text(result))
        && old(Registered(call.provider, registration))
      ensures course.None? || course == old(course)
      ensures course.Some? ==> outcome != Some(Stopped)
    {
      hide Invariant.Inv, Runs.Later, Valid, Dispatches, Joined, Text;
      var failure := Rejection(call, registration, held, result);
      if Withdrawn(failure) {
        var recorded := RecordUsage(result.usage);
        if !recorded {
          return Some(Stopped);
        }
        var alive := SaveFailed(call, failure.value, at);
        return Some(if alive then ProviderFailure else Stopped);
      }
      var alive: bool;
      if failure.Some? {
        alive := SaveFailed(call, failure.value, at);
      } else {
        alive := *;
        if !alive {
          Disturbed();
        }
        if alive {
          RevisionStands(at);
          Save(OutputPending(call, level, revision, result.usage), true);
        }
      }
      if alive {
        alive := Await();
      }
      if alive {
        alive := RecordUsage(result.usage);
      }
      return if !alive then Some(Stopped) else if failure.Some? then Some(ProviderFailure) else None;
    }

    /** The request names another target than the record's, or its digest differs. */
    predicate Mismatched(record: Record, request: Request) {
      var c := record.call;
      || (request.provider.Some? && request.provider.value != c.provider)
      || (request.model.Some? && request.model.value != c.model)
      || c.digest != RequestDigest(c.provider, c.model, request.input)
    }

    /** The answer that the journal alone gives to a request, if it gives one; otherwise the target to run. */
    method AnswerFromJournal(request: Request) returns (answer: Option<Outcome>, target: (string, string))
      requires Valid()
      modifies this`providers, this`revoked, this`nextRegistration, this`aborted, this`ownerAborted, this`course, this`delivered, service
      ensures Valid()
      ensures answer.Some? ==> AnsweredRightly(answer.value, old(delivered))
      ensures answer.None? ==>
        && Phase(journal) <= 1
        && (journal.Some? ==> journal.value.call.digest == RequestDigest(target.0, target.1, request.input))
      ensures answer == Some(Conflict) <==> journal.Some? && !Answers(journal.value.call, request)
      ensures answer.Some? && Phase(journal) > 1 ==> RecordDecides(journal.value, request, answer.value)
      ensures answer.Some? && Phase(journal) <= 1 ==> answer.value.Conflict? || (answer.value.Unavailable? && journal.None?)
      ensures Phase(journal) == 1 && answer.None? ==> target == (journal.value.call.provider, journal.value.call.model)
      ensures course.None? || (course == old(course) && answer != Some(Stopped))
      ensures Phase(journal) <= 1 ==> delivered == old(delivered)
      ensures journal.None? && old(CanServe(request)) ==> answer == None && target == (request.provider.value, request.model.value)
    {
      hide Invariant.Inv, Runs.Later, Joined;
      if journal.None? {
        var resolved := ResolveTarget(request.provider, request.model);
        if resolved.None? {
          return Some(Unavailable), ("", "");
        }
        return None, resolved.value;
      }
      var c := journal.value.call;
      target := (c.provider, c.model);
      if Mismatched(journal.value, request) {
        return Some(Conflict), target;
      }
      match journal.value
      case Released(_, _, _, result) =>
        JoinedOne(Text(result));
        var alive := Deliver(if Text(result) != "" then [Text(result)] else []);
        return Some(if alive then Replayed(result) else Stopped), target;
      case Denied(_, stage) =>
        return Some(if stage.Output? then OutputDenied else InputDenied), target;
      case Dispatched(_, _, _) =>
        return Some(Indeterminate), target;
      case OutputPending(_, _, _, _) =>
        return Some(Indeterminate), target;
      case Failed(_, _) =>
        return Some(ProviderFailure), target;
      case Prepared(_) =>
        return None, target;
    }

    /**
     * Tokens are delivered only once the journal holds their release, and are its text; a completion
     * has delivered all of it and has its usage in the ledger; a replay has delivered all of it again; and
     * a denial is in the journal.
     */
    ghost predicate AnsweredRightly(outcome: Outcome, before: seq<string>)
      reads this`journal, this`delivered, this`ledger
    {
      && before <= delivered
      && (delivered != before ==> Phase(journal) == 4 && Joined(delivered[|before|..]) <= Text(journal.value.result))
      && (outcome.Completed? ==>
            && Phase(journal) == 4 && journal.value.result == outcome.result
            && Joined(delivered[|before|..]) == Text(outcome.result) && ledger == [outcome.result.usage])
      && (outcome.Replayed? ==>
            && Phase(journal) == 4 && journal.value.result == outcome.result
            && Joined(delivered[|before|..]) == Text(outcome.result))
      && (outcome.InputDenied? || outcome.OutputDenied? ==>
            journal.Some? && journal.value.Denied? && journal.value.stage == if outcome.InputDenied? then Input else Output)
    }

    /**
     * What the scanners and the person have said is kept to: an input that must stop calls no
     * provider and sends nothing, a blocked output is neither released nor delivered, and nothing
     * is denied without cause.
     */
    ghost predicate ReviewedRightly(reviews: Reviews, outcome: Outcome, deliveredBefore: seq<string>, callsBefore: nat,
                                    logBefore: seq<Entry>)
      reads this`journal, this`delivered, this`providerCalls, this`log
    {
      && (MustStop(reviews) ==>
            && providerCalls == callsBefore && NothingSent(logBefore, log) && delivered == deliveredBefore
            && outcome in {InputDenied, Stopped, Unavailable, Conflict})
      && (Blocks(reviews.output) ==> !outcome.Completed? && Phase(journal) != 4 && delivered == deliveredBefore)
      && (outcome == InputDenied ==> Blocks(reviews.input) || Flags(reviews.input))
      && (outcome == OutputDenied ==> Blocks(reviews.output))
    }

    /** Nothing was delivered or released; what is answered has its cause. */
    lemma NothingDone(reviews: Reviews, outcome: Outcome, callsBefore: nat, logBefore: seq<Entry>)
      requires Phase(journal) != 4 && outcome in {Stopped, Unavailable, Conflict, InputDenied, ProviderFailure}
      requires MustStop(reviews) ==> !outcome.ProviderFailure? && providerCalls == callsBefore && NothingSent(logBefore, log)
      requires outcome == InputDenied ==>
        && journal.Some? && journal.value.Denied? && journal.value.stage == Input
        && (Blocks(reviews.input) || Flags(reviews.input))
      ensures AnsweredRightly(outcome, delivered) && ReviewedRightly(reviews, outcome, delivered, callsBefore, logBefore)
    {
      assert delivered[|delivered|..] == [];
    }

    lemma NothingAnswered(outcome: Outcome)
      requires outcome.ProviderFailure? || outcome.Stopped?
      ensures AnsweredRightly(outcome, delivered)
    {
      assert delivered[|delivered|..] == [];
    }

    lemma StoppedAsExpected(reviews: Reviews, script: seq<ProviderAction>, answer: Option<ModelResult>)
      requires MustStop(reviews) && ledger == []
      ensures GoesAsExpected(reviews, script, answer, InputDenied)
    {
    }

    lemma SentSince(reviews: Reviews, outcome: Outcome, deliveredBefore: seq<string>, callsBefore: nat, logBefore: seq<Entry>,
                    logThen: seq<Entry>)
      requires NothingSent(logBefore, logThen)
      requires ReviewedRightly(reviews, outcome, deliveredBefore, callsBefore, logThen)
      ensures ReviewedRightly(reviews, outcome, deliveredBefore, callsBefore, logBefore)
    {
    }

    /** From a settled provider to the outcome. answer is what it resolved to, or None when it rejected. */
    method Finish(call: Call, registration: Registration, ghost at: Exec.State, level: Level, revision: nat,
                  held: seq<string>, partial: Option<Usage>, answer: Option<ModelResult>, report: Scanners.Report,
                  stamp: Exec.Stamp)
      returns (outcome: Outcome, ghost rounds: nat)
      requires Valid() && at in past && execution in at.contexts
      requires journal == Some(Dispatched(call, level, revision)) && Dispatches(log) == 1 && recorded == ledger == []
      modifies this`providers, this`revoked, this`nextRegistration, this`aborted, this`ownerAborted, this`course, this`approvals,
        this`asks, this`past, this`journal, this`log, this`ledger, this`recorded, this`recordedIn, this`delivered, service
      ensures Valid() && old(log) <= log && rounds <= 1 + MAX_RANK && asks == old(asks)
      ensures AnsweredRightly(outcome, old(delivered))
      ensures Blocks(report) ==> !outcome.Completed? && Phase(journal) != 4 && delivered == old(delivered)
      ensures outcome != InputDenied && (outcome == OutputDenied ==> Blocks(report))
      ensures course.None? || course == old(course)
      ensures course.Some? && IsFor(course.value, call, registration) ==>
        if answer.None? then outcome == ProviderFailure && ledger == if partial.Some? then [partial.value] else []
        else
          && ledger == [answer.value.usage]
          && outcome == if !Takes(held, answer.value) then ProviderFailure
                        else if Blocks(report) then OutputDenied else Completed(answer.value)
    {
      hide Invariant.Inv, Runs.Later, Joined, Dispatches, Releases, Valid, Text, Billed, LedgerOfProcess, Path, Edge, Blocks;
      rounds := 0;
      if answer.None? {
        outcome := GiveUp(call, partial, at);
        return;
      }
      outcome, rounds := TakeAnswer(call, registration, at, level, revision, held, answer.value, report, stamp);
    }

    /** What the provider returned is settled, and published unless that failed. */
    method TakeAnswer(call: Call, registration: Registration, ghost at: Exec.State, level: Level, revision: nat,
                      held: seq<string>, result: ModelResult, report: Scanners.Report, stamp: Exec.Stamp)
      returns (outcome: Outcome, ghost rounds: nat)
      requires Valid() && at in past && execution in at.contexts
      requires journal == Some(Dispatched(call, level, revision)) && Dispatches(log) == 1 && recorded == ledger == []
      modifies this`providers, this`revoked, this`nextRegistration, this`aborted, this`ownerAborted, this`course, this`approvals,
        this`asks, this`past, this`journal, this`log, this`ledger, this`recorded, this`recordedIn, this`delivered, service
      ensures Valid() && old(log) <= log && rounds <= 1 + MAX_RANK && asks == old(asks)
      ensures AnsweredRightly(outcome, old(delivered))
      ensures Blocks(report) ==> !outcome.Completed? && Phase(journal) != 4 && delivered == old(delivered)
      ensures outcome != InputDenied && (outcome == OutputDenied ==> Blocks(report))
      ensures course.None? || course == old(course)
      ensures course.Some? && IsFor(course.value, call, registration) ==>
        && ledger == [result.usage]
        && outcome == if !Takes(held, result) then ProviderFailure else if Blocks(report) then OutputDenied else Completed(result)
    {
      hide Invariant.Inv, Runs.Later, Joined, Dispatches, Releases, Valid, Text, Billed, LedgerOfProcess, Path, Edge, Blocks,
        AnsweredRightly;
      rounds := 0;
      StillOnCourse();
      var settled := Settle(call, registration, level, revision, held, result, at);
      NothingAnswered(Stopped);
      if settled.Some? {
        NothingAnswered(settled.value);
        return settled.value, rounds;
      }
      var alive := Await();
      if !alive {
        return Stopped, rounds;
      }
      outcome, rounds := Publish(call, registration, at, held, result, report, stamp);
    }

    /** A settled answer is reviewed, released and delivered, unless it is refused or withdrawn. */
    method Publish(call: Call, registration: Registration, ghost at: Exec.State, held: seq<string>, result: ModelResult,
                   report: Scanners.Report, stamp: Exec.Stamp)
      returns (outcome: Outcome, ghost rounds: nat)
      requires Valid() && at in past && execution in at.contexts
      requires Phase(journal) == 3 && journal.value.call == call && journal.value.usage == result.usage
      requires recorded == ledger == [result.usage] && (held != [] ==> Joined(held) == Text(result))
      modifies this`providers, this`revoked, this`nextRegistration, this`aborted, this`ownerAborted, this`course, this`approvals,
        this`asks, this`past, this`journal, this`log, this`delivered, service
      ensures Valid() && old(log) <= log && rounds <= 1 + MAX_RANK && asks == old(asks)
      ensures AnsweredRightly(outcome, old(delivered))
      ensures Blocks(report) ==> !outcome.Completed? && Phase(journal) != 4 && delivered == old(delivered)
      ensures outcome != InputDenied && (outcome == OutputDenied ==> Blocks(report))
      ensures course.None? || course == old(course)
      ensures course.Some? && IsFor(course.value, call, registration) ==>
        outcome == if Blocks(report) then OutputDenied else Completed(result)
    {
      hide Invariant.Inv, Runs.Later, Joined, Dispatches, Releases, Valid, Text, Billed, LedgerOfProcess, Path, Edge, Blocks;
      outcome, rounds := ReleaseOutput(call, registration, result, report, stamp);
      if !outcome.Completed? {
        return outcome, rounds;
      }
      StillOnCourse();
      var blocked := BlockReason(call.provider, registration);
      if blocked.Some? {
        var saved := SaveFailed(call, blocked.value, at);
        return if saved then ProviderFailure else Stopped, rounds;
      }
      JoinedOne(Text(result));
      var alive := Deliver(if held != [] then held else if Text(result) != "" then [Text(result)] else []);
      return if alive then Completed(result) else Stopped, rounds;
    }

    /** An input that was approved goes to the provider. */
    method Ask(initial: Exec.Context, ghost at: Exec.State, call: Call, registration: Registration, inputUsed: bool,
               script: seq<ProviderAction>, answer: Option<ModelResult>, reviews: Reviews, stamp: Exec.Stamp)
      returns (outcome: Outcome, ghost rounds: (nat, nat))
      requires Valid() && at in past && execution in at.contexts && initial == at.contexts[execution]
      requires IsPrepared(call) && call.registration == registration.id && recorded == ledger == [] && !MustStop(reviews)
      requires ApprovedFor(approvals, Input, initial.revision, initial.level)
      modifies this`providers, this`revoked, this`nextRegistration, this`aborted, this`ownerAborted, this`course, this`approvals,
        this`asks, this`past, this`journal, this`log, this`ledger, this`recorded, this`recordedIn, this`delivered,
        this`providerCalls, service
      ensures Valid() && old(log) <= log
      ensures rounds.0 <= 1 + MAX_RANK && rounds.1 <= 1 + MAX_RANK
      ensures old(asks) <= asks <= old(asks) + (if inputUsed then 0 else 1)
      ensures providerCalls <= old(providerCalls) + 1
      ensures AnsweredRightly(outcome, old(delivered))
      ensures ReviewedRightly(reviews, outcome, old(delivered), old(providerCalls), old(log))
      ensures course.None? || course == old(course)
      ensures course == Some(Course(call.provider, registration, initial.revision)) ==>
        GoesAsExpected(reviews, script, answer, outcome)
    {
      hide Invariant.Inv, Runs.Later, Joined, Dispatches, Releases, Valid, Text, Billed, LedgerOfProcess, Path, Edge, HeldBytes, Blocks,
        Flags, ApprovedFor, AnsweredRightly;
      var permit, level, revision, held, partial, commits :=
        RunProvider(initial, at, call, registration, reviews.input, inputUsed, reviews.agrees, script);
      rounds := (commits, 0);
      if permit.None? {
        var passedOn: bool := *;
        outcome := if answer.Some? || !passedOn then ProviderFailure else if journal.value.Denied? then InputDenied else Stopped;
        NothingDone(reviews, outcome, old(providerCalls), old(log));
        return;
      }
      if permit.value != Consumed {
        outcome := ProviderFailure;
        NothingDone(reviews, outcome, old(providerCalls), old(log));
        return;
      }
      ghost var releases;
      outcome, releases := Finish(call, registration, at, level, revision, held, partial, answer, reviews.output, stamp);
      rounds := (commits, releases);
    }

    /** From a prepared key to the outcome. */
    method Attempt(initial: Exec.Context, ghost at: Exec.State, call: Call, registration: Registration,
                   script: seq<ProviderAction>, answer: Option<ModelResult>, reviews: Reviews, stamp: Exec.Stamp)
      returns (outcome: Outcome, ghost rounds: (nat, nat))
      requires Valid() && at in past && execution in at.contexts && initial == at.contexts[execution]
      requires IsPrepared(call) && call.registration == registration.id
      modifies this`providers, this`revoked, this`nextRegistration, this`aborted, this`ownerAborted, this`course, this`approvals,
        this`asks, this`past, this`journal, this`log, this`ledger, this`recorded, this`recordedIn, this`delivered,
        this`providerCalls, service
      ensures Valid() && old(log) <= log
      ensures rounds.0 <= 1 + MAX_RANK && rounds.1 <= 1 + MAX_RANK && asks <= old(asks) + 1
      ensures providerCalls <= old(providerCalls) + 1
      ensures AnsweredRightly(outcome, old(delivered))
      ensures ReviewedRightly(reviews, outcome, old(delivered), old(providerCalls), old(log))
      ensures course.None? || course == old(course)
      ensures course == Some(Course(call.provider, registration, initial.revision)) ==>
        GoesAsExpected(reviews, script, answer, outcome)
    {
      hide Invariant.Inv, Runs.Later, Dispatches, Releases, Valid, Text, Billed, LedgerOfProcess, Path, Edge, Blocks, Flags,
        ApprovedFor, AnsweredRightly, ReviewedRightly, GoesAsExpected;
      rounds := (0, 0);
      NoUsageYet();
      outcome := Stopped;
      var alive := Await();
      NothingDone(reviews, outcome, providerCalls, old(log));
      if !alive {
        return;
      }
      var allowed, inputUsed;
      alive, allowed, inputUsed := Authorize(Input, initial, registration.capacity, reviews.input, false, reviews.agrees);
      if alive && allowed {
        outcome, rounds := Ask(initial, at, call, registration, inputUsed, script, answer, reviews, stamp);
        return;
      }
      if alive {
        StoppedAsExpected(reviews, script, answer);
        outcome := Deny(call, at);
      }
      NothingDone(reviews, outcome, providerCalls, old(log));
    }

    /** The input is denied, and its caller told so once that is in the journal. */
    method Deny(call: Call, ghost at: Exec.State) returns (outcome: Outcome)
      requires Valid() && at in past && execution in at.contexts && IsPrepared(call)
      modifies this`journal, this`log, this`course
      ensures Valid() && old(log) <= log && NothingSent(old(log), log) && Phase(journal) != 4
      ensures outcome.InputDenied? || outcome.Stopped?
      ensures outcome.InputDenied? ==> journal == Some(Denied(call, Input))
      ensures course.None? || (course == old(course) && outcome.InputDenied?)
    {
      hide Valid;
      var alive := SaveDenied(call, Input, at);
      outcome := if alive then InputDenied else Stopped;
    }

    /** Prepares the key for its target and attempts the call. */
    method OnTarget(initial: Exec.Context, ghost at: Exec.State, target: (string, string), input: string,
                    script: seq<ProviderAction>, answer: Option<ModelResult>, reviews: Reviews,
                   stamp: Exec.Stamp)
      returns (outcome: Outcome, ghost rounds: (nat, nat))
      requires Valid() && at in past && execution in at.contexts && initial == at.contexts[execution]
      requires Phase(journal) <= 1
      requires journal.Some? ==> journal.value.call.digest == RequestDigest(target.0, target.1, input)
      modifies this`providers, this`revoked, this`nextRegistration, this`aborted, this`ownerAborted, this`course, this`approvals,
        this`asks, this`past, this`journal, this`log, this`ledger, this`recorded, this`recordedIn, this`delivered,
        this`providerCalls, service
      ensures Valid() && old(log) <= log
      ensures rounds.0 <= 1 + MAX_RANK && rounds.1 <= 1 + MAX_RANK && asks <= old(asks) + 1
      ensures providerCalls <= old(providerCalls) + 1
      ensures AnsweredRightly(outcome, old(delivered))
      ensures ReviewedRightly(reviews, outcome, old(delivered), old(providerCalls), old(log))
      ensures course.None? || course == old(course)
      ensures course.Some? && course.value.Course? && course.value.provider == target.0 && course.value.revision == initial.revision
              && target.1 in course.value.registration.models
              && (old(journal).Some? ==> old(journal).value.call.registration == course.value.registration.id)
              ==>
        GoesAsExpected(reviews, script, answer, outcome)
    {
      hide Invariant.Inv, Runs.Later, Joined, Dispatches, Releases, Valid, Text, Billed, LedgerOfProcess, Path, Edge, TakeoverRefused, Blocks, Flags,
        AnsweredRightly, ReviewedRightly, MustStop;
      rounds := (0, 0);
      StillOnCourse();
      if target.0 !in providers || target.1 !in providers[target.0].models {
        NothingDone(reviews, Unavailable, providerCalls, old(log));
        return Unavailable, rounds;
      }
      var registration := providers[target.0];
      var call := Call(RequestDigest(target.0, target.1, input), target.0, registration.id, target.1, registration.capacity);
      var alive := Prepare(call, registration, at);
      if !alive {
        NothingDone(reviews, Stopped, providerCalls, old(log));
        return Stopped, rounds;
      }
      ghost var prepared := log;
      outcome, rounds := Attempt(initial, at, call, registration, script, answer, reviews, stamp);
      SentSince(reviews, outcome, old(delivered), old(providerCalls), old(log), prepared);
    }

    method Begin(alreadyAborted: bool, ghost setting: Option<Course>)
      requires Valid()
      requires setting.Some? ==>
        && !alreadyAborted && OpenFor() && service.contexts[execution].revision == setting.value.revision
        && (setting.value.Course? ==> Registered(setting.value.provider, setting.value.registration))
      modifies this`aborted, this`ownerAborted, this`course, this`approvals
      ensures Valid() && aborted == alreadyAborted && approvals == {} && course == setting
    {
      aborted, ownerAborted, approvals, course := alreadyAborted, false, {}, setting;
    }

    /** A call begins, unless it was cancelled before or its execution is closed. */
    method Admit(alreadyAborted: bool, ghost setting: Option<Course>) returns (read: Option<Exec.Context>, ghost at: Exec.State)
      requires Valid()
      requires setting.Some? ==>
        && !alreadyAborted && OpenFor() && service.contexts[execution].revision == setting.value.revision
        && (setting.value.Course? ==> Registered(setting.value.provider, setting.value.registration))
      modifies this`providers, this`revoked, this`nextRegistration, this`aborted, this`ownerAborted, this`course, this`past, this`approvals,
        service
      ensures Valid()
      ensures read.Some? ==>
        at in past && execution in at.contexts && read.value == at.contexts[execution] && read.value.lifecycle.Open?
      ensures alreadyAborted || old(ClosedFor()) ==> read.None?
      ensures course.None? || course == setting
      ensures course.Some? ==> read.Some? && read.value.revision == setting.value.revision
    {
      hide Invariant.Inv, Runs.Later, Valid;
      Begin(alreadyAborted, setting);
      at := service.State();
      if aborted {
        return None, at;
      }
      read, at := ReadSecurity();
      if read.Some? && read.value.lifecycle.Closed? {
        return None, at;
      }
      var alive := Await();
      if !alive {
        read := None;
      }
    }

    /** The execution is the caller's, and open. */
    ghost predicate OpenFor()
      reads service
    {
      && execution in service.contexts && service.contexts[execution].owner == owner
      && service.contexts[execution].lifecycle.Open?
    }

    /** The request names a registered provider and one of its models. */
    predicate CanServe(request: Request)
      reads this`providers
    {
      && request.provider.Some? && request.provider.value in providers
      && request.model.Some? && request.model.value in providers[request.provider.value].models
    }

    /** The target that a request is for, if it can be served: the one it names, or the one the key was prepared for. */
    function TargetOf(request: Request): Option<(string, string)>
      requires Phase(journal) <= 1
      reads this`journal, this`providers
    {
      if journal.None? then
        if CanServe(request) then Some((request.provider.value, request.model.value)) else None
      else
        var call := journal.value.call;
        if Answers(call, request) && call.provider in providers && providers[call.provider].id == call.registration
           && call.model in providers[call.provider].models
        then Some((call.provider, call.model))
        else None
    }

    /** What the call can count on that is about to begin. */
    ghost function Setting(request: Request, alreadyAborted: bool): Option<Course>
      reads this`journal, this`providers, service
    {
      if alreadyAborted || !OpenFor() then None
      else if Phase(journal) > 1 then Some(Answering(service.contexts[execution].revision))
      else
        var target := TargetOf(request);
        if target.None? then None
        else Some(Course(target.value.0, providers[target.value.0], service.contexts[execution].revision))
    }

    /** The execution is there and closed. */
    ghost predicate ClosedFor()
      reads service
    {
      execution in service.contexts && service.contexts[execution].lifecycle.Closed?
    }

    /** Completes the operation; rounds counts the iterations of the two retry loops. */
    method Complete(request: Request, script: seq<ProviderAction>, answer: Option<ModelResult>, reviews: Reviews,
                    alreadyAborted: bool, stamp: Exec.Stamp)
      returns (outcome: Outcome, ghost rounds: (nat, nat))
      requires Valid()
      modifies this, service
      ensures Valid() && old(log) <= log
      ensures rounds.0 <= 1 + MAX_RANK && rounds.1 <= 1 + MAX_RANK
      ensures asks <= old(asks) + 1
      ensures providerCalls <= old(providerCalls) + (if Phase(old(journal)) <= 1 then 1 else 0)
      ensures Phase(old(journal)) > 1 ==> log == old(log) && journal == old(journal) && ledger == old(ledger)
      ensures process == old(process)
      ensures AnsweredRightly(outcome, old(delivered))
      ensures Phase(journal) == 4 ==>
        recorded == [journal.value.result.usage] && ledger == if recordedIn == process then recorded else []
      ensures outcome.Completed? ==> recordedIn == process
      ensures Phase(old(journal)) <= 1 ==>
        ReviewedRightly(reviews, outcome, old(delivered), old(providerCalls), old(log))
      ensures Phase(old(journal)) > 1 ==> RecordDecides(old(journal).value, request, outcome)
      ensures alreadyAborted || old(ClosedFor()) ==> outcome == Stopped && log == old(log) && providerCalls == old(providerCalls)
      ensures course.Some? ==> !alreadyAborted && old(OpenFor()) && (Phase(old(journal)) <= 1 ==> old(TargetOf(request)).Some?)
      ensures course.Some? && Phase(old(journal)) <= 1 ==>
        GoesAsExpected(reviews, script, answer, outcome)
      ensures course.Some? && Phase(old(journal)) > 1 ==> outcome != Stopped
    {
      hide Invariant.Inv, Runs.Later, Joined, Dispatches, Releases, Valid, Text, Billed, LedgerOfProcess, Path, Edge, Blocks, Flags,
        AnsweredRightly, ReviewedRightly, MustStop, RecordDecides;
      rounds := (0, 0);
      ghost var setting := Setting(request, alreadyAborted);
      var read, at := Admit(alreadyAborted, setting);
      if read.None? {
        outcome := Stopped;
        Halted(request, reviews, old(providerCalls), old(log));
      } else {
        StillOnCourse();
        outcome, rounds := Resume(read.value, at, request, script, answer, reviews, stamp);
      }
      Accounted(outcome, old(delivered));
    }

    /** The answer of the journal, or else an attempt for its target. */
    method Resume(initial: Exec.Context, ghost at: Exec.State, request: Request, script: seq<ProviderAction>,
                  answer: Option<ModelResult>, reviews: Reviews, stamp: Exec.Stamp)
      returns (outcome: Outcome, ghost rounds: (nat, nat))
      requires Valid() && at in past && execution in at.contexts && initial == at.contexts[execution]
      modifies this`providers, this`revoked, this`nextRegistration, this`aborted, this`ownerAborted, this`course, this`approvals,
        this`asks, this`past, this`journal, this`log, this`ledger, this`recorded, this`recordedIn, this`delivered,
        this`providerCalls, service
      ensures Valid() && old(log) <= log
      ensures rounds.0 <= 1 + MAX_RANK && rounds.1 <= 1 + MAX_RANK && asks <= old(asks) + 1
      ensures providerCalls <= old(providerCalls) + (if Phase(old(journal)) <= 1 then 1 else 0)
      ensures Phase(old(journal)) > 1 ==> log == old(log) && journal == old(journal) && ledger == old(ledger)
      ensures AnsweredRightly(outcome, old(delivered))
      ensures Phase(old(journal)) <= 1 ==>
        ReviewedRightly(reviews, outcome, old(delivered), old(providerCalls), old(log))
      ensures Phase(old(journal)) > 1 ==> RecordDecides(old(journal).value, request, outcome)
      ensures course.None? || course == old(course)
      ensures course.Some? && Phase(old(journal)) > 1 ==> outcome != Stopped
      ensures course.Some? && Phase(old(journal)) <= 1 && old(TargetOf(request)).Some?
              && course.value.Course? && course.value.provider == old(TargetOf(request)).value.0
              && old(TargetOf(request)).value.1 in course.value.registration.models
              && (old(journal).Some? ==> old(journal).value.call.registration == course.value.registration.id)
              && course.value.revision == initial.revision ==>
        GoesAsExpected(reviews, script, answer, outcome)
    {
      hide Invariant.Inv, Runs.Later, Joined, Dispatches, Releases, Valid, Text, Billed, LedgerOfProcess, Path, Edge, Blocks, Flags,
        AnsweredRightly, ReviewedRightly, MustStop, RecordDecides;
      rounds := (0, 0);
      var answered, target := AnswerFromJournal(request);
      if answered.None? {
        outcome, rounds := OnTarget(initial, at, target, request.input, script, answer, reviews, stamp);
        return;
      }
      outcome := answered.value;
      if Phase(journal) <= 1 {
        NothingDone(reviews, outcome, providerCalls, old(log));
      }
    }

    /** What the ledger holds of a released result; a completion has recorded its usage in this process. */
    lemma Accounted(outcome: Outcome, before: seq<string>)
      requires Valid() && AnsweredRightly(outcome, before)
      ensures Phase(journal) == 4 ==>
        recorded == [journal.value.result.usage] && ledger == if recordedIn == process then recorded else []
      ensures outcome.Completed? ==> recordedIn == process
    {
    }

    /** A call that stops before it did anything. */
    lemma Halted(request: Request, reviews: Reviews, callsBefore: nat, logBefore: seq<Entry>)
      requires providerCalls == callsBefore && log == logBefore
      ensures AnsweredRightly(Stopped, delivered)
      ensures Phase(journal) <= 1 ==> ReviewedRightly(reviews, Stopped, delivered, callsBefore, logBefore)
      ensures Phase(journal) > 1 ==> RecordDecides(journal.value, request, Stopped)
    {
      assert delivered[|delivered|..] == [];
    }

    /** The process dies and comes back: only the stores remain, and what had already left the process. */
    method Restart()
      requires Valid()
      modifies this`providers, this`revoked, this`ledger, this`course, this`process, service
      ensures Valid() && providers == map[] && revoked == {} && ledger == [] && process == old(process) + 1
    {
      hide Invariant.Inv, Runs.Later, Path, Authorized, Dispatches, Billed;
      Disturbed();
      providers, revoked, ledger, process := map[], {}, [], process + 1;
      ghost var before := service.State();
      service.Restart();
      Invariant.StepKeepsInv(service.hash, before, Exec.Restart);
      Runs.StepIsLater(service.hash, before, Exec.Restart);
      AllLater(past, before, service.State());
    }
  }

  lemma AuthorizedAppend(log: seq<Entry>, entry: Entry)
    requires (forall e <- log :: Authorized(e)) && Authorized(entry)
    ensures forall e <- log + [entry] :: Authorized(e)
  {
  }

  /** What came after earlier states still does after one more step. */
  lemma AllLater(past: set<Exec.State>, before: Exec.State, after: Exec.State)
    requires forall p <- past :: Runs.Later(p, before)
    requires Runs.Later(before, after)
    ensures forall p <- past :: Runs.Later(p, after)
  {
    hide Runs.Later;
    forall p <- past
      ensures Runs.Later(p, after)
    {
      Runs.LaterTransitive(p, before, after);
    }
  }

  lemma JoinedOne(text: string)
    ensures Joined([text]) == text && Joined([]) == ""
  {
    assert [text][..0] == [];
    assert "" + text == text;
  }

  datatype Attempt = Attempt(
    restartFirst: bool,
    request: Request,
    script: seq<ProviderAction>,
    answer: Option<ModelResult>,
    reviews: Reviews,
    alreadyAborted: bool,
    stamp: Exec.Stamp)

  function Restarts(attempts: seq<Attempt>): nat {
    if attempts == [] then 0
    else Restarts(attempts[..|attempts| - 1]) + if attempts[|attempts| - 1].restartFirst then 1 else 0
  }

  /**
   * However often an operation is attempted, whatever happens at its awaits and
   * between its calls: it is dispatched at most once, released at most once,
   * and has at most one usage recorded over all processes, which a released
   * result always has. The ledger holds it while its process lasts.
   */
  method Serve(operation: ModelOperation, attempts: seq<Attempt>)
    requires operation.Valid()
    modifies operation, operation.service
    ensures operation.Valid() && old(operation.log) <= operation.log
    ensures Dispatches(operation.log) <= 1 && Releases(operation.log) <= 1 && |operation.recorded| <= 1
    ensures operation.Billed() && operation.LedgerOfProcess()
    ensures operation.process == old(operation.process) + Restarts(attempts)
  {
    for i := 0 to |attempts|
      invariant operation.Valid() && old(operation.log) <= operation.log
      invariant operation.process == old(operation.process) + Restarts(attempts[..i])
    {
      assert attempts[..i + 1][..i] == attempts[..i];
      var a := attempts[i];
      if a.restartFirst {
        operation.Restart();
      }
      var _, _ := operation.Complete(a.request, a.script, a.answer, a.reviews, a.alreadyAborted, a.stamp);
    }
    assert attempts[..|attempts|] == attempts;
    DispatchedAtMostOnce(operation.log);
  }

  /** A released result that is replayed by a later process is not in that process's ledger. */
  method ReplayAfterRestart(operation: ModelOperation, a: Attempt) returns (outcome: Outcome)
    requires operation.Valid() && Phase(operation.journal) == 4
    modifies operation, operation.service
    ensures operation.Valid() && operation.ledger == [] && operation.journal == old(operation.journal)
    ensures operation.recorded == [old(operation.journal).value.result.usage]
    ensures outcome.Replayed? ==> outcome.result == old(operation.journal).value.result
  {
    operation.Restart();
    ghost var rounds;
    outcome, rounds := operation.Complete(a.request, a.script, a.answer, a.reviews, a.alreadyAborted, a.stamp);
    operation.ReleasedIsBilled();
  }

  lemma {:induction false} JoinedPrefix(tokens: seq<string>, n: nat)
    requires n <= |tokens|
    ensures Joined(tokens[..n]) <= Joined(tokens)
    decreases |tokens|
  {
    if n == |tokens| {
      assert tokens[..n] == tokens;
    } else {
      var before := tokens[..|tokens| - 1];
      JoinedPrefix(before, n);
      assert before[..n] == tokens[..n];
    }
  }
}
