/**
 * Approval policy, data classification and scan verdicts combined into one
 * decision, and the rule that one request asks a person at most once.
 */
module TrustAuthorizer {
  import opened Wrappers
  import opened Classification
  import Scanners = ScannerRegistry

  datatype Feature = ModelInput | ModelOutput | Tool | ChannelSend
  datatype Approval = Auto | Ask | Deny

  datatype Request = Request(
    feature: Feature,
    approval: Approval,
    payload: Level,
    capacity: Option<Capacity>,
    report: Option<Scanners.Report>,
    interactionUsed: bool)

  datatype Decision = Refused | Allowed | RefusedSecondPrompt | AskPerson

  predicate IsModelStage(feature: Feature) {
    feature.ModelInput? || feature.ModelOutput?
  }

  function ScanAction(r: Request): Scanners.Action {
    if r.report.Some? then Scanners.ScanReportAction(r.report.value) else Scanners.Allow
  }

  predicate FindingReview(r: Request) {
    r.report.Some? && exists f <- r.report.value.findings :: f.action == Scanners.Review
  }

  /** mark is the run's high-water classification; granted tells of a remembered approval. */
  function Decide(r: Request, mark: Level, granted: bool): Decision {
    var exceeds := r.capacity.Some? && ExceedsCapacity(Join(r.payload, mark), r.capacity.value);
    var action := ScanAction(r);
    if r.approval.Deny? || action == Scanners.Block then Refused
    else
      var policyAsk := r.approval.Ask? && !granted;
      var scanReview :=
        action == Scanners.Review && (!IsModelStage(r.feature) || (r.feature.ModelInput? && FindingReview(r)));
      var classificationReview := exceeds && !IsModelStage(r.feature);
      if !policyAsk && !classificationReview && !scanReview then Allowed
      else if r.interactionUsed then RefusedSecondPrompt
      else AskPerson
  }

  /** The interactionUsed of the result, which the next authorisation of the same request carries. */
  function UsedAfter(r: Request, mark: Level, granted: bool): bool {
    r.interactionUsed || Decide(r, mark, granted).AskPerson?
  }

  /** A blocking finding refuses a model output, nothing else does, and nothing makes it ask. */
  lemma ModelOutputNeverAsks(r: Request, mark: Level, granted: bool)
    requires r.feature.ModelOutput? && r.approval.Auto?
    ensures Decide(r, mark, granted) == if ScanAction(r) == Scanners.Block then Refused else Allowed
  {
  }

  /** Neither the channel ceiling nor missing coverage holds back a model input; a review finding asks. */
  lemma ModelInputExactly(r: Request, mark: Level, granted: bool)
    requires r.feature.ModelInput? && r.approval.Auto?
    ensures Decide(r, mark, granted) ==
      if ScanAction(r) == Scanners.Block then Refused
      else if !FindingReview(r) then Allowed
      else if r.interactionUsed then RefusedSecondPrompt
      else AskPerson
  {
  }

  /**
   * A tool call or a send goes ahead without asking exactly when policy lets it,
   * neither its payload nor its run is above the channel, and the scanners cover
   * it and find nothing.
   */
  lemma SilentlyAllowedExactly(r: Request, mark: Level, granted: bool)
    requires !IsModelStage(r.feature)
    ensures Decide(r, mark, granted) == Allowed <==>
      && !r.approval.Deny? && (r.approval.Ask? ==> granted)
      && (r.capacity.Some? ==>
            Rank(r.payload) <= Rank(Ceiling(r.capacity.value)) && Rank(mark) <= Rank(Ceiling(r.capacity.value)))
      && (r.report.Some? ==>
            && (forall f <- r.report.value.findings :: f.action == Scanners.Allow)
            && r.report.value.coverage.Full?)
    ensures Decide(r, mark, granted) == Refused <==> r.approval.Deny? || ScanAction(r) == Scanners.Block
  {
    if r.report.Some? {
      assert forall f <- r.report.value.findings :: f.action.Block? || f.action.Review? || f.action.Allow?;
    }
  }

  /** What needs a person: what policy asks about, what is above the channel, and what scanners would review or do not cover. */
  predicate NeedsPerson(r: Request, mark: Level, granted: bool) {
    || (r.approval.Ask? && !granted)
    || (r.capacity.Some?
        && (Rank(r.payload) > Rank(Ceiling(r.capacity.value)) || Rank(mark) > Rank(Ceiling(r.capacity.value))))
    || (r.report.Some?
        && (!r.report.value.coverage.Full? || exists f <- r.report.value.findings :: f.action != Scanners.Allow))
  }

  /**
   * For a tool call or a send, a person is asked exactly when nothing refuses it, something
   * needs one, and nobody was asked before; if somebody was, it is refused instead.
   */
  lemma PersonIsAskedExactly(r: Request, mark: Level, granted: bool)
    requires !IsModelStage(r.feature)
    ensures var refused := r.approval.Deny? || (r.report.Some? && exists f <- r.report.value.findings :: f.action == Scanners.Block);
      && (Decide(r, mark, granted) == AskPerson <==> !refused && NeedsPerson(r, mark, granted) && !r.interactionUsed)
      && (Decide(r, mark, granted) == RefusedSecondPrompt <==> !refused && NeedsPerson(r, mark, granted) && r.interactionUsed)
      && (Decide(r, mark, granted) == Refused <==> refused)
      && (Decide(r, mark, granted) == Allowed <==> !refused && !NeedsPerson(r, mark, granted))
  {
    if r.report.Some? {
      assert forall f <- r.report.value.findings :: f.action.Block? || f.action.Review? || f.action.Allow?;
    }
  }

  // ----- All the authorisations of one request

  /** One authorisation: the request and what the host knew when it was decided. */
  datatype Call = Call(request: Request, mark: Level, granted: bool)

  /** Each call carries the interactionUsed that the one before it returned. */
  ghost predicate Threaded(calls: seq<Call>, used: bool) {
    calls != [] ==>
    && calls[0].request.interactionUsed == used
    && Threaded(calls[1..], UsedAfter(calls[0].request, calls[0].mark, calls[0].granted))
  }

  function Asks(calls: seq<Call>): nat {
    if calls == [] then 0
    else (if Decide(calls[0].request, calls[0].mark, calls[0].granted).AskPerson? then 1 else 0) + Asks(calls[1..])
  }

  lemma {:induction false} ThreadedAsksOnce(calls: seq<Call>, used: bool)
    requires Threaded(calls, used)
    ensures Asks(calls) <= if used then 0 else 1
  {
    if calls != [] {
      ThreadedAsksOnce(calls[1..], UsedAfter(calls[0].request, calls[0].mark, calls[0].granted));
    }
  }

  lemma {:induction false} OutputsNeverAsk(calls: seq<Call>)
    requires forall c <- calls :: c.request.feature.ModelOutput? && c.request.approval.Auto?
    ensures Asks(calls) == 0
  {
    if calls != [] {
      ModelOutputNeverAsks(calls[0].request, calls[0].mark, calls[0].granted);
      OutputsNeverAsk(calls[1..]);
    }
  }

  /**
   * A model completion asks at most once, although its output review starts
   * over with an unused interaction: a model output has nothing to ask about.
   */
  lemma CompletionAsksOnce(inputs: seq<Call>, outputs: seq<Call>)
    requires Threaded(inputs, false)
    requires forall c <- outputs :: c.request.feature.ModelOutput? && c.request.approval.Auto?
    ensures Asks(inputs) + Asks(outputs) <= 1
  {
    ThreadedAsksOnce(inputs, false);
    OutputsNeverAsk(outputs);
  }

  // ----- Prompts shared by concurrent requests

  /** What makes two prompts the same: everything a person is shown about the request. */
  datatype Key = Key(kind: string, plugin: string, feature: Feature, run: Option<string>, session: Option<string>,
                     toolCall: Option<string>, reasons: seq<string>)

  datatype Started = Decided(allowed: bool, interactionUsed: bool) | Waiting(prompt: nat)

  class Authorizer {
    var inFlight: map<Key, nat>
    var prompts: nat

    ghost predicate Valid()
      reads this
    {
      && (forall k <- inFlight :: inFlight[k] < prompts)
      && (forall k <- inFlight, l <- inFlight :: inFlight[k] == inFlight[l] ==> k == l)
    }

    constructor ()
      ensures Valid() && inFlight == map[] && prompts == 0
    {
      inFlight, prompts := map[], 0;
    }

    /** Up to the point where it waits for a person; equal prompts share one interaction. */
    method Authorize(r: Request, key: Key, mark: Level, granted: bool) returns (started: Started)
      requires Valid()
      modifies this
      ensures Valid()
      ensures started == match Decide(r, mark, granted)
        case Refused => Decided(false, r.interactionUsed)
        case Allowed => Decided(true, r.interactionUsed)
        case RefusedSecondPrompt => Decided(false, true)
        case AskPerson => Waiting(if key in old(inFlight) then old(inFlight[key]) else old(prompts))
      ensures prompts == old(prompts) + (if Decide(r, mark, granted).AskPerson? && key !in old(inFlight) then 1 else 0)
      ensures inFlight == if started.Waiting? then old(inFlight)[key := started.prompt] else old(inFlight)
    {
      match Decide(r, mark, granted)
      case Refused => started := Decided(false, r.interactionUsed);
      case Allowed => started := Decided(true, r.interactionUsed);
      case RefusedSecondPrompt => started := Decided(false, true);
      case AskPerson =>
        if key in inFlight {
          return Waiting(inFlight[key]);
        }
        started := Waiting(prompts);
        inFlight := inFlight[key := prompts];
        prompts := prompts + 1;
    }

    /** The person answered; the next equal request asks anew. */
    method Settle(key: Key, prompt: nat)
      requires Valid()
      modifies this`inFlight
      ensures Valid()
      ensures inFlight == if key in old(inFlight) && old(inFlight[key]) == prompt then old(inFlight) - {key} else old(inFlight)
    {
      if key in inFlight && inFlight[key] == prompt {
        inFlight := inFlight - {key};
      }
    }
  }
}
