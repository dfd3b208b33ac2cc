/**
 * One invocation of a tool. Between two awaits it runs alone. At each await
 * others ask for authorisations of their own, people answer, runs are raised,
 * tools and runs come and go, and the caller may abort; and what is awaited may
 * fail.
 */
module ToolInvocation {
  import opened Wrappers
  import opened Classification
  import Trust = TrustAuthorizer
  import Scanners = ScannerRegistry
  import Marks = ClassificationService

  type Snapshot = Marks.Snapshot

  /** identity tells registrations of one tool id apart. */
  datatype Tool = Tool(
    identity: nat,
    approval: Trust.Approval,
    input: Level,
    output: Level,
    capacity: Option<Capacity>,
    external: bool)

  /** classified tells that the run has been opened at the classification service. */
  datatype Policy = Policy(
    identity: nat,
    owner: string,
    execution: Option<nat>,
    classified: bool,
    allows: string -> bool,
    tools: map<string, Tool>)

  datatype Resolved = Resolved(tool: Tool, policy: Option<Policy>, fixed: bool)

  datatype Outcome = Returned | Forbidden | Unavailable | Invalid | Denied | Failed | Thrown

  /** What others do while an invocation awaits something. */
  datatype Act =
    | Prompt(request: Trust.Request, key: Trust.Key, granted: bool)
    | Answer(key: Trust.Key, prompt: nat)
    | Raise(run: string, level: Level, reason: string)
    | AddTool(name: string, tool: Tool)
    | RemoveTool(name: string)
    | AddRun(run: string, policy: Policy, initial: Level)
    | EndRun(run: string)
    | BindClassification(run: string, level: Level)
    | AddRunTool(run: string, name: string, tool: Tool)
    | RemoveRunTool(run: string, name: string)
    | Abort

  /** An authorisation: whether it allows, whether a person was asked for this request, and what it commits to. */
  datatype Authorization = Authorization(allowed: bool, interactionUsed: bool, commitment: Snapshot)

  /** What the caller passes. */
  datatype Options = Options(name: string, caller: string, run: Option<string>, toolCall: Option<string>)

  /**
   * What becomes of the parts of an invocation: whether input and output parse, whether the tool
   * has a remembered grant, what the scanners find in the output, and what people say who are asked.
   */
  datatype Inputs = Inputs(parsesInput: bool, granted: bool, agrees: bool, parsesOutput: bool, report: Scanners.Report,
                           agreesToResult: bool)

  /** The running of the tool: the mark of its run, and whether tool and policy were the current ones. */
  datatype Running = Running(mark: Snapshot, current: bool)

  /** A decision: what it was about, the mark it was decided on, the prompts waited for, and whether it joined one. */
  datatype Decision = Decision(request: Trust.Request, mark: Snapshot, granted: bool, waits: seq<nat>, joined: bool)

  /** What an invocation did, for the record. commitment is what the preflight was allowed under. */
  datatype Trace = Trace(
    resolved: Option<Resolved>,
    preflight: Option<Decision>,
    commitment: Option<Snapshot>,
    ran: Option<Running>,
    raised: bool,
    observed: bool,
    review: Option<Decision>,
    verdict: Option<bool>,
    bound: bool)

  const NOTHING := Trace(None, None, None, None, false, false, None, None, false)

  function PreflightRequest(tool: Tool): Trust.Request {
    Trust.Request(Trust.Tool, tool.approval, tool.input, tool.capacity, None, false)
  }

  function ReviewRequest(report: Scanners.Report, interactionUsed: bool): Trust.Request {
    Trust.Request(Trust.Tool, Trust.Auto, Public, None, Some(report), interactionUsed)
  }

  /** Policy and the classification of input and run let the tool go ahead without asking anybody. */
  predicate GoesUnasked(tool: Tool, mark: Level, granted: bool) {
    && (tool.approval.Ask? ==> granted)
    && (tool.capacity.Some? ==>
          Rank(tool.input) <= Rank(Ceiling(tool.capacity.value)) && Rank(mark) <= Rank(Ceiling(tool.capacity.value)))
  }

  predicate MayRun(tool: Tool, mark: Level, granted: bool, agrees: bool) {
    !tool.approval.Deny? && (GoesUnasked(tool, mark, granted) || agrees)
  }

  /** The scanners cover a result and find nothing. */
  predicate Spotless(report: Scanners.Report) {
    report.coverage.Full? && forall f <- report.findings :: f.action == Scanners.Allow
  }

  /** A result passes unless a scanner blocks it; if it is not spotless, a person must agree who was not asked before. */
  predicate MayReturn(report: Scanners.Report, askedBefore: bool, agrees: bool) {
    (forall f <- report.findings :: f.action != Scanners.Block) && (Spotless(report) || (!askedBefore && agrees))
  }

  /** How an invocation ends when nothing comes between. */
  function Expected(tool: Tool, mark: Level, inputs: Inputs): Outcome {
    if !inputs.parsesInput then Invalid
    else if !MayRun(tool, mark, inputs.granted, inputs.agrees) then Denied
    else AfterRunning(tool, inputs, !GoesUnasked(tool, mark, inputs.granted))
  }

  function AfterRunning(tool: Tool, inputs: Inputs, askedBefore: bool): Outcome {
    if !inputs.parsesOutput then Invalid
    else if tool.external && !MayReturn(inputs.report, askedBefore, inputs.agreesToResult) then Denied
    else Returned
  }

  function Waits(d: Option<Decision>): seq<nat> {
    if d.Some? then d.value.waits else []
  }

  /** A tool runs only when its preflight allowed it, at the very mark that the approval committed to. */
  predicate RanRightly(options: Options, trace: Trace) {
    trace.ran.Some? ==>
      && trace.resolved.Some? && Permitted(options, trace.resolved.value) && trace.preflight.Some?
      && trace.ran.value.current && trace.commitment == Some(trace.ran.value.mark)
      && var d, tool := trace.preflight.value, trace.resolved.value.tool;
         && d.request == PreflightRequest(tool) && !tool.approval.Deny?
         && (d.waits == [] || !d.joined ==> trace.ran.value.mark == d.mark)
         && (d.waits == [] ==>
               && (tool.approval.Ask? ==> d.granted)
               && (tool.capacity.Some? ==>
                     && Rank(tool.input) <= Rank(Ceiling(tool.capacity.value))
                     && Rank(trace.ran.value.mark.level) <= Rank(Ceiling(tool.capacity.value))))
  }

  /** No scanner blocks what the review lets through; and unless somebody was asked, all of them cover it and find nothing. */
  predicate Passed(d: Decision) {
    && d.request.report.Some?
    && (forall f <- d.request.report.value.findings :: f.action != Scanners.Block)
    && (d.waits == [] ==>
          && d.request.report.value.coverage.Full?
          && forall f <- d.request.report.value.findings :: f.action == Scanners.Allow)
  }

  /** Its result is reviewed after the run was raised to it, and is handed on only if the review allows it. */
  predicate ReturnedRightly(options: Options, outcome: Outcome, trace: Trace) {
    && (outcome.Returned? ==>
          && trace.ran.Some? && trace.resolved.Some?
          && (options.run.Some? ==> trace.raised)
          && (options.run.Some? && trace.resolved.value.policy.Some? && trace.resolved.value.policy.value.execution.Some? ==>
                trace.observed)
          && (trace.resolved.value.tool.external ==>
                trace.verdict == Some(true) && trace.review.Some? && Passed(trace.review.value)))
    && (trace.verdict == Some(false) ==> outcome.Denied?)
    && (trace.verdict == Some(true) ==> outcome.Returned?)
    && (outcome.Denied? && trace.ran.Some? ==> trace.verdict == Some(false))
    && (trace.review.Some? ==>
          && trace.ran.Some? && trace.resolved.Some? && trace.resolved.value.tool.external
          && (trace.bound && trace.resolved.value.policy.Some? && trace.resolved.value.policy.value.classified ==>
                Rank(trace.resolved.value.tool.output) <= Rank(trace.review.value.mark.level)))
  }

  /** What may be invoked: by the owner of the run, once its execution is classified, a tool that the run allows. */
  predicate Permitted(options: Options, resolved: Resolved) {
    && (options.run.Some? ==>
          && resolved.policy.Some? && resolved.policy.value.owner == options.caller
          && (resolved.policy.value.execution.Some? ==> resolved.policy.value.classified)
          && resolved.policy.value.allows(options.name))
    && (options.run.None? ==> resolved.policy.None? && resolved.fixed)
  }

  // ----- Runs, now and later

  datatype View = View(policies: map<string, Policy>, runs: map<string, Marks.Run>, nextId: nat)

  /** A run is the one it was, at a mark that is not lower; or it has gone, and any run of its name is a later one. */
  predicate Since(a: View, b: View, run: string) {
    && a.nextId <= b.nextId
    && (run in b.policies ==>
          || b.policies[run].identity >= a.nextId
          || (&& run in a.policies && a.policies[run].identity == b.policies[run].identity
              && (a.policies[run].classified ==>
                    && b.policies[run].classified && run in a.runs && run in b.runs
                    && Rank(a.runs[run].level) <= Rank(b.runs[run].level)
                    && a.runs[run].version <= b.runs[run].version)))
  }

  predicate Sound(a: View, run: string) {
    && (run in a.policies ==> a.policies[run].identity < a.nextId)
    && (run in a.runs <==> run in a.policies && a.policies[run].classified)
  }

  ghost predicate Later(a: View, b: View) {
    forall run {:trigger Since(a, b, run)} :: Since(a, b, run)
  }

  ghost predicate AllSound(a: View) {
    forall run {:trigger Sound(a, run)} :: Sound(a, run)
  }

  lemma LaterReflexive(a: View)
    requires AllSound(a)
    ensures Later(a, a)
  {
    forall run
      ensures Since(a, a, run)
    {
      assert Sound(a, run);
    }
  }

  lemma LaterTransitive(a: View, b: View, c: View)
    requires Later(a, b) && Later(b, c)
    ensures Later(a, c)
  {
    forall run
      ensures Since(a, c, run)
    {
      assert Since(a, b, run) && Since(b, c, run);
    }
  }

  class ToolHost {
    const authorizer: Trust.Authorizer
    const marks: Marks.ClassificationService

    var tools: map<string, Tool>
    var policies: map<string, Policy>
    var withdrawn: set<nat>
    var aborted: bool
    var nextId: nat

    /** What the request that raised a prompt committed to. */
    var commitments: map<nat, Snapshot>

    /** A history variable: so far nobody else has acted, and nothing that was awaited has failed. */
    ghost var calm: bool

    ghost function Now(): View
      reads this`policies, this`nextId, marks
    {
      View(policies, marks.runs, nextId)
    }

    ghost predicate Valid()
      reads this`policies, this`nextId, this`commitments, authorizer, marks
    {
      && authorizer.Valid() && marks.Valid()
      && AllSound(Now())
      && Committed()
    }

    /** Each prompt in flight has a commitment. */
    ghost predicate Committed()
      reads this`commitments, authorizer
    {
      forall key <- authorizer.inFlight :: authorizer.inFlight[key] in commitments
    }

    constructor (authorizer: Trust.Authorizer, marks: Marks.ClassificationService)
      requires authorizer.Valid() && authorizer.inFlight == map[] && marks.Valid() && marks.runs == map[]
      ensures Valid() && tools == map[] && policies == map[]
      ensures this.authorizer == authorizer && this.marks == marks
    {
      this.authorizer, this.marks := authorizer, marks;
      tools, policies, withdrawn, aborted, nextId, commitments := map[], map[], {}, false, 0, map[];
      calm := true;
    }

    // ----- What others do

    method AddTool(name: string, tool: Tool)
      requires Valid()
      modifies this`tools, this`nextId
      ensures Valid() && Later(old(Now()), Now())
    {
      hide AllSound, Later;
      if name in tools {
        LaterReflexive(Now());
        return;
      }
      tools := tools[name := tool.(identity := nextId)];
      nextId := nextId + 1;
      SameRuns(old(Now()), Now());
    }

    method RemoveTool(name: string)
      requires Valid()
      modifies this`tools, this`withdrawn
      ensures Valid() && Now() == old(Now())
    {
      if name in tools {
        withdrawn := withdrawn + {tools[name].identity};
        tools := tools - {name};
      }
    }

    /** A policy whose execution is not known to be classified starts without a classification. */
    method AddRun(run: string, policy: Policy, initial: Level)
      requires Valid()
      modifies this`policies, this`nextId, marks
      ensures Valid() && Later(old(Now()), Now())
    {
      hide AllSound, Later;
      LaterReflexive(Now());
      if run in policies {
        return;
      }
      if policy.classified {
        var isOpen := marks.OpenRun(run, initial);
        if !isOpen {
          return;
        }
      }
      policies := policies[run := policy.(identity := nextId, tools := map[])];
      nextId := nextId + 1;
      NewRun(old(Now()), Now(), run);
    }

    method EndRun(run: string)
      requires Valid()
      modifies this`policies, this`withdrawn, marks
      ensures Valid() && Later(old(Now()), Now())
    {
      hide AllSound, Later;
      LaterReflexive(Now());
      if run in policies {
        var classified := policies[run].classified;
        withdrawn := withdrawn + {policies[run].identity};
        policies := policies - {run};
        if classified {
          marks.DisposeRun(run);
        }
        RunGone(old(Now()), Now(), run);
      }
    }

    /** The first classification of an execution opens its run, a later one raises it. */
    method BindClassification(run: string, level: Level)
      requires Valid()
      modifies this`policies, marks
      ensures Valid() && Later(old(Now()), Now())
    {
      hide AllSound, Later;
      LaterReflexive(Now());
      if run !in policies {
        return;
      }
      if policies[run].classified {
        SoundAt(Now(), run);
        var after := marks.RaiseTo(run, level, "execution classification");
        RunRaised(old(Now()), Now(), run);
        return;
      }
      var isOpen := marks.OpenRun(run, level);
      if isOpen {
        policies := policies[run := policies[run].(classified := true)];
        RunClassified(old(Now()), Now(), run);
      }
    }

    method Raise(run: string, level: Level, reason: string) returns (after: Snapshot)
      requires Valid()
      modifies marks
      ensures Valid() && Later(old(Now()), Now())
      ensures run in policies && policies[run].classified ==>
        run in marks.runs && Rank(level) <= Rank(marks.runs[run].level)
    {
      hide AllSound, Later;
      LaterReflexive(Now());
      assert Sound(Now(), run) by {
        SoundAt(Now(), run);
      }
      after := marks.RaiseTo(run, level, reason);
      if run in old(marks.runs) {
        RunRaised(old(Now()), Now(), run);
      }
    }

    method SetRunTools(run: string, runTools: map<string, Tool>)
      requires Valid() && run in policies
      modifies this`policies, this`nextId
      ensures Valid() && Later(old(Now()), Now())
    {
      hide AllSound, Later;
      policies := policies[run := policies[run].(tools := runTools)];
      nextId := nextId + 1;
      RunTooled(old(Now()), Now(), run);
    }

    method AddRunTool(run: string, name: string, tool: Tool)
      requires Valid()
      modifies this`policies, this`nextId
      ensures Valid() && Later(old(Now()), Now())
    {
      hide AllSound, Later, Valid;
      LaterReflexiveNow();
      if run in policies && name !in policies[run].tools {
        SetRunTools(run, policies[run].tools[name := tool.(identity := nextId)]);
      }
    }

    method RemoveRunTool(run: string, name: string)
      requires Valid()
      modifies this`policies, this`nextId, this`withdrawn
      ensures Valid() && Later(old(Now()), Now())
    {
      hide AllSound, Later, Valid;
      LaterReflexiveNow();
      if run in policies && name in policies[run].tools {
        withdrawn := withdrawn + {policies[run].tools[name].identity};
        SetRunTools(run, policies[run].tools - {name});
      }
    }

    lemma LaterReflexiveNow()
      requires Valid()
      ensures Later(Now(), Now()) && AllSound(Now())
    {
      LaterReflexive(Now());
    }

    /** Up to where a request waits for a person; the one that raises the prompt commits to what it has read. */
    method Start(request: Trust.Request, key: Trust.Key, read: Snapshot, granted: bool) returns (started: Trust.Started)
      requires Valid()
      modifies this`commitments, authorizer
      ensures Valid() && Now() == old(Now())
      ensures started.Decided? ==> commitments == old(commitments)
      ensures authorizer.inFlight ==
        if started.Waiting? then old(authorizer.inFlight)[key := started.prompt] else old(authorizer.inFlight)
      ensures started == match Trust.Decide(request, read.level, granted)
        case Refused => Trust.Decided(false, request.interactionUsed)
        case Allowed => Trust.Decided(true, request.interactionUsed)
        case RefusedSecondPrompt => Trust.Decided(false, true)
        case AskPerson => Trust.Waiting(if key in old(authorizer.inFlight) then old(authorizer.inFlight[key]) else old(authorizer.prompts))
      ensures started.Waiting? ==> started.prompt in commitments
      ensures started.Waiting? && key !in old(authorizer.inFlight) ==> commitments[started.prompt] == read
    {
      hide AllSound, Trust.Decide;
      var joins := key in authorizer.inFlight;
      started := authorizer.Authorize(request, key, read.level, granted);
      if started.Waiting? && !joins {
        commitments := commitments[started.prompt := read];
      }
    }

    method Perform(act: Act)
      requires Valid()
      modifies this, authorizer, marks
      ensures Valid() && Later(old(Now()), Now()) && (old(aborted) ==> aborted)
    {
      hide AllSound, Later, Valid;
      LaterReflexiveNow();
      match act {
        case Prompt(request, key, granted) =>
          var started := Start(request, key, marks.SnapshotOf(key.run), granted);
        case Answer(key, prompt) => SettlePrompt(key, prompt);
        case Raise(run, level, reason) => var after := Raise(run, level, reason);
        case AddTool(name, tool) => AddTool(name, tool);
        case RemoveTool(name) => RemoveTool(name);
        case AddRun(run, policy, initial) => AddRun(run, policy, initial);
        case EndRun(run) => EndRun(run);
        case BindClassification(run, level) => BindClassification(run, level);
        case AddRunTool(run, name, tool) => AddRunTool(run, name, tool);
        case RemoveRunTool(run, name) => RemoveRunTool(run, name);
        case Abort => aborted := true;
      }
    }

    method SettlePrompt(key: Trust.Key, prompt: nat)
      requires Valid()
      modifies authorizer
      ensures Valid() && Now() == old(Now())
      ensures key in old(authorizer.inFlight) && old(authorizer.inFlight[key]) == prompt ==>
        authorizer.inFlight == old(authorizer.inFlight) - {key}
    {
      authorizer.Settle(key, prompt);
    }

    /** Others act, as often as they like; then what was awaited succeeds or fails. */
    method Await() returns (alive: bool)
      requires Valid()
      modifies this, authorizer, marks
      ensures Valid() && Later(old(Now()), Now()) && (old(aborted) ==> aborted)
      ensures calm ==> old(calm) && alive && Now() == old(Now()) && SameHost(old(tools), old(withdrawn), old(aborted))
      ensures calm ==> authorizer.inFlight == old(authorizer.inFlight) && commitments == old(commitments)
    {
      hide AllSound, Later, Valid;
      LaterReflexiveNow();
      ghost var before := calm;
      var acts: seq<Act> := *;
      for i := 0 to |acts|
        invariant Valid() && Later(old(Now()), Now()) && (old(aborted) ==> aborted)
        invariant acts == [] ==>
          && Now() == old(Now()) && SameHost(old(tools), old(withdrawn), old(aborted))
          && authorizer.inFlight == old(authorizer.inFlight) && commitments == old(commitments)
      {
        ghost var earlier := Now();
        Perform(acts[i]);
        LaterTransitive(old(Now()), earlier, Now());
      }
      alive := *;
      calm := before && acts == [] && alive;
    }

    predicate SameHost(tools: map<string, Tool>, withdrawn: set<nat>, aborted: bool)
      reads this`tools, this`withdrawn, this`aborted
    {
      this.tools == tools && this.withdrawn == withdrawn && this.aborted == aborted
    }

    // ----- The invocation

    /** The tool is registered under its id, or bound in the run's policy, and the policy is still the run's. */
    predicate Current(options: Options, resolved: Resolved)
      reads this`tools, this`policies
    {
      && (options.run.Some? ==>
            resolved.policy.Some? && options.run.value in policies
            && policies[options.run.value].identity == resolved.policy.value.identity)
      && if resolved.fixed then options.name in tools && tools[options.name].identity == resolved.tool.identity
         else
           options.run.Some? && options.run.value in policies && options.name in policies[options.run.value].tools
           && policies[options.run.value].tools[options.name].identity == resolved.tool.identity
    }

    /** The caller, the tool or the run has withdrawn. */
    predicate Cancelled(resolved: Resolved)
      reads this`aborted, this`withdrawn
    {
      aborted || resolved.tool.identity in withdrawn || (resolved.policy.Some? && resolved.policy.value.identity in withdrawn)
    }

    /** The tool under this name: one that is registered, or else one that is bound in the run. */
    predicate Offers(options: Options, tool: Tool)
      reads this`tools, this`policies
    {
      if options.name in tools then tool == tools[options.name]
      else
        options.run.Some? && options.run.value in policies && options.name in policies[options.run.value].tools
        && tool == policies[options.run.value].tools[options.name]
    }

    /** The caller owns the run, its execution is classified, and it allows the name. */
    predicate MayInvoke(options: Options)
      reads this`policies
    {
      options.run.Some? ==>
        && options.run.value in policies && policies[options.run.value].owner == options.caller
        && (policies[options.run.value].execution.Some? ==> policies[options.run.value].classified)
        && policies[options.run.value].allows(options.name)
    }

    predicate Withdrawn(options: Options, tool: Tool)
      reads this`aborted, this`withdrawn, this`policies
    {
      || aborted || tool.identity in withdrawn
      || (options.run.Some? && options.run.value in policies && policies[options.run.value].identity in withdrawn)
    }

    method Resolve(options: Options) returns (resolved: Option<Resolved>, refusal: Outcome)
      ensures resolved.Some? ==>
        && Permitted(options, resolved.value) && Current(options, resolved.value) && !Cancelled(resolved.value)
        && (options.run.Some? ==> policies[options.run.value] == resolved.value.policy.value)
        && Offers(options, resolved.value.tool)
      ensures refusal in {Forbidden, Unavailable, Thrown}
      ensures options.run.Some? && (options.run.value !in policies || policies[options.run.value].owner != options.caller)
        ==> resolved.None? && refusal == Forbidden
      ensures forall tool :: Offers(options, tool) && MayInvoke(options) && !Withdrawn(options, tool) ==>
        resolved.Some? && resolved.value.tool == tool
    {
      refusal := Forbidden;
      resolved := None;
      var policy := None;
      if options.run.Some? {
        if options.run.value !in policies || policies[options.run.value].owner != options.caller {
          return;
        }
        policy := Some(policies[options.run.value]);
        if policy.value.execution.Some? && !policy.value.classified {
          return;
        }
      }
      var found: Resolved;
      if options.name in tools {
        found := Resolved(tools[options.name], policy, true);
      } else if policy.Some? && options.name in policy.value.tools {
        found := Resolved(policy.value.tools[options.name], policy, false);
      } else {
        return None, Unavailable;
      }
      if policy.Some? && !policy.value.allows(options.name) {
        return;
      }
      if Cancelled(found) {
        return None, Thrown;
      }
      return Some(found), Thrown;
    }

    /**
     * One authorisation: it is decided on what was read before the remembered
     * grants were looked up, and it may wait for a person, alone or with an
     * equal request. A request that threw has no answer.
     */
    method Authorize(request: Trust.Request, options: Options, resolved: Resolved, granted: bool, agrees: bool)
      returns (answer: Option<Authorization>, decision: Decision)
      requires Valid()
      modifies this, authorizer, marks
      ensures Valid() && Later(old(Now()), Now()) && (old(aborted) ==> aborted)
      ensures decision.mark == old(marks.SnapshotOf(options.run)) && decision.request == request && |decision.waits| <= 1
      ensures decision.waits != [] ==> Decided(decision).AskPerson?
      ensures answer.Some? ==>
        && (Decided(decision).AskPerson? ==> decision.waits != [])
        && decision.granted == granted && answer.value.allowed == Allows(decision, agrees)
        && (answer.value.allowed ==> answer.value.interactionUsed == (request.interactionUsed || decision.waits != []))
        && (decision.waits == [] || !decision.joined ==> answer.value.commitment == decision.mark)
      ensures calm ==>
        && old(calm) && Now() == old(Now()) && SameHost(old(tools), old(withdrawn), old(aborted))
        && (answer.Some? || old(Cancelled(resolved)))
        && (old(authorizer.inFlight) == map[] ==> authorizer.inFlight == map[] && !decision.joined)
    {
      hide AllSound, Later, Valid, Trust.Decide;
      LaterReflexiveNow();
      answer, decision := None, Decision(request, marks.SnapshotOf(options.run), false, [], false);
      if Cancelled(resolved) {
        return;
      }
      var alive := Await();
      if !alive {
        return;
      }
      var reasons: seq<string>, kind: string, session: Option<string> := *, *, *;
      var key := Trust.Key(kind, options.caller, Trust.Tool, options.run, session, options.toolCall, reasons);
      decision := decision.(granted := granted, joined := key in authorizer.inFlight);
      ghost var before := Now();
      var started := Start(request, key, decision.mark, granted);
      match started
      case Decided(allowed, used) =>
        answer := Some(Authorization(allowed, used, decision.mark));
      case Waiting(prompt) =>
        decision := decision.(waits := [prompt]);
        var commitment := commitments[prompt];
        alive := Await();
        LaterTransitive(old(Now()), before, Now());
        if !decision.joined {
          SettlePrompt(key, prompt);
        }
        if alive {
          answer := Some(Authorization(agrees, true, commitment));
        }
    }

    /** An authorisation that threw: the tool or its run may be the reason. */
    method Rethrow(options: Options, resolved: Resolved) returns (outcome: Outcome)
      ensures outcome in {Forbidden, Unavailable, Thrown}
      ensures outcome == Thrown <==> Current(options, resolved)
    {
      if Current(options, resolved) {
        return Thrown;
      }
      var replaced := options.run.Some? && !(options.run.value in policies && resolved.policy.Some?
                                             && policies[options.run.value].identity == resolved.policy.value.identity);
      return if replaced then Forbidden else Unavailable;
    }

    /** From the resolved tool to the point where it may run. */
    method Preflight(options: Options, resolved: Resolved, granted: bool, agrees: bool)
      returns (refusal: Option<Outcome>, decision: Decision, commitment: Option<Snapshot>, interactionUsed: bool)
      requires Valid()
      modifies this, authorizer, marks
      ensures Valid() && Later(old(Now()), Now()) && (old(aborted) ==> aborted)
      ensures decision.request == PreflightRequest(resolved.tool) && |decision.waits| <= 1
      ensures refusal.None? ==>
        && Current(options, resolved) && commitment == Some(marks.SnapshotOf(options.run))
        && interactionUsed == (decision.waits != [])
        && (decision.waits == [] || !decision.joined ==> commitment == Some(decision.mark))
        && Decided(decision) == if decision.waits == [] then Trust.Allowed else Trust.AskPerson
      ensures refusal.None? ==> decision.granted == granted && Allows(decision, agrees)
      ensures refusal.Some? ==> !refusal.value.Returned?
      ensures refusal == Some(Denied) ==>
        !Allows(decision, agrees) || (commitment.Some? && commitment.value != marks.SnapshotOf(options.run))
      ensures refusal in {Some(Unavailable), Some(Forbidden)} ==> !Current(options, resolved)
      ensures calm && old(authorizer.inFlight) == map[] && old(Current(options, resolved)) && !old(Cancelled(resolved)) ==>
        && old(calm) && Now() == old(Now()) && SameHost(old(tools), old(withdrawn), old(aborted)) && authorizer.inFlight == map[]
        && decision.granted == granted && refusal == if Allows(decision, agrees) then None else Some(Denied)
      ensures decision.mark == old(marks.SnapshotOf(options.run))
      ensures calm ==> old(calm)
    {
      hide AllSound, Later, Valid, Trust.Decide, Current;
      commitment, interactionUsed := None, false;
      var answer;
      answer, decision := Authorize(PreflightRequest(resolved.tool), options, resolved, granted, agrees);
      if answer.None? {
        var outcome := Rethrow(options, resolved);
        return Some(outcome), decision, commitment, interactionUsed;
      }
      interactionUsed := answer.value.interactionUsed;
      if !answer.value.allowed {
        return Some(Denied), decision, commitment, interactionUsed;
      }
      commitment := Some(answer.value.commitment);
      if Cancelled(resolved) {
        return Some(Thrown), decision, commitment, interactionUsed;
      }
      if !Current(options, resolved) {
        return Some(Unavailable), decision, commitment, interactionUsed;
      }
      ghost var before := Now();
      var alive := Await();
      LaterTransitive(old(Now()), before, Now());
      if !alive {
        return Some(Thrown), decision, commitment, interactionUsed;
      }
      if marks.SnapshotOf(options.run) != commitment.value {
        return Some(Denied), decision, commitment, interactionUsed;
      }
      if !Current(options, resolved) {
        return Some(Unavailable), decision, commitment, interactionUsed;
      }
      return None, decision, commitment, interactionUsed;
    }

    /** The tool's result: the run is raised to it, and its execution observes it. */
    method Absorb(options: Options, resolved: Resolved) returns (alive: bool, raised: bool, observed: bool)
      requires Valid() && Current(options, resolved)
      modifies this, authorizer, marks
      ensures Valid() && Later(old(Now()), Now())
      ensures alive ==>
        && raised == options.run.Some?
        && observed == (options.run.Some? && resolved.policy.Some? && resolved.policy.value.execution.Some?)
      ensures options.run.Some? && old(policies[options.run.value].classified) ==> Raised(options, resolved)
      ensures calm ==>
        && old(calm) && alive && policies == old(policies) && SameHost(old(tools), old(withdrawn), old(aborted))
        && authorizer.inFlight == old(authorizer.inFlight)
    {
      hide AllSound, Later, Valid;
      LaterReflexiveNow();
      alive, raised, observed := true, false, false;
      if options.run.None? {
        return;
      }
      SoundAt(Now(), options.run.value);
      var after := Raise(options.run.value, resolved.tool.output, "tool output");
      raised := true;
      if resolved.policy.Some? && resolved.policy.value.execution.Some? {
        ghost var before := Now();
        LaterReflexiveNow();
        alive := Await();
        observed := true;
        LaterTransitive(old(Now()), before, Now());
        StaysRaised(before, Now(), options.run.value, resolved.tool.output);
      }
    }

    /** The review of an external tool's result, which asks only when the preflight has not. */
    method Review(options: Options, resolved: Resolved, interactionUsed: bool, report: Scanners.Report, agrees: bool)
      returns (outcome: Outcome, decision: Option<Decision>, verdict: Option<bool>, bound: bool)
      requires Valid() && resolved.tool.external
      modifies this, authorizer, marks
      ensures Valid() && |Waits(decision)| <= if interactionUsed then 0 else 1
      ensures outcome.Returned? <==> verdict == Some(true)
      ensures outcome.Denied? <==> verdict == Some(false)
      ensures verdict == Some(true) ==> decision.Some? && Passed(decision.value)
      ensures verdict.Some? ==> verdict.value == MayReturn(report, interactionUsed, agrees)
      ensures calm ==> old(calm) && (!old(Cancelled(resolved)) ==> verdict.Some?)
      ensures bound ==> options.run.Some?
      ensures bound && old(Raised(options, resolved)) ==>
        decision.Some? && Rank(resolved.tool.output) <= Rank(decision.value.mark.level)
    {
      hide AllSound, Later, Valid, Trust.Decide;
      ghost var before := Now();
      LaterReflexiveNow();
      decision, verdict, bound := None, None, false;
      var alive := Await();
      if !alive {
        return Failed, decision, verdict, bound;
      }
      bound := Bound(options, resolved);
      if bound {
        StaysRaised(before, Now(), options.run.value, resolved.tool.output);
      }
      var answer, made := Authorize(ReviewRequest(report, interactionUsed), options, resolved, false, agrees);
      decision := Some(made);
      AskedNeverAsksAgain(made);
      if answer.None? {
        outcome := Rethrow(options, resolved);
        return if outcome == Thrown then Failed else outcome, decision, verdict, bound;
      }
      if answer.value.allowed {
        LetThrough(made, report);
      }
      ReviewAllows(made, report, interactionUsed, agrees);
      verdict := Some(answer.value.allowed);
      return if answer.value.allowed then Returned else Denied, decision, verdict, bound;
    }

    /** From the running of the tool to its result, which is handed on once it was reviewed. */
    method Run(options: Options, resolved: Resolved, before: Trace, interactionUsed: bool, inputs: Inputs)
      returns (outcome: Outcome, trace: Trace)
      requires Valid() && Current(options, resolved) && before.resolved == Some(resolved) && before.review.None?
      requires before.verdict.None? && before.commitment == Some(marks.SnapshotOf(options.run))
      requires resolved.policy.Some? && resolved.policy.value.classified && Bound(options, resolved) ==>
        policies[options.run.value].classified
      modifies this, authorizer, marks
      ensures Valid() && |Waits(trace.review)| <= if interactionUsed then 0 else 1
      ensures trace.resolved == before.resolved && trace.preflight == before.preflight && trace.commitment == before.commitment
      ensures trace.ran == Some(Running(before.commitment.value, true))
      ensures ReturnedRightly(options, outcome, trace)
      ensures outcome.Returned? ==>
        inputs.parsesOutput && (resolved.tool.external ==> MayReturn(inputs.report, interactionUsed, inputs.agreesToResult))
      ensures calm ==> old(calm)
      ensures calm && !old(Cancelled(resolved)) ==> outcome == AfterRunning(resolved.tool, inputs, interactionUsed)
    {
      hide AllSound, Later, Valid, Trust.Decide, MayReturn, ReturnedRightly;
      trace := before.(ran := Some(Running(marks.SnapshotOf(options.run), Current(options, resolved))));
      ghost var began := Now();
      LaterReflexiveNow();
      outcome := Failed;
      StoppedRunning(options, outcome, trace);
      var alive := Await();
      if !alive {
        return;
      }
      if !Current(options, resolved) {
        StoppedRunning(options, Unavailable, trace);
        return Unavailable, trace;
      }
      if Cancelled(resolved) {
        return;
      }
      if !inputs.parsesOutput {
        StoppedRunning(options, Invalid, trace);
        return Invalid, trace;
      }
      if options.run.Some? {
        StaysRaised(began, Now(), options.run.value, Public);
      }
      var raised, observed;
      alive, raised, observed := Absorb(options, resolved);
      trace := trace.(raised := raised, observed := observed);
      if !alive {
        StoppedRunning(options, outcome, trace);
        return;
      }
      if !resolved.tool.external {
        HandedOn(options, Returned, trace);
        return Returned, trace;
      }
      var decision, verdict, bound;
      outcome, decision, verdict, bound := Review(options, resolved, interactionUsed, inputs.report, inputs.agreesToResult);
      trace := trace.(review := decision, verdict := verdict, bound := bound);
      HandedOn(options, outcome, trace);
    }

    /** From a resolved tool to the outcome. */
    method Proceed(options: Options, resolved: Resolved, inputs: Inputs) returns (outcome: Outcome, trace: Trace)
      requires Valid() && inputs.parsesInput
      requires Permitted(options, resolved) && Current(options, resolved) && !Cancelled(resolved)
      requires options.run.Some? ==> policies[options.run.value] == resolved.policy.value
      modifies this, authorizer, marks
      ensures Valid() && trace.resolved == Some(resolved)
      ensures |Waits(trace.preflight)| + |Waits(trace.review)| <= 1
      ensures RanRightly(options, trace) && ReturnedRightly(options, outcome, trace)
      ensures trace.ran.Some? ==> Waits(trace.preflight) == [] || inputs.agrees
      ensures outcome.Returned? && resolved.tool.external ==>
        MayReturn(inputs.report, Waits(trace.preflight) != [], inputs.agreesToResult)
      ensures calm ==> old(calm)
      ensures calm && old(authorizer.inFlight) == map[] ==>
        outcome == Expected(resolved.tool, old(marks.SnapshotOf(options.run)).level, inputs)
    {
      hide AllSound, Later, Valid, Trust.Decide, MayReturn, MayRun, GoesUnasked, ReturnedRightly;
      ghost var began := Now();
      LaterReflexiveNow();
      var stopped, decision, commitment, interactionUsed := Preflight(options, resolved, inputs.granted, inputs.agrees);
      trace := NOTHING.(resolved := Some(resolved), preflight := Some(decision), commitment := commitment);
      PreflightAllows(resolved.tool, decision, inputs.granted, inputs.agrees);
      if stopped.Some? {
        NeverRan(options, stopped.value, trace);
        return stopped.value, trace;
      }
      if options.run.Some? {
        StaysRaised(began, Now(), options.run.value, Public);
      }
      outcome, trace := Run(options, resolved, trace, interactionUsed, inputs);
      AllowedUnasked(resolved.tool, decision);
    }

    /** Invokes a tool: it is resolved, authorised, run, and its result reviewed. */
    method Invoke(options: Options, inputs: Inputs) returns (outcome: Outcome, trace: Trace)
      requires Valid()
      modifies this, authorizer, marks
      ensures Valid()
      ensures |Waits(trace.preflight)| + |Waits(trace.review)| <= 1
      ensures RanRightly(options, trace) && ReturnedRightly(options, outcome, trace)
      ensures !inputs.parsesInput ==> trace.preflight.None? && trace.ran.None?
      ensures trace.ran.Some? ==> Waits(trace.preflight) == [] || inputs.agrees
      ensures outcome.Returned? && trace.resolved.value.tool.external ==>
        MayReturn(inputs.report, Waits(trace.preflight) != [], inputs.agreesToResult)
      ensures calm && old(authorizer.inFlight) == map[] ==>
        forall tool :: old(Offers(options, tool)) && old(MayInvoke(options)) && !old(Withdrawn(options, tool)) ==>
          outcome == Expected(tool, old(marks.SnapshotOf(options.run)).level, inputs)
    {
      hide AllSound, Later, Valid, Trust.Decide, MayReturn, MayRun, GoesUnasked, ReturnedRightly, RanRightly, Current;
      trace := NOTHING;
      outcome := Thrown;
      NeverRan(options, outcome, trace);
      if aborted {
        return;
      }
      calm := true;
      var alive := Await();
      if !alive {
        return;
      }
      var found, refusal := Resolve(options);
      assert calm ==> forall tool :: old(Offers(options, tool)) ==> Offers(options, tool);
      if found.None? {
        NeverRan(options, refusal, trace);
        return refusal, trace;
      }
      if !inputs.parsesInput {
        trace := trace.(resolved := found);
        NeverRan(options, Invalid, trace);
        return Invalid, trace;
      }
      outcome, trace := Proceed(options, found.value, inputs);
    }

    /** The run is the one that was resolved, and has been raised to the tool's output. */
    ghost predicate Raised(options: Options, resolved: Resolved)
      reads this`policies, this`nextId, marks
    {
      && options.run.Some? && resolved.policy.Some? && resolved.policy.value.identity < nextId
      && (options.run.value in policies && policies[options.run.value].identity == resolved.policy.value.identity ==>
            && policies[options.run.value].classified && options.run.value in marks.runs
            && Rank(resolved.tool.output) <= Rank(marks.runs[options.run.value].level))
    }

    /** The run is the one that was resolved. */
    predicate Bound(options: Options, resolved: Resolved)
      reads this`policies
    {
      && options.run.Some? && options.run.value in policies && resolved.policy.Some?
      && policies[options.run.value].identity == resolved.policy.value.identity
    }
  }

  /** As long as a run is the one it was, it is classified at least as high. */
  lemma StaysRaised(a: View, b: View, run: string, level: Level)
    requires AllSound(a) && Later(a, b)
    ensures a.nextId <= b.nextId && (run in a.policies ==> a.policies[run].identity < a.nextId)
    ensures run in b.policies && !Same(a, b, run) ==> b.policies[run].identity >= a.nextId
    ensures Same(a, b, run) && a.policies[run].classified ==>
      && b.policies[run].classified && run in a.runs && run in b.runs
      && (Rank(level) <= Rank(a.runs[run].level) ==> Rank(level) <= Rank(b.runs[run].level))
  {
    assert Since(a, b, run) && Sound(a, run);
  }

  predicate Same(a: View, b: View, run: string) {
    run in a.policies && run in b.policies && a.policies[run].identity == b.policies[run].identity
  }

  lemma NeverRan(options: Options, outcome: Outcome, trace: Trace)
    requires trace.ran.None? && trace.review.None? && trace.verdict.None? && !outcome.Returned?
    ensures RanRightly(options, trace) && ReturnedRightly(options, outcome, trace)
  {
  }

  lemma StoppedRunning(options: Options, outcome: Outcome, trace: Trace)
    requires trace.review.None? && trace.verdict.None? && outcome in {Failed, Unavailable, Invalid}
    ensures ReturnedRightly(options, outcome, trace)
  {
  }

  lemma HandedOn(options: Options, outcome: Outcome, trace: Trace)
    requires trace.ran.Some? && trace.resolved.Some?
    requires outcome.Returned? ==>
      && (options.run.Some? ==> trace.raised)
      && (options.run.Some? && trace.resolved.value.policy.Some? && trace.resolved.value.policy.value.execution.Some? ==>
            trace.observed)
    requires if trace.resolved.value.tool.external then
        && (outcome.Returned? <==> trace.verdict == Some(true)) && (outcome.Denied? <==> trace.verdict == Some(false))
        && (trace.verdict == Some(true) ==> trace.review.Some? && Passed(trace.review.value))
        && (trace.review.Some? && trace.bound && trace.resolved.value.policy.Some? && trace.resolved.value.policy.value.classified ==>
              Rank(trace.resolved.value.tool.output) <= Rank(trace.review.value.mark.level))
      else outcome.Returned? && trace.review.None? && trace.verdict.None?
    ensures ReturnedRightly(options, outcome, trace)
  {
  }

  /** What a decision comes to, when a person who is asked agrees or not. */
  predicate Allows(d: Decision, agrees: bool) {
    Decided(d).Allowed? || (Decided(d).AskPerson? && agrees)
  }

  lemma PreflightAllows(tool: Tool, d: Decision, granted: bool, agrees: bool)
    requires d.request == PreflightRequest(tool)
    ensures d.granted == granted ==>
      && (Allows(d, agrees) <==> MayRun(tool, d.mark.level, granted, agrees))
      && (Decided(d).Allowed? ==> GoesUnasked(tool, d.mark.level, granted))
      && (Decided(d).AskPerson? ==> !GoesUnasked(tool, d.mark.level, granted))
  {
    Trust.SilentlyAllowedExactly(d.request, d.mark.level, d.granted);
  }

  lemma ReviewAllows(d: Decision, report: Scanners.Report, askedBefore: bool, agrees: bool)
    requires d.request == ReviewRequest(report, askedBefore)
    ensures Allows(d, agrees) <==> MayReturn(report, askedBefore, agrees)
  {
    Trust.SilentlyAllowedExactly(d.request, d.mark.level, d.granted);
  }

  lemma AskedNeverAsksAgain(d: Decision)
    ensures d.request.interactionUsed ==> !Decided(d).AskPerson?
  {
  }

  lemma LetThrough(d: Decision, report: Scanners.Report)
    requires d.request == ReviewRequest(report, d.request.interactionUsed)
    requires Decided(d) == if d.waits == [] then Trust.Allowed else Trust.AskPerson
    ensures Passed(d)
  {
    if d.waits == [] {
      Trust.SilentlyAllowedExactly(d.request, d.mark.level, d.granted);
    }
  }

  /** What a preflight that asked nobody, or asked and was answered, has made sure of. */
  lemma AllowedUnasked(tool: Tool, d: Decision)
    requires d.request == PreflightRequest(tool)
    requires Decided(d) == if d.waits == [] then Trust.Allowed else Trust.AskPerson
    ensures !tool.approval.Deny?
    ensures d.waits == [] ==>
      && (tool.approval.Ask? ==> d.granted)
      && (tool.capacity.Some? ==>
            && Rank(tool.input) <= Rank(Ceiling(tool.capacity.value))
            && Rank(d.mark.level) <= Rank(Ceiling(tool.capacity.value)))
  {
    if d.waits == [] {
      Trust.SilentlyAllowedExactly(d.request, d.mark.level, d.granted);
    }
  }

  /** What a decision came to before anybody was asked. */
  function Decided(d: Decision): Trust.Decision {
    Trust.Decide(d.request, d.mark.level, d.granted)
  }

  lemma SameRuns(a: View, b: View)
    requires AllSound(a) && b.policies == a.policies && b.runs == a.runs && a.nextId <= b.nextId
    ensures Later(a, b) && AllSound(b)
  {
    forall run
      ensures Since(a, b, run) && Sound(b, run)
    {
      assert Sound(a, run);
    }
  }

  lemma SoundAt(a: View, run: string)
    requires AllSound(a)
    ensures Sound(a, run)
  {
  }

  lemma NewRun(a: View, b: View, run: string)
    requires AllSound(a) && run !in a.policies && run in b.policies && b.policies == a.policies[run := b.policies[run]]
    requires b.policies[run].identity == a.nextId && b.nextId == a.nextId + 1
    requires if b.policies[run].classified then run in b.runs && b.runs == a.runs[run := b.runs[run]] else b.runs == a.runs
    ensures Later(a, b) && AllSound(b)
  {
    forall other
      ensures Since(a, b, other) && Sound(b, other)
    {
      assert Sound(a, other);
    }
  }

  lemma RunGone(a: View, b: View, run: string)
    requires AllSound(a) && b.policies == a.policies - {run} && b.nextId == a.nextId && run in a.policies
    requires b.runs == if a.policies[run].classified then a.runs - {run} else a.runs
    ensures Later(a, b) && AllSound(b)
  {
    forall other
      ensures Since(a, b, other) && Sound(b, other)
    {
      assert Sound(a, other);
    }
  }

  lemma RunRaised(a: View, b: View, run: string)
    requires AllSound(a) && b.policies == a.policies && b.nextId == a.nextId
    requires run in a.runs && run in b.runs && b.runs == a.runs[run := b.runs[run]]
    requires Rank(a.runs[run].level) <= Rank(b.runs[run].level) && a.runs[run].version <= b.runs[run].version
    ensures Later(a, b) && AllSound(b)
  {
    forall other
      ensures Since(a, b, other) && Sound(b, other)
    {
      assert Sound(a, other);
    }
  }

  lemma RunClassified(a: View, b: View, run: string)
    requires AllSound(a) && run in a.policies && !a.policies[run].classified
    requires b.policies == a.policies[run := a.policies[run].(classified := true)] && b.nextId == a.nextId
    requires run in b.runs && b.runs == a.runs[run := b.runs[run]]
    ensures Later(a, b) && AllSound(b)
  {
    forall other
      ensures Since(a, b, other) && Sound(b, other)
    {
      assert Sound(a, other);
    }
  }

  lemma RunTooled(a: View, b: View, run: string)
    requires AllSound(a) && run in a.policies && run in b.policies && b.runs == a.runs && a.nextId <= b.nextId
    requires b.policies == a.policies[run := a.policies[run].(tools := b.policies[run].tools)]
    ensures Later(a, b) && AllSound(b)
  {
    forall other
      ensures Since(a, b, other) && Sound(b, other)
    {
      assert Sound(a, other);
    }
  }
}
