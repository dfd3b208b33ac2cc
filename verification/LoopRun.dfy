/**
 * One run of the agent loop. Between two awaits the loop runs alone; at each await
 * anyone may cancel, pause or resume the run, follow its events, or have an
 * interaction settled, and what is awaited may fail.
 */
module LoopRun {
  import opened Wrappers
  import opened DecimalNumerals

  datatype Status = Running | Waiting | Paused | Completed | Failed | Cancelled

  datatype ToolCall = ToolCall(id: string, name: string)

  datatype Message =
    | Said(role: string, content: string)
    | Assistant(content: string, calls: seq<ToolCall>)
    | Answer(callId: string, content: string)

  datatype LoopEvent =
    | StateChanged(status: Status)
    | ModelStart
    | ModelToken(token: string)
    | ModelEnd
    | UsageChanged
    | InteractionWait
    | ToolStart(callId: string)
    | ToolResult(callId: string)
    | FinalOutput(output: string)
    | RunFailed

  /** What the model gateway was asked. */
  datatype ModelCall = ModelCall(key: string, messages: seq<Message>)

  /** What others do with a run while it awaits something. */
  datatype Act =
    | DoCancel
    | DoPause
    | DoResume
    | Follow(id: nat)
    | Unfollow(id: nat)
    | Deliver(id: nat)
    | Interaction(waiting: bool)
    | Announce

  /** What happens at an await inside a call of the model. */
  datatype Callback = PolicyWait | ApprovedToken(token: string)

  datatype Next = GoOn | Ended | Threw

  datatype Completion = Completion(content: Option<string>, calls: seq<ToolCall>)

  /**
   * A subscriber to the events. queue is what its chain of promises still has to
   * deliver. since and start are a history: how many events there had been when it
   * came, and with which one its window begins.
   */
  datatype Subscription = Subscription(active: bool, queue: seq<LoopEvent>, delivered: seq<LoopEvent>, since: nat, start: nat)

  const HISTORY := 256
  const TURNS := 8

  predicate Terminal(status: Status) {
    status.Completed? || status.Failed? || status.Cancelled?
  }

  /** What a run's status can become before it ends by itself: it stays, or it goes on, or it is cancelled. */
  predicate Moves(before: Status, after: Status) {
    after == before || (!Terminal(before) && !after.Completed? && !after.Failed?)
  }

  // ----- Event logs

  /** The status that the last state event announced. */
  function LastState(log: seq<LoopEvent>): Option<Status> {
    if log == [] then None
    else if log[|log| - 1].StateChanged? then Some(log[|log| - 1].status)
    else LastState(log[..|log| - 1])
  }

  /** Each state event announces a change, and none follows a terminal one. */
  predicate Proper(log: seq<LoopEvent>) {
    log == [] ||
    var before, last := log[..|log| - 1], log[|log| - 1];
    && Proper(before)
    && (last.StateChanged? && LastState(before).Some? ==>
          last.status != LastState(before).value && !Terminal(LastState(before).value))
  }

  function Recent(log: seq<LoopEvent>): seq<LoopEvent> {
    if |log| <= HISTORY then log else log[|log| - HISTORY..]
  }

  /** What a subscriber gets: from at most 256 events before it came, every event in order. */
  predicate InOrder(log: seq<LoopEvent>, s: Subscription) {
    && s.since <= |log| && s.start == (if s.since <= HISTORY then 0 else s.since - HISTORY)
    && s.delivered + s.queue <= log[s.start..]
    && (s.active ==> s.delivered + s.queue == log[s.start..])
  }

  lemma {:induction false} StatesOfProperLog(log: seq<LoopEvent>, i: nat, j: nat)
    requires Proper(log) && i < j < |log| && log[i].StateChanged? && log[j].StateChanged?
    requires forall k | i < k < j :: !log[k].StateChanged?
    ensures log[i].status != log[j].status && !Terminal(log[i].status)
    decreases |log|
  {
    if j == |log| - 1 {
      LastStateIs(log[..j], i);
    } else {
      StatesOfProperLog(log[..|log| - 1], i, j);
    }
  }

  lemma {:induction false} LastStateIs(log: seq<LoopEvent>, i: nat)
    requires i < |log| && log[i].StateChanged? && forall k | i < k < |log| :: !log[k].StateChanged?
    ensures LastState(log) == Some(log[i].status)
    decreases |log|
  {
    if i < |log| - 1 {
      LastStateIs(log[..|log| - 1], i);
    }
  }

  /** Of two state events the earlier is not terminal. */
  lemma {:induction false} TerminalIsLast(log: seq<LoopEvent>, i: nat, j: nat)
    requires Proper(log) && i < j < |log| && log[i].StateChanged? && log[j].StateChanged?
    ensures !Terminal(log[i].status)
    decreases j
  {
    if k :| i < k < j && log[k].StateChanged? {
      TerminalIsLast(log, i, k);
    } else {
      StatesOfProperLog(log, i, j);
    }
  }

  lemma ProperAppend(log: seq<LoopEvent>, e: LoopEvent)
    requires Proper(log)
    requires e.StateChanged? && LastState(log).Some? ==> e.status != LastState(log).value && !Terminal(LastState(log).value)
    ensures Proper(log + [e])
    ensures LastState(log + [e]) == if e.StateChanged? then Some(e.status) else LastState(log)
  {
    assert (log + [e])[..|log|] == log;
  }

  // ----- Conversations

  /** What the model said with its tool calls, and one output for each call. */
  datatype Round = Round(content: string, calls: seq<ToolCall>, outputs: seq<string>)

  function Outputs(calls: seq<ToolCall>, outputs: seq<string>): seq<Message>
    requires |outputs| <= |calls|
  {
    seq(|outputs|, i requires 0 <= i < |outputs| => Answer(calls[i].id, outputs[i]))
  }

  predicate Answered(r: Round) {
    r.calls != [] && |r.outputs| == |r.calls|
  }

  /** The assistant's message, and then the answers to its calls in their order. */
  function Conversation(rounds: seq<Round>): seq<Message>
    requires forall i | 0 <= i < |rounds| :: Answered(rounds[i])
  {
    if rounds == [] then []
    else
      var r := rounds[|rounds| - 1];
      assert Answered(r);
      Conversation(rounds[..|rounds| - 1]) + [Assistant(r.content, r.calls)] + Outputs(r.calls, r.outputs)
  }

  /** Every tool call is answered once, in order, before anything else is said. */
  ghost predicate AllAnswered(ms: seq<Message>) {
    exists rounds: seq<Round> | forall i | 0 <= i < |rounds| :: Answered(rounds[i]) :: ms == Conversation(rounds)
  }

  lemma NothingAsked()
    ensures AllAnswered([])
  {
    assert Conversation([]) == [];
  }

  /** Another answered round can be added. */
  lemma AnsweredRound(ms: seq<Message>, content: string, calls: seq<ToolCall>, outputs: seq<string>)
    requires AllAnswered(ms) && calls != [] && |outputs| == |calls|
    ensures AllAnswered(ms + [Assistant(content, calls)] + Outputs(calls, outputs))
  {
    hide Outputs;
    var rounds: seq<Round> :| (forall i | 0 <= i < |rounds| :: Answered(rounds[i])) && ms == Conversation(rounds);
    var more := rounds + [Round(content, calls, outputs)];
    assert more[..|rounds|] == rounds;
    assert Conversation(more) == ms + [Assistant(content, calls)] + Outputs(calls, outputs);
  }

  function Key(prefix: string, turn: nat): string {
    prefix + "/model/" + Decimal(turn)
  }

  lemma KeysDiffer(prefix: string, m: nat, n: nat)
    requires m != n
    ensures Key(prefix, m) != Key(prefix, n)
  {
    if Key(prefix, m) == Key(prefix, n) {
      var k := |prefix + "/model/"|;
      assert Key(prefix, m)[k..] == Decimal(m) && Key(prefix, n)[k..] == Decimal(n);
      DecimalInjective(m, n);
    }
  }

  // ----- What a run does, as a function of what happens at its awaits

  datatype RunState = RunState(operationPrefix: string, toolInvocationAllowed: bool, status: Status, aborted: bool,
    pauseRequested: bool, waitingForResume: bool, subscriptions: map<nat, Subscription>, messages: seq<Message>,
    sent: seq<ModelCall>, log: seq<LoopEvent>)

  /** What others do during an await, and whether what is awaited succeeds. */
  datatype Moment = Moment(acts: seq<Act>, ok: bool)

  /** What others do during a pause, and how it ends when that did not end it. */
  datatype Rest = Rest(acts: seq<Act>, cancelled: bool)

  /** What others do before a callback of the model call. */
  datatype CallbackAt = CallbackAt(acts: seq<Act>, callback: Callback)

  /** The awaits of one tool call; asked holds what others do after a person was asked. */
  datatype ToolScript = ToolScript(rest: Rest, acts: seq<Act>, asked: Option<seq<Act>>, output: Option<string>)

  datatype TurnScript = TurnScript(before: Rest, callbacks: seq<CallbackAt>, acts: seq<Act>, result: Option<Completion>,
    after: Rest, usage: bool, tools: nat -> ToolScript)

  /** All that is not the loop's own doing. close is the await of closing the execution as completed. */
  datatype Script = Script(start: Moment, turns: nat -> TurnScript, close: Moment, usage: bool, end: seq<Act>)

  function Began(operationPrefix: string, toolInvocationAllowed: bool, initial: seq<Message>, ownerAborted: bool): RunState {
    var status := if ownerAborted then Cancelled else Running;
    RunState(operationPrefix, toolInvocationAllowed, status, ownerAborted, false, false, map[], initial, [], [StateChanged(status)])
  }

  function Emitted(s: RunState, e: LoopEvent): RunState {
    s.(log := s.log + [e], subscriptions := Delivered(s.subscriptions, e))
  }

  function Updated(s: RunState, next: Status): RunState {
    if Terminal(s.status) || s.status == next then s else Emitted(s.(status := next), StateChanged(next))
  }

  function AfterCancel(s: RunState): RunState {
    if Terminal(s.status) then s
    else Updated(s.(pauseRequested := false, waitingForResume := false, aborted := true), Cancelled)
  }

  function AfterPause(s: RunState): RunState {
    if s.status.Running? || s.status.Waiting? then s.(pauseRequested := true) else s
  }

  function AfterResume(s: RunState): RunState {
    if s.pauseRequested || s.status.Paused? then s.(pauseRequested := false, waitingForResume := false) else s
  }

  function NewSubscription(log: seq<LoopEvent>): Subscription {
    Subscription(true, Recent(log), [], |log|, if |log| <= HISTORY then 0 else |log| - HISTORY)
  }

  /** One link of a subscriber's chain. */
  function Advanced(s: Subscription): Subscription
    requires s.queue != []
  {
    if s.active then s.(queue := s.queue[1..], delivered := s.delivered + [s.queue[0]]) else s
  }

  function Acted(s: RunState, act: Act): RunState {
    match act
    case DoCancel => AfterCancel(s)
    case DoPause => AfterPause(s)
    case DoResume => AfterResume(s)
    case Follow(id) =>
      if id in s.subscriptions then s else s.(subscriptions := s.subscriptions[id := NewSubscription(s.log)])
    case Unfollow(id) =>
      if id !in s.subscriptions then s
      else s.(subscriptions := s.subscriptions[id := s.subscriptions[id].(active := false)])
    case Deliver(id) =>
      if id !in s.subscriptions || s.subscriptions[id].queue == [] then s
      else s.(subscriptions := s.subscriptions[id := Advanced(s.subscriptions[id])])
    case Interaction(waiting) =>
      if s.status.Running? || s.status.Waiting? then Updated(s, if waiting then Waiting else Running) else s
    case Announce => Emitted(s, InteractionWait)
  }

  function ActedAll(s: RunState, acts: seq<Act>): RunState
    decreases |acts|
  {
    if acts == [] then s else ActedAll(Acted(s, acts[0]), acts[1..])
  }

  /** The end of a pause: a resume or a cancel. */
  function Rested(s: RunState, rest: Rest): RunState {
    var t := ActedAll(s, rest.acts);
    if !t.waitingForResume then t else if rest.cancelled then AfterCancel(t) else AfterResume(t)
  }

  function AtSafePoint(s: RunState, rest: Rest): (RunState, bool) {
    if s.aborted then (s, false)
    else if !s.pauseRequested then (s, true)
    else
      var t := Rested(Updated(s, Paused).(waitingForResume := true), rest);
      if t.aborted then (t, false) else (Updated(t, Running), true)
  }

  function CalledBack(s: RunState, c: CallbackAt): RunState {
    var t := ActedAll(s, c.acts);
    match c.callback
    case PolicyWait => Emitted(Updated(t, Waiting), InteractionWait)
    case ApprovedToken(token) => Emitted(t, ModelToken(token))
  }

  function CalledBackAll(s: RunState, callbacks: seq<CallbackAt>): RunState
    decreases |callbacks|
  {
    if callbacks == [] then s else CalledBackAll(CalledBack(s, callbacks[0]), callbacks[1..])
  }

  function Streamed(callbacks: seq<CallbackAt>): bool {
    exists i | 0 <= i < |callbacks| :: callbacks[i].callback.ApprovedToken?
  }

  function Asked(s: RunState, turn: nat, script: TurnScript): RunState {
    var t := s.(sent := s.sent + [ModelCall(Key(s.operationPrefix, turn), s.messages)]);
    ActedAll(CalledBackAll(t, script.callbacks), script.acts)
  }

  function Invoked(s: RunState, script: ToolScript): RunState {
    var t := ActedAll(s, script.acts);
    if script.asked.None? then t else ActedAll(Emitted(Updated(t, Waiting), InteractionWait), script.asked.value)
  }

  function CallDone(s: RunState, call: ToolCall, script: ToolScript): (RunState, bool) {
    var (t, ok) := AtSafePoint(s, script.rest);
    if !ok || !t.toolInvocationAllowed then (t, false)
    else
      var u := Invoked(Emitted(t, ToolStart(call.id)), script);
      if script.output.None? || u.aborted then (u, false)
      else
        var v := Updated(u, Running);
        (Emitted(v.(messages := v.messages + [Answer(call.id, script.output.value)]), ToolResult(call.id)), true)
  }

  function CallsDone(s: RunState, calls: seq<ToolCall>, tools: nat -> ToolScript, i: nat): (RunState, bool)
    requires i <= |calls|
    decreases |calls| - i
  {
    if i == |calls| then (s, true)
    else
      var (t, ok) := CallDone(s, calls[i], tools(i));
      if ok then CallsDone(t, calls, tools, i + 1) else (t, false)
  }

  function Refreshed(s: RunState, changed: bool): RunState {
    if changed then Emitted(s, UsageChanged) else s
  }

  function Text(content: Option<string>): string {
    if content.Some? then content.value else ""
  }

  function ReplyShown(s: RunState, content: Option<string>, streamed: bool, usage: bool): RunState {
    Refreshed(Emitted(if Text(content) != "" && !streamed then Emitted(s, ModelToken(Text(content))) else s, ModelEnd), usage)
  }

  function Concluded(s: RunState, completion: Completion, script: TurnScript, close: Moment): (RunState, Next) {
    var t := ReplyShown(s, completion.content, Streamed(script.callbacks), script.usage);
    if completion.calls != [] then
      var u := t.(messages := t.messages + [Assistant(Text(completion.content), completion.calls)]);
      var (v, ok) := CallsDone(u, completion.calls, script.tools, 0);
      (v, if ok then GoOn else Threw)
    else if completion.content.None? || t.aborted then (t, Threw)
    else
      var u := ActedAll(t, close.acts);
      if close.ok then (Emitted(Updated(u, Completed), FinalOutput(completion.content.value)), Ended) else (u, Threw)
  }

  function TurnDone(s: RunState, turn: nat, script: TurnScript, close: Moment): (RunState, Next) {
    var (t, ok) := AtSafePoint(s, script.before);
    if !ok then (t, Threw)
    else
      var u := Asked(Emitted(Updated(t, Running), ModelStart), turn, script);
      if script.result.None? then (u, Threw)
      else
        var (v, ok') := AtSafePoint(u, script.after);
        if ok' then Concluded(v, script.result.value, script, close) else (v, Threw)
  }

  function TurnsDone(s: RunState, turn: nat, script: Script): (RunState, bool)
    requires turn <= TURNS
    decreases TURNS - turn
  {
    if turn == TURNS then (s, false)
    else
      var (t, next) := TurnDone(s, turn, script.turns(turn), script.close);
      if next.GoOn? then TurnsDone(t, turn + 1, script) else (t, next.Ended?)
  }

  function Guarded(s: RunState, script: Script): (RunState, bool) {
    var t := ActedAll(s, script.start.acts);
    if !script.start.ok || t.aborted then (t, false) else TurnsDone(t, 0, script)
  }

  /** A whole execution. */
  function Executed(s: RunState, script: Script): RunState {
    var (t, ok) := Guarded(s, script);
    if ok then t
    else
      var u := Refreshed(t, script.usage);
      ActedAll(if u.aborted then u else Emitted(Updated(u, Failed), RunFailed), script.end)
  }

  /** A whole run: one whose owner is already gone is not executed, and others can only follow its events. */
  function Ran(s: RunState, script: Script): RunState {
    if s.aborted then ActedAll(s, script.end) else Executed(s, script)
  }

  // ----- How a run ends

  predicate NoEnding(log: seq<LoopEvent>, i: nat) {
    forall k | i <= k < |log| :: !log[k].FinalOutput? && !log[k].RunFailed?
  }

  /** What the steps before the end have in common. */
  predicate Goes(s: RunState, t: RunState) {
    && s.log <= t.log && NoEnding(t.log, |s.log|) && Moves(s.status, t.status)
    && ((s.aborted <==> s.status.Cancelled?) ==> (t.aborted <==> t.status.Cancelled?))
  }

  lemma Stays(s: RunState)
    ensures Goes(s, s)
  {
  }

  lemma GoesOn(s: RunState, t: RunState, u: RunState)
    requires Goes(s, t) && Goes(t, u)
    ensures Goes(s, u)
  {
  }

  lemma EmitGoes(s: RunState, e: LoopEvent)
    requires !e.FinalOutput? && !e.RunFailed?
    ensures Goes(s, Emitted(s, e))
  {
  }

  lemma UpdateGoes(s: RunState, next: Status)
    requires !Terminal(next)
    ensures Goes(s, Updated(s, next))
  {
  }

  lemma ActGoes(s: RunState, act: Act)
    ensures Goes(s, Acted(s, act))
    ensures !Terminal(s.status) ==> (Acted(s, act).status.Cancelled? <==> act.DoCancel?)
  {
    hide Delivered, Recent;
  }

  /** Cancelled before the end exactly when somebody cancels. */
  lemma {:induction false} ActsGo(s: RunState, acts: seq<Act>)
    ensures Goes(s, ActedAll(s, acts))
    ensures !Terminal(s.status) ==> (ActedAll(s, acts).status.Cancelled? <==> DoCancel in acts)
    decreases |acts|
  {
    hide Acted, NoEnding;
    Stays(s);
    if acts != [] {
      var t := Acted(s, acts[0]);
      ActGoes(s, acts[0]);
      ActsGo(t, acts[1..]);
      assert Moves(t.status, ActedAll(t, acts[1..]).status);
      GoesOn(s, t, ActedAll(s, acts));
      assert acts == [acts[0]] + acts[1..];
    }
  }

  lemma RestGoes(s: RunState, rest: Rest)
    ensures Goes(s, Rested(s, rest))
  {
    hide ActedAll, NoEnding, Goes;
    var t := ActedAll(s, rest.acts);
    ActsGo(s, rest.acts);
    ActGoes(t, if rest.cancelled then DoCancel else DoResume);
    if t.waitingForResume {
      GoesOn(s, t, Rested(s, rest));
    }
  }

  lemma SafePointGoes(s: RunState, rest: Rest)
    ensures Goes(s, AtSafePoint(s, rest).0)
    ensures AtSafePoint(s, rest).1 ==> !AtSafePoint(s, rest).0.aborted
  {
    hide Rested, NoEnding;
    Stays(s);
    var t := Updated(s, Paused);
    UpdateGoes(s, Paused);
    var u := t.(waitingForResume := true);
    RestGoes(u, rest);
    GoesOn(s, u, Rested(u, rest));
    UpdateGoes(Rested(u, rest), Running);
    GoesOn(s, Rested(u, rest), Updated(Rested(u, rest), Running));
  }

  lemma WaitGoes(s: RunState)
    ensures Goes(s, Emitted(Updated(s, Waiting), InteractionWait))
  {
    hide NoEnding, Goes;
    UpdateGoes(s, Waiting);
    EmitGoes(Updated(s, Waiting), InteractionWait);
    GoesOn(s, Updated(s, Waiting), Emitted(Updated(s, Waiting), InteractionWait));
  }

  lemma CallbackGoes(s: RunState, c: CallbackAt)
    ensures Goes(s, CalledBack(s, c))
  {
    hide ActedAll, Goes, Updated, Emitted;
    var t := ActedAll(s, c.acts);
    ActsGo(s, c.acts);
    WaitGoes(t);
    if c.callback.ApprovedToken? {
      EmitGoes(t, ModelToken(c.callback.token));
    }
    GoesOn(s, t, CalledBack(s, c));
  }

  lemma {:induction false} CallbacksGo(s: RunState, callbacks: seq<CallbackAt>)
    ensures Goes(s, CalledBackAll(s, callbacks))
    decreases |callbacks|
  {
    hide CalledBack, NoEnding;
    Stays(s);
    if callbacks != [] {
      CallbackGoes(s, callbacks[0]);
      CallbacksGo(CalledBack(s, callbacks[0]), callbacks[1..]);
      GoesOn(s, CalledBack(s, callbacks[0]), CalledBackAll(s, callbacks));
    }
  }

  lemma InvocationGoes(s: RunState, script: ToolScript)
    ensures Goes(s, Invoked(s, script))
  {
    hide ActedAll, Goes, Updated, Emitted;
    var t := ActedAll(s, script.acts);
    ActsGo(s, script.acts);
    if script.asked.Some? {
      var u := Emitted(Updated(t, Waiting), InteractionWait);
      WaitGoes(t);
      GoesOn(s, t, u);
      ActsGo(u, script.asked.value);
      GoesOn(s, u, Invoked(s, script));
    }
  }

  lemma CallGoes(s: RunState, call: ToolCall, script: ToolScript)
    ensures Goes(s, CallDone(s, call, script).0)
  {
    hide Invoked, AtSafePoint, Updated, NoEnding, Delivered;
    SafePointGoes(s, script.rest);
    var t := AtSafePoint(s, script.rest).0;
    var u := Emitted(t, ToolStart(call.id));
    EmitGoes(t, ToolStart(call.id));
    GoesOn(s, t, u);
    InvocationGoes(u, script);
    var v := Invoked(u, script);
    GoesOn(s, u, v);
    UpdateGoes(v, Running);
    GoesOn(s, v, Updated(v, Running));
    if script.output.Some? {
      var w := Updated(v, Running).(messages := Updated(v, Running).messages + [Answer(call.id, script.output.value)]);
      EmitGoes(w, ToolResult(call.id));
      GoesOn(s, w, Emitted(w, ToolResult(call.id)));
    }
  }

  lemma {:induction false} CallsGo(s: RunState, calls: seq<ToolCall>, tools: nat -> ToolScript, i: nat)
    requires i <= |calls|
    ensures Goes(s, CallsDone(s, calls, tools, i).0)
    decreases |calls| - i
  {
    hide CallDone;
    if i < |calls| {
      CallGoes(s, calls[i], tools(i));
      CallsGo(CallDone(s, calls[i], tools(i)).0, calls, tools, i + 1);
    }
  }

  lemma {:induction false} ActsAskNothing(s: RunState, acts: seq<Act>)
    ensures ActedAll(s, acts).sent == s.sent
    decreases |acts|
  {
    if acts != [] {
      ActsAskNothing(Acted(s, acts[0]), acts[1..]);
    }
  }

  lemma RestAsksNothing(s: RunState, rest: Rest)
    ensures AtSafePoint(s, rest).0.sent == s.sent
  {
    ActsAskNothing(Updated(s, Paused).(waitingForResume := true), rest.acts);
  }

  lemma {:induction false} CallbacksAskNothing(s: RunState, callbacks: seq<CallbackAt>)
    ensures CalledBackAll(s, callbacks).sent == s.sent
    decreases |callbacks|
  {
    hide ActedAll;
    if callbacks != [] {
      ActsAskNothing(s, callbacks[0].acts);
      CallbacksAskNothing(CalledBack(s, callbacks[0]), callbacks[1..]);
    }
  }

  lemma CallAsksNothing(s: RunState, call: ToolCall, script: ToolScript)
    ensures CallDone(s, call, script).0.sent == s.sent
  {
    hide ActedAll, AtSafePoint, Delivered;
    RestAsksNothing(s, script.rest);
    var t := Emitted(AtSafePoint(s, script.rest).0, ToolStart(call.id));
    ActsAskNothing(t, script.acts);
    if script.asked.Some? {
      ActsAskNothing(Emitted(Updated(ActedAll(t, script.acts), Waiting), InteractionWait), script.asked.value);
    }
  }

  lemma {:induction false} CallsAskNothing(s: RunState, calls: seq<ToolCall>, tools: nat -> ToolScript, i: nat)
    requires i <= |calls|
    ensures CallsDone(s, calls, tools, i).0.sent == s.sent
    decreases |calls| - i
  {
    hide CallDone;
    if i < |calls| {
      CallAsksNothing(s, calls[i], tools(i));
      CallsAskNothing(CallDone(s, calls[i], tools(i)).0, calls, tools, i + 1);
    }
  }

  lemma ConclusionAsksNothing(s: RunState, completion: Completion, script: TurnScript, close: Moment)
    ensures Concluded(s, completion, script, close).0.sent == s.sent
  {
    hide ActedAll, CallsDone, Delivered;
    var t := ReplyShown(s, completion.content, Streamed(script.callbacks), script.usage);
    CallsAskNothing(t.(messages := t.messages + [Assistant(Text(completion.content), completion.calls)]), completion.calls,
                    script.tools, 0);
    ActsAskNothing(t, close.acts);
  }

  /** A turn asks the model once, unless the run was cancelled before that. */
  lemma TurnAsksOnce(s: RunState, turn: nat, script: TurnScript, close: Moment)
    ensures var (t, next) := TurnDone(s, turn, script, close);
      (next.Threw? && t.sent == s.sent) || (|t.sent| == |s.sent| + 1 && s.sent <= t.sent)
  {
    hide ActedAll, AtSafePoint, CalledBackAll, Concluded, Delivered;
    RestAsksNothing(s, script.before);
    var u := Emitted(Updated(AtSafePoint(s, script.before).0, Running), ModelStart);
    var v := u.(sent := u.sent + [ModelCall(Key(u.operationPrefix, turn), u.messages)]);
    CallbacksAskNothing(v, script.callbacks);
    ActsAskNothing(CalledBackAll(v, script.callbacks), script.acts);
    var w := Asked(u, turn, script);
    RestAsksNothing(w, script.after);
    if script.result.Some? {
      ConclusionAsksNothing(AtSafePoint(w, script.after).0, script.result.value, script, close);
    }
  }

  /** What the model replied in a turn without asking for a tool. */
  function FinalReply(script: TurnScript): Option<string> {
    if script.result.Some? && script.result.value.calls == [] then script.result.value.content else None
  }

  /** Where a run with a final output stands: completed, unless it was cancelled while it was closed. */
  predicate EndsIn(s: RunState, t: RunState, close: Moment, output: Option<string>) {
    && |s.log| < |t.log| && output.Some? && t.log[|t.log| - 1] == FinalOutput(output.value) && NoEnding(t.log[..|t.log| - 1], |s.log|) && s.log <= t.log
    && t.status == if DoCancel in close.acts then Cancelled else Completed
  }

  lemma TurnGoes(s: RunState, turn: nat, script: TurnScript, close: Moment)
    requires !s.status.Completed? && !s.status.Failed? && (s.aborted <==> s.status.Cancelled?)
    ensures var (t, next) := TurnDone(s, turn, script, close); if next.Ended? then EndsIn(s, t, close, FinalReply(script)) else Goes(s, t)
  {
    hide Asked, AtSafePoint, Concluded, Delivered;
    SafePointGoes(s, script.before);
    var t := AtSafePoint(s, script.before).0;
    UpdateGoes(t, Running);
    EmitGoes(Updated(t, Running), ModelStart);
    var u := Emitted(Updated(t, Running), ModelStart);
    hide NoEnding, Emitted, Updated;
    GoesOn(s, t, Updated(t, Running));
    GoesOn(s, Updated(t, Running), u);
    var w := Asked(u, turn, script);
    AskGoes(u, turn, script);
    GoesOn(s, u, w);
    SafePointGoes(w, script.after);
    var x := AtSafePoint(w, script.after).0;
    GoesOn(s, w, x);
    if script.result.Some? {
      ConclusionGoes(x, script.result.value, script, close);
      ContinuesSo(s, x, Concluded(x, script.result.value, script, close).0, close, FinalReply(script));
    }
  }

  lemma ContinuesSo(s: RunState, t: RunState, u: RunState, close: Moment, output: Option<string>)
    requires Goes(s, t)
    ensures Goes(t, u) ==> Goes(s, u)
    ensures EndsIn(t, u, close, output) ==> EndsIn(s, u, close, output)
  {
    if EndsIn(t, u, close, output) {
      assert forall k | |s.log| <= k < |t.log| :: u.log[k] == t.log[k];
    }
  }

  lemma AskGoes(s: RunState, turn: nat, script: TurnScript)
    ensures Goes(s, Asked(s, turn, script))
  {
    hide ActedAll, CalledBackAll, NoEnding;
    var t := s.(sent := s.sent + [ModelCall(Key(s.operationPrefix, turn), s.messages)]);
    Stays(s);
    assert Goes(s, t);
    CallbacksGo(t, script.callbacks);
    GoesOn(s, t, CalledBackAll(t, script.callbacks));
    ActsGo(CalledBackAll(t, script.callbacks), script.acts);
    GoesOn(s, CalledBackAll(t, script.callbacks), Asked(s, turn, script));
  }

  lemma ConclusionGoes(s: RunState, completion: Completion, script: TurnScript, close: Moment)
    requires !s.status.Completed? && !s.status.Failed? && (s.aborted <==> s.status.Cancelled?)
    ensures var (t, next) := Concluded(s, completion, script, close);
      if next.Ended? then EndsIn(s, t, close, if completion.calls == [] then completion.content else None) else Goes(s, t)
  {
    hide ActedAll, CallsDone, ReplyShown;
    var t := ReplyShown(s, completion.content, Streamed(script.callbacks), script.usage);
    ReplyGoes(s, completion.content, Streamed(script.callbacks), script.usage);
    if completion.calls != [] {
      var u := t.(messages := t.messages + [Assistant(Text(completion.content), completion.calls)]);
      CallsGo(u, completion.calls, script.tools, 0);
      GoesOn(s, u, CallsDone(u, completion.calls, script.tools, 0).0);
    } else if completion.content.Some? && !t.aborted {
      var u := ActedAll(t, close.acts);
      ActsGo(t, close.acts);
      GoesOn(s, t, u);
      if close.ok {
        OutputEnds(s, u, completion.content.value);
      }
    }
  }

  lemma ReplyGoes(s: RunState, content: Option<string>, streamed: bool, usage: bool)
    ensures Goes(s, ReplyShown(s, content, streamed, usage))
  {
    hide Delivered;
    EmitGoes(s, ModelToken(Text(content)));
    var t := if Text(content) != "" && !streamed then Emitted(s, ModelToken(Text(content))) else s;
    EmitGoes(t, ModelEnd);
    EmitGoes(Emitted(t, ModelEnd), UsageChanged);
  }

  lemma OutputEnds(s: RunState, t: RunState, output: string)
    requires Goes(s, t)
    ensures var u := Emitted(Updated(t, Completed), FinalOutput(output));
      s.log <= u.log && |s.log| < |u.log| && u.log[|u.log| - 1] == FinalOutput(output) && NoEnding(u.log[..|u.log| - 1], |s.log|)
  {
    hide Delivered;
    var v := Updated(t, Completed);
    assert Emitted(v, FinalOutput(output)).log[..|v.log|] == v.log;
  }

  lemma {:induction false} TurnsGo(s: RunState, turn: nat, script: Script)
    requires turn <= TURNS
    requires !s.status.Completed? && !s.status.Failed? && (s.aborted <==> s.status.Cancelled?) && |s.sent| == turn
    ensures var (t, ok) := TurnsDone(s, turn, script);
      if ok then |t.sent| > 0 && EndsIn(s, t, script.close, FinalReply(script.turns(|t.sent| - 1))) else Goes(s, t)
    decreases TURNS - turn
  {
    hide TurnDone;
    if turn < TURNS {
      TurnGoes(s, turn, script.turns(turn), script.close);
      TurnAsksOnce(s, turn, script.turns(turn), script.close);
      var (t, next) := TurnDone(s, turn, script.turns(turn), script.close);
      if next.GoOn? {
        TurnsGo(t, turn + 1, script);
      }
    }
  }

  predicate HasFinal(log: seq<LoopEvent>) {
    exists k | 0 <= k < |log| :: log[k].FinalOutput?
  }

  predicate HasFailed(log: seq<LoopEvent>) {
    exists k | 0 <= k < |log| :: log[k].RunFailed?
  }

  /** Every final output is this one. */
  predicate OnlyOutput(log: seq<LoopEvent>, output: Option<string>) {
    forall k | 0 <= k < |log| :: log[k].FinalOutput? ==> output == Some(log[k].output)
  }

  /** A final output that comes last stays the only ending. */
  lemma OutputTold(s: RunState, t: RunState, close: Moment, output: Option<string>)
    requires NoEnding(s.log, 0) && EndsIn(s, t, close, output)
    ensures HasFinal(t.log) && !HasFailed(t.log) && OnlyOutput(t.log, output)
  {
    assert t.log[|t.log| - 1].FinalOutput?;
    forall k | 0 <= k < |t.log| - 1
      ensures !t.log[k].RunFailed? && !t.log[k].FinalOutput?
    {
      assert t.log[..|t.log| - 1][k] == t.log[k];
    }
  }

  /** What somebody does after the run failed changes nothing. */
  lemma FailureTold(s: RunState, acts: seq<Act>)
    requires NoEnding(s.log, 0) && !Terminal(s.status)
    ensures var t := ActedAll(Emitted(Updated(s, Failed), RunFailed), acts);
      t.status.Failed? && HasFailed(t.log) && !HasFinal(t.log)
  {
    hide Delivered, ActedAll;
    var u := Emitted(Updated(s, Failed), RunFailed);
    var t := ActedAll(u, acts);
    ActsGo(u, acts);
    assert u.log[|u.log| - 1].RunFailed?;
    assert forall k | 0 <= k < |u.log| :: t.log[k] == u.log[k] && !u.log[k].FinalOutput?;
  }

  /**
   * However the awaits of a run go: it ends; it has failed exactly when it says so; it has
   * completed exactly when it gave a final output and nobody cancelled it in the await that
   * closes its execution. With a cancel there it gives the output and is cancelled. The
   * output is what the model replied in the last turn that asked it, without calling a tool.
   */
  lemma EndExactly(operationPrefix: string, toolInvocationAllowed: bool, initial: seq<Message>, ownerAborted: bool, script: Script)
    ensures var t := Ran(Began(operationPrefix, toolInvocationAllowed, initial, ownerAborted), script);
      && Terminal(t.status) && (ownerAborted ==> t.status.Cancelled?)
      && (t.status.Completed? <==> HasFinal(t.log) && DoCancel !in script.close.acts)
      && (HasFinal(t.log) && DoCancel in script.close.acts ==> t.status.Cancelled?)
      && (t.status.Failed? <==> HasFailed(t.log))
      && !(HasFinal(t.log) && HasFailed(t.log))
      && (HasFinal(t.log) ==> |t.sent| > 0 && OnlyOutput(t.log, FinalReply(script.turns(|t.sent| - 1))))
  {
    hide ActedAll, Executed;
    var s := Began(operationPrefix, toolInvocationAllowed, initial, ownerAborted);
    if ownerAborted {
      ActsGo(s, script.end);
    } else {
      ExecutionEnds(s, script);
    }
  }

  lemma ExecutionEnds(s: RunState, script: Script)
    requires NoEnding(s.log, 0) && !s.status.Completed? && !s.status.Failed? && (s.aborted <==> s.status.Cancelled?) && s.sent == []
    ensures var t := Executed(s, script);
      && Terminal(t.status)
      && (t.status.Completed? <==> HasFinal(t.log) && DoCancel !in script.close.acts)
      && (HasFinal(t.log) && DoCancel in script.close.acts ==> t.status.Cancelled?)
      && (t.status.Failed? <==> HasFailed(t.log))
      && !(HasFinal(t.log) && HasFailed(t.log))
      && (HasFinal(t.log) ==> |t.sent| > 0 && OnlyOutput(t.log, FinalReply(script.turns(|t.sent| - 1))))
  {
    hide ActedAll, TurnsDone, Emitted, Updated;
    ActsGo(s, script.start.acts);
    var t := ActedAll(s, script.start.acts);
    ActsAskNothing(s, script.start.acts);
    TurnsGo(t, 0, script);
    var (u, ok) := Guarded(s, script);
    if ok {
      OutputTold(t, u, script.close, FinalReply(script.turns(|u.sent| - 1)));
    } else {
      hide EndsIn;
      EmitGoes(u, UsageChanged);
      var v := Refreshed(u, script.usage);
      assert Goes(s, v);
      if v.aborted {
        ActsGo(v, script.end);
        GoesOn(s, v, ActedAll(v, script.end));
      } else {
        FailureTold(v, script.end);
      }
    }
  }

  /** A run that is cancelled while its execution is being closed. */
  function CancelledClose(): Script {
    var calm := Rest([], false);
    Script(Moment([], true),
      _ => TurnScript(calm, [], [], Some(Completion(Some("done"), [])), calm, false, _ => ToolScript(calm, [], None, None)),
      Moment([DoCancel], true), false, [])
  }

  lemma CancelledWithFinalOutput(operationPrefix: string, initial: seq<Message>)
    ensures var t := Ran(Began(operationPrefix, false, initial, false), CancelledClose());
      HasFinal(t.log) && t.status.Cancelled? && t.aborted
  {
    var s, script := Began(operationPrefix, false, initial, false), CancelledClose();
    var turn := script.turns(0);
    var (t, next) := TurnDone(s, 0, turn, script.close);
    assert next.Ended?;
    assert TurnsDone(s, 0, script) == (t, true);
    EndExactly(operationPrefix, false, initial, false, script);
    assert t.log[|t.log| - 1].FinalOutput?;
  }

  // ----- The run

  class LoopRun {
    const operationPrefix: string
    const toolInvocationAllowed: bool
    const initial: seq<Message>

    var status: Status
    var aborted: bool
    var pauseRequested: bool
    var waitingForResume: bool
    var history: seq<LoopEvent>
    var subscriptions: map<nat, Subscription>
    var messages: seq<Message>

    // What the model gateway was asked, and every event there was.
    var sent: seq<ModelCall>
    var log: seq<LoopEvent>

    ghost function View(): RunState
      reads this`status, this`aborted, this`pauseRequested, this`waitingForResume, this`subscriptions, this`messages, this`sent,
        this`log
    {
      RunState(operationPrefix, toolInvocationAllowed, status, aborted, pauseRequested, waitingForResume, subscriptions, messages,
        sent, log)
    }

    ghost predicate Core()
      reads this`status, this`log, this`history, this`subscriptions, this`sent, this`pauseRequested, this`waitingForResume
    {
      && Proper(log) && LastState(log) == Some(status)
      && history == Recent(log)
      && AllInOrder(log, subscriptions)
      && (waitingForResume ==> pauseRequested)
      && |sent| <= TURNS && (forall i | 0 <= i < |sent| :: SentProperly(sent[i], i))
    }

    ghost predicate Valid()
      reads this`status, this`log, this`history, this`subscriptions, this`sent, this`pauseRequested, this`waitingForResume,
        this`aborted
    {
      Core() && (aborted <==> status.Cancelled?)
    }

    /** The i-th call of the model has a key of its own, and its messages leave no tool call unanswered. */
    ghost predicate SentProperly(call: ModelCall, i: nat) {
      && call.key == Key(operationPrefix, i)
      && initial <= call.messages && AllAnswered(call.messages[|initial|..])
    }

    /** A run whose owner is already gone is cancelled at once. */
    constructor (operationPrefix: string, toolInvocationAllowed: bool, initial: seq<Message>, ownerAborted: bool)
      ensures Valid() && messages == initial && sent == [] && subscriptions == map[]
      ensures this.operationPrefix == operationPrefix && this.initial == initial
      ensures View() == Began(operationPrefix, toolInvocationAllowed, initial, ownerAborted)
    {
      this.operationPrefix, this.toolInvocationAllowed, this.initial := operationPrefix, toolInvocationAllowed, initial;
      status, aborted := (if ownerAborted then Cancelled else Running), ownerAborted;
      pauseRequested, waitingForResume, subscriptions := false, false, map[];
      messages, sent := initial, [];
      history := [StateChanged(if ownerAborted then Cancelled else Running)];
      log := [StateChanged(if ownerAborted then Cancelled else Running)];
    }

    // ----- Events

    method Emit(e: LoopEvent)
      requires Core() && !e.StateChanged?
      modifies this`history, this`subscriptions, this`log
      ensures Core() && log == old(log) + [e] && View() == Emitted(old(View()), e)
    {
      ProperAppend(log, e);
      EmitAny(e);
    }

    method EmitAny(e: LoopEvent)
      requires history == Recent(log) && AllInOrder(log, subscriptions)
      modifies this`history, this`subscriptions, this`log
      ensures log == old(log) + [e] && history == Recent(log) && AllInOrder(log, subscriptions)
      ensures View() == Emitted(old(View()), e)
    {
      hide AllInOrder, Delivered, Proper, Recent;
      AllInOrderGrow(log, subscriptions, e);
      RecentGrows(log, e);
      history := history + [e];
      if |history| > HISTORY {
        history := history[1..];
      }
      log := log + [e];
      subscriptions := Delivered(subscriptions, e);
    }

    /** Changes the status, unless the run has ended; only a change is announced. */
    method Update(next: Status)
      requires Core()
      modifies this`status, this`history, this`subscriptions, this`log
      ensures Core() && old(log) <= log && status == if Terminal(old(status)) then old(status) else next
      ensures View() == Updated(old(View()), next)
    {
      hide AllInOrder, Recent;
      if Terminal(status) {
        return;
      }
      var previous := status;
      status := next;
      if status != previous {
        ProperAppend(log, StateChanged(status));
        EmitAny(StateChanged(status));
      }
    }

    // ----- What others do

    method Cancel() returns (done: bool)
      requires Valid()
      modifies this`status, this`aborted, this`pauseRequested, this`waitingForResume, this`history, this`subscriptions, this`log
      ensures Valid() && old(log) <= log && done == !Terminal(old(status))
      ensures status == if done then Cancelled else old(status)
      ensures done ==> !pauseRequested && !waitingForResume
      ensures View() == AfterCancel(old(View()))
    {
      if Terminal(status) {
        return false;
      }
      pauseRequested, waitingForResume := false, false;
      aborted := true;
      Update(Cancelled);
      return true;
    }

    method Pause() returns (done: bool)
      requires Valid()
      modifies this`pauseRequested
      ensures Valid() && done == (status.Running? || status.Waiting?) && pauseRequested == (done || old(pauseRequested))
      ensures View() == AfterPause(old(View()))
    {
      if !(status.Running? || status.Waiting?) {
        return false;
      }
      pauseRequested := true;
      return true;
    }

    method Resume() returns (done: bool)
      requires Valid()
      modifies this`pauseRequested, this`waitingForResume
      ensures Valid() && done == (old(pauseRequested) || status.Paused?)
      ensures done ==> !pauseRequested && !waitingForResume
      ensures View() == AfterResume(old(View()))
    {
      if !pauseRequested && !status.Paused? {
        return false;
      }
      pauseRequested, waitingForResume := false, false;
      return true;
    }

    /** A new subscriber is sent the history, oldest first. */
    method Subscribe(id: nat)
      requires Valid() && id !in subscriptions
      modifies this`subscriptions
      ensures Valid() && id in subscriptions && subscriptions == old(subscriptions)[id := subscriptions[id]]
      ensures subscriptions[id].active && subscriptions[id].queue == Recent(log) && subscriptions[id].delivered == []
      ensures subscriptions[id].since == |log| && View() == Acted(old(View()), Follow(id))
    {
      hide AllInOrder, InOrder, Proper, Recent;
      var subscription := NewSubscription(log).(queue := []);
      for i := 0 to |history|
        invariant subscription == NewSubscription(log).(queue := history[..i])
      {
        subscription := subscription.(queue := subscription.queue + [history[i]]);
      }
      assert subscription == NewSubscription(log);
      NewInOrder(log, subscriptions, id);
      subscriptions := subscriptions[id := subscription];
    }

    method Unsubscribe(id: nat)
      requires Valid() && id in subscriptions
      modifies this`subscriptions
      ensures Valid() && subscriptions == old(subscriptions)[id := old(subscriptions[id]).(active := false)]
      ensures View() == Acted(old(View()), Unfollow(id))
    {
      hide InOrder;
      GoneInOrder(log, subscriptions[id]);
      subscriptions := subscriptions[id := subscriptions[id].(active := false)];
    }

    /** The next link of a subscriber's chain runs; one that has gone gets nothing more. */
    method DeliverNext(id: nat)
      requires Valid() && id in subscriptions && subscriptions[id].queue != []
      modifies this`subscriptions
      ensures Valid() && id in subscriptions && subscriptions == old(subscriptions)[id := subscriptions[id]]
      ensures subscriptions[id].delivered ==
        old(subscriptions[id].delivered) + if old(subscriptions[id].active) then [old(subscriptions[id].queue[0])] else []
      ensures View() == Acted(old(View()), Deliver(id))
    {
      hide InOrder;
      var s := subscriptions[id];
      if s.active {
        NextInOrder(log, s);
        subscriptions := subscriptions[id := s.(queue := s.queue[1..], delivered := s.delivered + [s.queue[0]])];
      }
      assert subscriptions == old(subscriptions)[id := Advanced(s)];
    }

    /** Interactions with people come and go while the run is neither paused nor ended. */
    method OnInteractions(waiting: bool)
      requires Valid()
      modifies this`status, this`history, this`subscriptions, this`log
      ensures Valid() && old(log) <= log && Moves(old(status), status)
      ensures status ==
        if old(status).Running? || old(status).Waiting? then (if waiting then Waiting else Running) else old(status)
      ensures View() == Acted(old(View()), Interaction(waiting))
    {
      if status.Running? || status.Waiting? {
        Update(if waiting then Waiting else Running);
      }
    }

    method Perform(act: Act)
      requires Valid()
      modifies this`status, this`aborted, this`pauseRequested, this`waitingForResume, this`history, this`subscriptions, this`log
      ensures Valid() && old(log) <= log && Moves(old(status), status)
      ensures View() == Acted(old(View()), act)
    {
      hide Core;
      match act {
        case DoCancel => var done := Cancel();
        case DoPause => var done := Pause();
        case DoResume => var done := Resume();
        case Follow(id) => if id !in subscriptions { Subscribe(id); }
        case Unfollow(id) => if id in subscriptions { Unsubscribe(id); }
        case Deliver(id) => if id in subscriptions && subscriptions[id].queue != [] { DeliverNext(id); }
        case Interaction(waiting) => OnInteractions(waiting);
        case Announce => Emit(InteractionWait);
      }
    }

    /** Others act while the run awaits something. */
    method Await(acts: seq<Act>)
      requires Valid()
      modifies this`status, this`aborted, this`pauseRequested, this`waitingForResume, this`history, this`subscriptions, this`log
      ensures Valid() && old(log) <= log && Moves(old(status), status)
      ensures View() == ActedAll(old(View()), acts)
    {
      hide Core, Acted;
      for i := 0 to |acts|
        invariant Valid() && old(log) <= log && Moves(old(status), status)
        invariant ActedAll(View(), acts[i..]) == ActedAll(old(View()), acts)
      {
        assert acts[i..][0] == acts[i] && acts[i..][1..] == acts[i + 1..];
        Perform(acts[i]);
      }
    }

    // ----- The loop

    /** Until a resume or a cancel. */
    method Pausing(rest: Rest)
      requires Valid()
      modifies this`status, this`aborted, this`pauseRequested, this`waitingForResume, this`history, this`subscriptions, this`log
      ensures Valid() && old(log) <= log && Moves(old(status), status) && View() == Rested(old(View()), rest)
    {
      hide Core, ActedAll, Updated, Emitted;
      Await(rest.acts);
      if waitingForResume {
        var done: bool;
        if rest.cancelled {
          done := Cancel();
        } else {
          done := Resume();
        }
      }
    }

    /** Waits while a pause is requested; fails when the run was cancelled. The wait ends only by a resume or a cancel. */
    method WaitAtSafePoint(rest: Rest) returns (ok: bool)
      requires Valid()
      modifies this`status, this`aborted, this`pauseRequested, this`waitingForResume, this`history, this`subscriptions, this`log
      ensures Valid() && old(log) <= log && Moves(old(status), status)
      ensures ok ==> !aborted
      ensures (View(), ok) == AtSafePoint(old(View()), rest)
    {
      hide AllInOrder, Recent, Proper, Rested, Emitted;
      if aborted {
        return false;
      }
      if !pauseRequested {
        return true;
      }
      Update(Paused);
      waitingForResume := true;
      Pausing(rest);
      if aborted {
        return false;
      }
      Update(Running);
      return true;
    }

    /** The messages are the initial ones and completely answered rounds. */
    ghost predicate Coherent()
      reads this`messages
    {
      initial <= messages && AllAnswered(messages[|initial|..])
    }

    method Ask(turn: nat)
      requires Valid() && Coherent() && turn == |sent| < TURNS
      modifies this`sent
      ensures Valid() && sent == old(sent) + [ModelCall(Key(operationPrefix, turn), messages)]
      ensures View() == old(View()).(sent := sent)
    {
      hide AllInOrder, Recent, Proper, AllAnswered;
      sent := sent + [ModelCall(Key(operationPrefix, turn), messages)];
    }

    /** The model gateway calls back: it waits for a person, or has a token that may be shown. */
    method CallBack(c: CallbackAt)
      requires Valid()
      modifies this`status, this`aborted, this`pauseRequested, this`waitingForResume, this`history, this`subscriptions, this`log
      ensures Valid() && old(log) <= log && Moves(old(status), status) && View() == CalledBack(old(View()), c)
    {
      hide Core, ActedAll, Updated, Emitted;
      Await(c.acts);
      match c.callback {
        case PolicyWait =>
          Update(Waiting);
          Emit(InteractionWait);
        case ApprovedToken(token) =>
          Emit(ModelToken(token));
      }
    }

    /** Asks the model once more, under a key of its own. */
    method Complete(turn: nat, script: TurnScript) returns (streamed: bool)
      requires Valid() && Coherent() && turn == |sent| < TURNS
      modifies this`status, this`aborted, this`pauseRequested, this`waitingForResume, this`history, this`subscriptions,
        this`log, this`sent
      ensures Valid() && old(log) <= log && Moves(old(status), status)
      ensures sent == old(sent) + [ModelCall(Key(operationPrefix, turn), messages)]
      ensures View() == Asked(old(View()), turn, script) && streamed == Streamed(script.callbacks)
    {
      hide Core, ActedAll, CalledBack, Streamed;
      Ask(turn);
      ghost var asked := View();
      streamed := false;
      var callbacks := script.callbacks;
      NoneStreamed();
      assert callbacks[0..] == callbacks && callbacks[..0] == [];
      for i := 0 to |callbacks|
        invariant sent == old(sent) + [ModelCall(Key(operationPrefix, turn), messages)]
        invariant Valid() && old(log) <= log && Moves(old(status), status)
        invariant streamed == Streamed(callbacks[..i])
        invariant CalledBackAll(View(), callbacks[i..]) == CalledBackAll(asked, callbacks)
      {
        assert callbacks[i..][0] == callbacks[i] && callbacks[i..][1..] == callbacks[i + 1..];
        StreamedMore(callbacks, i);
        CallBack(callbacks[i]);
        streamed := streamed || callbacks[i].callback.ApprovedToken?;
      }
      assert callbacks[..|callbacks|] == callbacks && callbacks[|callbacks|..] == [];
      Await(script.acts);
    }

    method InvokeTool(script: ToolScript)
      requires Valid()
      modifies this`status, this`aborted, this`pauseRequested, this`waitingForResume, this`history, this`subscriptions, this`log
      ensures Valid() && old(log) <= log && Moves(old(status), status)
      ensures View() == Invoked(old(View()), script)
    {
      hide Core, ActedAll, Updated, Emitted;
      Await(script.acts);
      if script.asked.Some? {
        Update(Waiting);
        Emit(InteractionWait);
        Await(script.asked.value);
      }
    }

    /** One call: its answer follows in the messages, or the run ends. */
    method AnswerCall(call: ToolCall, script: ToolScript) returns (ok: bool)
      requires Valid()
      modifies this`status, this`aborted, this`pauseRequested, this`waitingForResume, this`history, this`subscriptions,
        this`log, this`messages
      ensures Valid() && old(log) <= log && Moves(old(status), status)
      ensures ok ==> script.output.Some? && messages == old(messages) + [Answer(call.id, script.output.value)]
      ensures (View(), ok) == CallDone(old(View()), call, script)
    {
      hide Core, AtSafePoint, Invoked, Updated, Emitted;
      ok := WaitAtSafePoint(script.rest);
      if !ok || !toolInvocationAllowed {
        return false;
      }
      Emit(ToolStart(call.id));
      InvokeTool(script);
      if script.output.None? || aborted {
        return false;
      }
      Update(Running);
      messages := messages + [Answer(call.id, script.output.value)];
      Emit(ToolResult(call.id));
      return true;
    }

    /** The calls of a completion, one after the other; a failure ends the run, so none stays open in a later request. */
    method AnswerCalls(completion: Completion, tools: nat -> ToolScript) returns (ok: bool)
      requires Valid() && Coherent() && completion.calls != []
      modifies this`status, this`aborted, this`pauseRequested, this`waitingForResume, this`history, this`subscriptions,
        this`log, this`messages
      ensures Valid() && old(log) <= log && Moves(old(status), status)
      ensures ok ==> Coherent()
      ensures var asked := old(View()).(messages := old(messages) + [Assistant(Text(completion.content), completion.calls)]);
        (View(), ok) == CallsDone(asked, completion.calls, tools, 0)
    {
      hide Core, AllAnswered, CallDone;
      var content := Text(completion.content);
      var calls := completion.calls;
      messages := messages + [Assistant(content, calls)];
      ghost var asked := View();
      ghost var outputs := [];
      for i := 0 to |calls|
        invariant Valid() && old(log) <= log && Moves(old(status), status)
        invariant |outputs| == i && messages == old(messages) + [Assistant(content, calls)] + Outputs(calls, outputs)
        invariant CallsDone(View(), calls, tools, i) == CallsDone(asked, calls, tools, 0)
      {
        var script := tools(i);
        ok := AnswerCall(calls[i], script);
        if !ok {
          return false;
        }
        assert Outputs(calls, outputs + [script.output.value])
          == Outputs(calls, outputs) + [Answer(calls[i].id, script.output.value)];
        outputs := outputs + [script.output.value];
      }
      AnsweredRound(old(messages)[|initial|..], content, calls, outputs);
      assert messages[|initial|..]
        == old(messages)[|initial|..] + [Assistant(content, calls)] + Outputs(calls, outputs);
      return true;
    }

    method RefreshUsage(changed: bool)
      requires Valid()
      modifies this`history, this`subscriptions, this`log
      ensures Valid() && old(log) <= log && View() == Refreshed(old(View()), changed)
    {
      if changed {
        Emit(UsageChanged);
      }
    }

    method ShowReply(content: Option<string>, streamed: bool, usage: bool)
      requires Valid()
      modifies this`history, this`subscriptions, this`log
      ensures Valid() && old(log) <= log && View() == ReplyShown(old(View()), content, streamed, usage)
    {
      hide Core, Emitted;
      if content.Some? && content.value != "" && !streamed {
        Emit(ModelToken(content.value));
      }
      Emit(ModelEnd);
      RefreshUsage(usage);
    }

    /** What follows a completion: its calls are answered, or it ends the run. */
    method Conclude(completion: Completion, streamed: bool, script: TurnScript, close: Moment) returns (next: Next)
      requires Valid() && Coherent() && !status.Completed? && !status.Failed? && streamed == Streamed(script.callbacks)
      modifies this`status, this`aborted, this`pauseRequested, this`waitingForResume, this`history, this`subscriptions,
        this`log, this`messages
      ensures Valid() && old(log) <= log
      ensures !next.Ended? ==> Moves(old(status), status)
      ensures next.GoOn? ==> Coherent()
      ensures next.Ended? ==> (status.Completed? || status.Cancelled?) && exists output :: FinalOutput(output) in log
      ensures next.Ended? ==>
        completion.calls == [] && completion.content.Some? && log[|log| - 1] == FinalOutput(completion.content.value)
      ensures (View(), next) == Concluded(old(View()), completion, script, close)
    {
      hide Core, AllAnswered, ActedAll, CallsDone, ReplyShown;
      ShowReply(completion.content, streamed, script.usage);
      if completion.calls != [] {
        var answered := AnswerCalls(completion, script.tools);
        return if answered then GoOn else Threw;
      }
      if completion.content.None? || aborted {
        return Threw;
      }
      Await(close.acts);
      if !close.ok {
        return Threw;
      }
      Update(Completed);
      Emit(FinalOutput(completion.content.value));
      assert log[|log| - 1] == FinalOutput(completion.content.value);
      return Ended;
    }

    method Turn(turn: nat, script: TurnScript, close: Moment) returns (next: Next)
      requires Valid() && Coherent() && turn == |sent| < TURNS && !status.Completed? && !status.Failed?
      modifies this`status, this`aborted, this`pauseRequested, this`waitingForResume, this`history, this`subscriptions,
        this`log, this`messages, this`sent
      ensures Valid() && old(log) <= log
      ensures !next.Ended? ==> Moves(old(status), status)
      ensures next.GoOn? ==> Coherent() && |sent| == turn + 1
      ensures next.Ended? ==> (status.Completed? || status.Cancelled?) && exists output :: FinalOutput(output) in log
      ensures (View(), next) == TurnDone(old(View()), turn, script, close)
    {
      hide Core, AllAnswered, AtSafePoint, Updated, Emitted, Asked, Concluded;
      var ok := WaitAtSafePoint(script.before);
      if !ok {
        return Threw;
      }
      Update(Running);
      Emit(ModelStart);
      var streamed := Complete(turn, script);
      if script.result.None? {
        return Threw;
      }
      ok := WaitAtSafePoint(script.after);
      if !ok {
        return Threw;
      }
      next := Conclude(script.result.value, streamed, script, close);
    }

    /** The guarded part: true when it came to an end, false when something was thrown. */
    method Turns(script: Script) returns (ok: bool)
      requires Valid() && messages == initial && sent == [] && !status.Completed? && !status.Failed?
      modifies this`status, this`aborted, this`pauseRequested, this`waitingForResume, this`history, this`subscriptions,
        this`log, this`messages, this`sent
      ensures Valid() && old(log) <= log
      ensures ok ==> (status.Completed? || status.Cancelled?) && exists output :: FinalOutput(output) in log
      ensures !ok ==> Moves(old(status), status)
      ensures (View(), ok) == Guarded(old(View()), script)
    {
      hide Core, AllAnswered, ActedAll, TurnDone;
      Await(script.start.acts);
      if !script.start.ok || aborted {
        return false;
      }
      ghost var started := View();
      assert Coherent() by {
        NothingAsked();
        assert messages[|initial|..] == [];
      }
      for turn := 0 to TURNS
        invariant Valid() && Coherent() && old(log) <= log && Moves(old(status), status)
        invariant |sent| == turn && TurnsDone(View(), turn, script) == TurnsDone(started, 0, script)
      {
        var next := Turn(turn, script.turns(turn), script.close);
        if !next.GoOn? {
          return next.Ended?;
        }
      }
      return false;
    }

    /** A run that is left to itself ends, in one of three ways. */
    method Execute(script: Script)
      requires Valid() && messages == initial && sent == [] && !status.Completed? && !status.Failed?
      modifies this
      ensures Valid() && old(log) <= log && Terminal(status)
      ensures status.Completed? ==> exists output :: FinalOutput(output) in log
      ensures status.Failed? ==> RunFailed in log
      ensures View() == Executed(old(View()), script)
    {
      hide Core, Guarded, Refreshed, ActedAll, Updated, Emitted;
      var ok := Turns(script);
      if ok {
        return;
      }
      RefreshUsage(script.usage);
      if aborted {
        Await(script.end);
        return;
      }
      Update(Failed);
      Emit(RunFailed);
      assert log[|log| - 1] == RunFailed;
      Await(script.end);
    }

    /** Begins a run, which is executed unless its owner is already gone. */
    method Start(script: Script)
      requires Valid() && messages == initial && sent == [] && !status.Completed? && !status.Failed?
      modifies this
      ensures Valid() && old(log) <= log && Terminal(status)
      ensures old(aborted) ==> sent == []
      ensures View() == Ran(old(View()), script)
    {
      hide Core, ActedAll, Executed;
      if aborted {
        Await(script.end);
        return;
      }
      Execute(script);
    }
  }

  lemma NoneStreamed()
    ensures !Streamed([])
  {
  }

  lemma StreamedMore(callbacks: seq<CallbackAt>, i: nat)
    requires i < |callbacks|
    ensures Streamed(callbacks[..i + 1]) == (Streamed(callbacks[..i]) || callbacks[i].callback.ApprovedToken?)
  {
    var before, after := callbacks[..i], callbacks[..i + 1];
    assert after == before + [callbacks[i]];
    if Streamed(before) {
      var k :| 0 <= k < i && before[k].callback.ApprovedToken?;
      assert after[k].callback.ApprovedToken?;
    }
    if callbacks[i].callback.ApprovedToken? {
      assert after[i].callback.ApprovedToken?;
    }
  }

  lemma RecentGrows(log: seq<LoopEvent>, e: LoopEvent)
    ensures var longer := Recent(log) + [e]; Recent(log + [e]) == if |longer| > HISTORY then longer[1..] else longer
  {
  }

  lemma NewInOrder(log: seq<LoopEvent>, subscriptions: map<nat, Subscription>, id: nat)
    requires AllInOrder(log, subscriptions)
    ensures AllInOrder(log, subscriptions[id := NewSubscription(log)])
  {
    var s := NewSubscription(log);
    assert s.delivered + s.queue == log[s.start..];
  }

  lemma GoneInOrder(log: seq<LoopEvent>, s: Subscription)
    requires InOrder(log, s)
    ensures InOrder(log, s.(active := false))
  {
  }

  lemma NextInOrder(log: seq<LoopEvent>, s: Subscription)
    requires InOrder(log, s) && s.queue != []
    ensures InOrder(log, s.(queue := s.queue[1..], delivered := s.delivered + [s.queue[0]]))
  {
    assert s.delivered + [s.queue[0]] + s.queue[1..] == s.delivered + s.queue;
  }

  function Delivered(subscriptions: map<nat, Subscription>, e: LoopEvent): map<nat, Subscription> {
    map id <- subscriptions ::
      var s := subscriptions[id]; if s.active then s.(queue := s.queue + [e]) else s
  }

  predicate AllInOrder(log: seq<LoopEvent>, subscriptions: map<nat, Subscription>) {
    forall id <- subscriptions :: InOrder(log, subscriptions[id])
  }

  lemma InOrderGrows(log: seq<LoopEvent>, s: Subscription, e: LoopEvent)
    requires InOrder(log, s)
    ensures InOrder(log + [e], if s.active then s.(queue := s.queue + [e]) else s)
  {
    assert (log + [e])[s.start..] == log[s.start..] + [e];
    assert s.delivered + (s.queue + [e]) == (s.delivered + s.queue) + [e];
  }

  lemma AllInOrderGrow(log: seq<LoopEvent>, subscriptions: map<nat, Subscription>, e: LoopEvent)
    requires AllInOrder(log, subscriptions)
    ensures AllInOrder(log + [e], Delivered(subscriptions, e))
  {
    hide InOrder;
    forall id | id in subscriptions
      ensures InOrder(log + [e], Delivered(subscriptions, e)[id])
    {
      InOrderGrows(log, subscriptions[id], e);
    }
  }
}
