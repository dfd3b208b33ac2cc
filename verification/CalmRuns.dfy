/** What a run does when nobody interferes: its whole log of events, and every request it makes. */
module CalmRuns {
  import opened Wrappers
  import opened LoopRun

  // ----- Scripts in which nobody acts and all that is awaited succeeds

  predicate CalmTool(t: ToolScript) {
    t.rest.acts == [] && t.acts == [] && t.asked.None? && t.output.Some?
  }

  predicate OnlyTokens(callbacks: seq<CallbackAt>) {
    forall i | 0 <= i < |callbacks| :: callbacks[i].acts == [] && callbacks[i].callback.ApprovedToken?
  }

  predicate CalmTurn(t: TurnScript) {
    && t.before.acts == [] && t.after.acts == [] && t.acts == [] && OnlyTokens(t.callbacks) && t.result.Some?
    && forall i | 0 <= i < |t.result.value.calls| :: CalmTool(t.tools(i))
  }

  predicate Calm(script: Script) {
    && script.start == Moment([], true) && script.close == Moment([], true) && script.end == []
    && forall turn | 0 <= turn < TURNS :: CalmTurn(script.turns(turn))
  }

  /** Running, and neither cancelled nor about to pause. */
  predicate AtRest(s: RunState) {
    s.status.Running? && !s.aborted && !s.pauseRequested
  }

  // ----- What is expected

  function Tokens(callbacks: seq<CallbackAt>): seq<LoopEvent>
    requires OnlyTokens(callbacks)
  {
    seq(|callbacks|, i requires 0 <= i < |callbacks| => ModelToken(callbacks[i].callback.token))
  }

  /** A reply: the approved tokens as they come, or else its content at once. */
  function ReplyLog(t: TurnScript): seq<LoopEvent>
    requires CalmTurn(t)
  {
    var content := t.result.value.content;
    [ModelStart] + Tokens(t.callbacks)
    + (if t.callbacks == [] && content.Some? && content.value != "" then [ModelToken(content.value)] else [])
    + [ModelEnd] + (if t.usage then [UsageChanged] else [])
  }

  function ToolLog(calls: seq<ToolCall>, i: nat): seq<LoopEvent>
    requires i <= |calls|
    decreases |calls| - i
  {
    if i == |calls| then [] else [ToolStart(calls[i].id), ToolResult(calls[i].id)] + ToolLog(calls, i + 1)
  }

  function Answers(calls: seq<ToolCall>, tools: nat -> ToolScript, i: nat): seq<Message>
    requires i <= |calls| && forall k | 0 <= k < |calls| :: CalmTool(tools(k))
    decreases |calls| - i
  {
    if i == |calls| then []
    else
      assert CalmTool(tools(i));
      [Answer(calls[i].id, tools(i).output.value)] + Answers(calls, tools, i + 1)
  }

  /** What a turn with tool calls adds to the conversation. */
  function RoundMessages(t: TurnScript): seq<Message>
    requires CalmTurn(t)
  {
    var r := t.result.value;
    [Assistant(if r.content.Some? then r.content.value else "", r.calls)] + Answers(r.calls, t.tools, 0)
  }

  predicate Continues(t: TurnScript, mayInvoke: bool)
    requires CalmTurn(t)
  {
    t.result.value.calls != [] && mayInvoke
  }

  /** The turns go on while the model asks for tools; a reply without calls completes the run, anything else fails it. */
  function ExpectedStatus(script: Script, mayInvoke: bool, turn: nat): Status
    requires Calm(script) && turn <= TURNS
    decreases TURNS - turn
  {
    if turn == TURNS then Failed
    else if Continues(script.turns(turn), mayInvoke) then ExpectedStatus(script, mayInvoke, turn + 1)
    else if script.turns(turn).result.value.calls == [] && script.turns(turn).result.value.content.Some? then Completed
    else Failed
  }

  function FailureLog(script: Script): seq<LoopEvent> {
    (if script.usage then [UsageChanged] else []) + [StateChanged(Failed), RunFailed]
  }

  function ExpectedLog(script: Script, mayInvoke: bool, turn: nat): seq<LoopEvent>
    requires Calm(script) && turn <= TURNS
    decreases TURNS - turn
  {
    if turn == TURNS then FailureLog(script)
    else
      var t := script.turns(turn);
      var r := t.result.value;
      ReplyLog(t) +
      if Continues(t, mayInvoke) then ToolLog(r.calls, 0) + ExpectedLog(script, mayInvoke, turn + 1)
      else if r.calls == [] && r.content.Some? then [StateChanged(Completed), FinalOutput(r.content.value)]
      else FailureLog(script)
  }

  /** Each turn asks with the conversation so far, under its own key. */
  function ExpectedRequests(script: Script, mayInvoke: bool, prefix: string, messages: seq<Message>, turn: nat): seq<ModelCall>
    requires Calm(script) && turn <= TURNS
    decreases TURNS - turn
  {
    if turn == TURNS then []
    else
      var t := script.turns(turn);
      [ModelCall(Key(prefix, turn), messages)] +
      if Continues(t, mayInvoke) then ExpectedRequests(script, mayInvoke, prefix, messages + RoundMessages(t), turn + 1) else []
  }

  // ----- What happens

  /** Nothing but the log, the messages and the requests changes. */
  predicate Moved(s: RunState, t: RunState, log: seq<LoopEvent>, messages: seq<Message>, sent: seq<ModelCall>) {
    && AtRest(s) && AtRest(t) && t.operationPrefix == s.operationPrefix && t.toolInvocationAllowed == s.toolInvocationAllowed
    && t.log == s.log + log && t.messages == s.messages + messages && t.sent == s.sent + sent
  }

  lemma MovedOn(s: RunState, t: RunState, u: RunState, log: seq<LoopEvent>, messages: seq<Message>, sent: seq<ModelCall>,
                log': seq<LoopEvent>, messages': seq<Message>, sent': seq<ModelCall>)
    requires Moved(s, t, log, messages, sent) && Moved(t, u, log', messages', sent')
    ensures Moved(s, u, log + log', messages + messages', sent + sent')
  {
  }

  lemma SafePointIsPassed(s: RunState, rest: Rest)
    requires AtRest(s)
    ensures AtSafePoint(s, rest) == (s, true)
  {
  }

  lemma EmitMoves(s: RunState, e: LoopEvent)
    requires AtRest(s)
    ensures Moved(s, Emitted(s, e), [e], [], [])
  {
  }

  lemma {:induction false} TokensAreShown(s: RunState, callbacks: seq<CallbackAt>)
    requires AtRest(s) && OnlyTokens(callbacks)
    ensures Moved(s, CalledBackAll(s, callbacks), Tokens(callbacks), [], [])
    decreases |callbacks|
  {
    if callbacks != [] {
      var e := ModelToken(callbacks[0].callback.token);
      assert CalledBack(s, callbacks[0]) == Emitted(s, e);
      EmitMoves(s, e);
      TokensAreShown(Emitted(s, e), callbacks[1..]);
      MovedOn(s, Emitted(s, e), CalledBackAll(s, callbacks), [e], [], [], Tokens(callbacks[1..]), [], []);
      assert Tokens(callbacks) == [e] + Tokens(callbacks[1..]);
    }
  }

  lemma CallIsAnswered(s: RunState, call: ToolCall, script: ToolScript)
    requires AtRest(s) && s.toolInvocationAllowed && CalmTool(script)
    ensures CallDone(s, call, script).1
    ensures Moved(s, CallDone(s, call, script).0, [ToolStart(call.id), ToolResult(call.id)],
                  [Answer(call.id, script.output.value)], [])
  {
    hide Delivered;
    SafePointIsPassed(s, script.rest);
    var t := Emitted(s, ToolStart(call.id));
    assert Invoked(t, script) == t && Updated(t, Running) == t;
  }

  lemma {:induction false} CallsAreAnswered(s: RunState, calls: seq<ToolCall>, tools: nat -> ToolScript, i: nat)
    requires AtRest(s) && s.toolInvocationAllowed && i <= |calls| && forall k | 0 <= k < |calls| :: CalmTool(tools(k))
    ensures CallsDone(s, calls, tools, i).1
    ensures Moved(s, CallsDone(s, calls, tools, i).0, ToolLog(calls, i), Answers(calls, tools, i), [])
    decreases |calls| - i
  {
    hide CallDone;
    if i < |calls| {
      var t := CallDone(s, calls[i], tools(i)).0;
      CallIsAnswered(s, calls[i], tools(i));
      CallsAreAnswered(t, calls, tools, i + 1);
      MovedOn(s, t, CallsDone(s, calls, tools, i).0, [ToolStart(calls[i].id), ToolResult(calls[i].id)],
              [Answer(calls[i].id, tools(i).output.value)], [], ToolLog(calls, i + 1), Answers(calls, tools, i + 1), []);
    }
  }

  /** From the start of a turn to where the reply is in. */
  lemma ModelIsAsked(s: RunState, turn: nat, script: TurnScript)
    requires AtRest(s) && CalmTurn(script)
    ensures Moved(s, Asked(Emitted(Updated(s, Running), ModelStart), turn, script), [ModelStart] + Tokens(script.callbacks), [],
                  [ModelCall(Key(s.operationPrefix, turn), s.messages)])
  {
    hide Delivered, CalledBackAll, Key;
    var t := Emitted(s, ModelStart);
    var call := ModelCall(Key(s.operationPrefix, turn), s.messages);
    var u := t.(sent := t.sent + [call]);
    TokensAreShown(u, script.callbacks);
    MovedOn(s, u, CalledBackAll(u, script.callbacks), [ModelStart], [], [call], Tokens(script.callbacks), [], []);
  }

  lemma ReplyIsShown(s: RunState, script: TurnScript)
    requires AtRest(s) && CalmTurn(script)
    ensures var content := script.result.value.content;
      Moved(s, ReplyShown(s, content, Streamed(script.callbacks), script.usage),
            (if script.callbacks == [] && content.Some? && content.value != "" then [ModelToken(content.value)] else [])
            + [ModelEnd] + (if script.usage then [UsageChanged] else []), [], [])
  {
    hide Delivered;
    assert Streamed(script.callbacks) <==> script.callbacks != [] by {
      assert script.callbacks != [] ==> script.callbacks[0].callback.ApprovedToken?;
    }
  }

  /** A turn up to its reply, whatever that asks for. */
  lemma TurnStarts(s: RunState, turn: nat, script: TurnScript) returns (t: RunState)
    requires AtRest(s) && CalmTurn(script)
    ensures Moved(s, t, ReplyLog(script), [], [ModelCall(Key(s.operationPrefix, turn), s.messages)])
    ensures forall close ::
      TurnDone(s, turn, script, close) == FromReply(t, script, close)
  {
    hide Asked, ReplyShown, Delivered, Key, Tokens, CallsDone;
    SafePointIsPassed(s, script.before);
    var w := Asked(Emitted(Updated(s, Running), ModelStart), turn, script);
    ModelIsAsked(s, turn, script);
    SafePointIsPassed(w, script.after);
    ReplyIsShown(w, script);
    t := ReplyShown(w, script.result.value.content, Streamed(script.callbacks), script.usage);
    var content := script.result.value.content;
    var shown := (if script.callbacks == [] && content.Some? && content.value != "" then [ModelToken(content.value)] else [])
                 + [ModelEnd] + (if script.usage then [UsageChanged] else []);
    MovedOn(s, w, t, [ModelStart] + Tokens(script.callbacks), [], [ModelCall(Key(s.operationPrefix, turn), s.messages)],
            shown, [], []);
    assert ReplyLog(script) == [ModelStart] + Tokens(script.callbacks) + shown;
  }

  /** What follows a reply. */
  function FromReply(t: RunState, script: TurnScript, close: Moment): (RunState, Next)
    requires CalmTurn(script)
  {
    var r := script.result.value;
    if r.calls != [] then
      var (u, ok) := CallsDone(t.(messages := t.messages + [Assistant(Text(r.content), r.calls)]), r.calls, script.tools, 0);
      (u, if ok then GoOn else Threw)
    else if r.content.None? || t.aborted then (t, Threw)
    else
      var u := ActedAll(t, close.acts);
      if close.ok then (Emitted(Updated(u, Completed), FinalOutput(r.content.value)), Ended) else (u, Threw)
  }

  lemma RoundGoesOn(s: RunState, turn: nat, script: TurnScript, close: Moment)
    requires AtRest(s) && CalmTurn(script) && Continues(script, s.toolInvocationAllowed)
    ensures var (t, next) := TurnDone(s, turn, script, close);
      && next.GoOn?
      && Moved(s, t, ReplyLog(script) + ToolLog(script.result.value.calls, 0), RoundMessages(script),
               [ModelCall(Key(s.operationPrefix, turn), s.messages)])
  {
    hide TurnDone, ReplyLog, CallsDone, ToolLog, Answers, Key;
    var r := script.result.value;
    var t := TurnStarts(s, turn, script);
    var u := t.(messages := t.messages + [Assistant(Text(r.content), r.calls)]);
    CallsAreAnswered(u, r.calls, script.tools, 0);
    var call := ModelCall(Key(s.operationPrefix, turn), s.messages);
    assert Moved(s, u, ReplyLog(script), [Assistant(Text(r.content), r.calls)], [call]);
    MovedOn(s, u, CallsDone(u, r.calls, script.tools, 0).0, ReplyLog(script), [Assistant(Text(r.content), r.calls)], [call],
            ToolLog(r.calls, 0), Answers(r.calls, script.tools, 0), []);
    assert [call] + [] == [call];
  }

  /** The last turn: a reply without calls completes the run, anything else is thrown. */
  lemma LastTurnEnds(s: RunState, turn: nat, script: TurnScript)
    requires AtRest(s) && CalmTurn(script) && !Continues(script, s.toolInvocationAllowed)
    ensures var (t, next) := TurnDone(s, turn, script, Moment([], true));
      var r := script.result.value;
      && t.sent == s.sent + [ModelCall(Key(s.operationPrefix, turn), s.messages)]
      && if r.calls == [] && r.content.Some? then
           next.Ended? && t.status.Completed?
           && t.log == s.log + ReplyLog(script) + [StateChanged(Completed), FinalOutput(r.content.value)]
         else next.Threw? && AtRest(t) && t.log == s.log + ReplyLog(script)
  {
    hide TurnDone, ReplyLog, Delivered, Key;
    var t := TurnStarts(s, turn, script);
    var r := script.result.value;
    if r.calls != [] {
      SafePointIsPassed(t.(messages := t.messages + [Assistant(Text(r.content), r.calls)]), script.tools(0).rest);
    }
  }

  /** From this turn on everything goes as expected. */
  predicate AsExpected(s: RunState, turn: nat, script: Script)
    requires Calm(script) && turn <= TURNS
  {
    var (t, ok) := TurnsDone(s, turn, script);
    var u := if ok then t else Emitted(Updated(Refreshed(t, script.usage), Failed), RunFailed);
    && (ok || AtRest(t))
    && u.status == ExpectedStatus(script, s.toolInvocationAllowed, turn)
    && u.log == s.log + ExpectedLog(script, s.toolInvocationAllowed, turn)
    && u.sent == s.sent + ExpectedRequests(script, s.toolInvocationAllowed, s.operationPrefix, s.messages, turn)
  }

  lemma FailureIsLogged(s: RunState, script: Script)
    requires AtRest(s)
    ensures var u := Emitted(Updated(Refreshed(s, script.usage), Failed), RunFailed);
      u.status.Failed? && u.log == s.log + FailureLog(script) && u.sent == s.sent
  {
    hide Delivered;
  }

  lemma RoundIsExpected(s: RunState, turn: nat, script: Script)
    requires AtRest(s) && Calm(script) && turn < TURNS && Continues(script.turns(turn), s.toolInvocationAllowed)
    requires AsExpected(TurnDone(s, turn, script.turns(turn), script.close).0, turn + 1, script)
    ensures AsExpected(s, turn, script)
  {
    hide TurnDone, ReplyLog, ToolLog, Answers, Key, Emitted, Updated, Refreshed, RoundMessages;
    hide ExpectedLog, ExpectedRequests, ExpectedStatus;
    var ts := script.turns(turn);
    var t := TurnDone(s, turn, ts, script.close).0;
    RoundGoesOn(s, turn, ts, script.close);
    RoundExpects(script, s.toolInvocationAllowed, s.operationPrefix, s.messages, turn);
    var call := ModelCall(Key(s.operationPrefix, turn), s.messages);
    assert s.sent + [call] + ExpectedRequests(script, t.toolInvocationAllowed, t.operationPrefix, t.messages, turn + 1)
      == s.sent + ([call] + ExpectedRequests(script, t.toolInvocationAllowed, t.operationPrefix, t.messages, turn + 1));
    var log := ReplyLog(ts) + ToolLog(ts.result.value.calls, 0);
    assert s.log + log + ExpectedLog(script, t.toolInvocationAllowed, turn + 1)
      == s.log + (log + ExpectedLog(script, t.toolInvocationAllowed, turn + 1));
  }

  lemma RoundExpects(script: Script, mayInvoke: bool, prefix: string, messages: seq<Message>, turn: nat)
    requires Calm(script) && turn < TURNS && Continues(script.turns(turn), mayInvoke)
    ensures var t := script.turns(turn);
      && ExpectedStatus(script, mayInvoke, turn) == ExpectedStatus(script, mayInvoke, turn + 1)
      && ExpectedLog(script, mayInvoke, turn)
           == ReplyLog(t) + ToolLog(t.result.value.calls, 0) + ExpectedLog(script, mayInvoke, turn + 1)
      && ExpectedRequests(script, mayInvoke, prefix, messages, turn)
           == [ModelCall(Key(prefix, turn), messages)]
              + ExpectedRequests(script, mayInvoke, prefix, messages + RoundMessages(t), turn + 1)
  {
    hide ReplyLog, ToolLog, Key, RoundMessages;
  }

  lemma LastIsExpected(s: RunState, turn: nat, script: Script)
    requires AtRest(s) && Calm(script) && turn < TURNS && !Continues(script.turns(turn), s.toolInvocationAllowed)
    ensures AsExpected(s, turn, script)
  {
    hide TurnDone, ReplyLog, ToolLog, Answers, Key, Delivered, Emitted, Updated, Refreshed, FailureLog, RoundMessages;
    LastTurnEnds(s, turn, script.turns(turn));
    var (t, next) := TurnDone(s, turn, script.turns(turn), script.close);
    if next.Threw? {
      FailureIsLogged(t, script);
    }
  }

  lemma {:induction false} TurnsGoAsExpected(s: RunState, turn: nat, script: Script)
    requires AtRest(s) && Calm(script) && turn <= TURNS
    ensures AsExpected(s, turn, script)
    decreases TURNS - turn
  {
    hide TurnDone;
    if turn == TURNS {
      FailureIsLogged(s, script);
    } else if Continues(script.turns(turn), s.toolInvocationAllowed) {
      hide AsExpected;
      RoundGoesOn(s, turn, script.turns(turn), script.close);
      TurnsGoAsExpected(TurnDone(s, turn, script.turns(turn), script.close).0, turn + 1, script);
      RoundIsExpected(s, turn, script);
    } else {
      LastIsExpected(s, turn, script);
    }
  }

  /** An undisturbed run does exactly what is expected of it. */
  lemma CalmRunIsAsExpected(operationPrefix: string, mayInvoke: bool, initial: seq<Message>, script: Script)
    requires Calm(script)
    ensures var t := Ran(Began(operationPrefix, mayInvoke, initial, false), script);
      && t.status == ExpectedStatus(script, mayInvoke, 0)
      && t.log == [StateChanged(Running)] + ExpectedLog(script, mayInvoke, 0)
      && t.sent == ExpectedRequests(script, mayInvoke, operationPrefix, initial, 0)
  {
    hide TurnsDone, ExpectedStatus, ExpectedLog, ExpectedRequests;
    var s := Began(operationPrefix, mayInvoke, initial, false);
    TurnsGoAsExpected(s, 0, script);
    assert s.sent + ExpectedRequests(script, mayInvoke, operationPrefix, initial, 0)
      == ExpectedRequests(script, mayInvoke, operationPrefix, initial, 0);
  }

  // ----- Pauses and people

  /** A pause that was requested is entered at the next safe point, and lasts until somebody resumes or cancels the run. */
  lemma PauseIsKept(s: RunState, rest: Rest)
    requires s.status.Running? && !s.aborted && s.pauseRequested
    ensures var (t, passed) := AtSafePoint(s, rest);
      && s.log + [StateChanged(Paused)] <= t.log
      && (if passed then t.status.Running? && !t.aborted else t.status.Cancelled? && t.aborted)
      && (DoCancel in rest.acts ==> !passed)
      && (rest.acts == [] ==>
            && passed == !rest.cancelled
            && t.log == s.log + [StateChanged(Paused), StateChanged(if passed then Running else Cancelled)]
            && !t.pauseRequested && !t.waitingForResume)
  {
    hide Delivered, ActedAll;
    var p := Updated(s, Paused).(waitingForResume := true);
    ActsGo(p, rest.acts);
    SafePointGoes(s, rest);
    var q := ActedAll(p, rest.acts);
    if rest.acts == [] {
      NobodyActs(p, rest.acts);
    }
    assert p.log == s.log + [StateChanged(Paused)];
    assert q.log <= AtSafePoint(s, rest).0.log;
    if rest.acts != [] {
      StillPaused(p, rest.acts);
    }
  }

  lemma NobodyActs(s: RunState, acts: seq<Act>)
    requires acts == []
    ensures ActedAll(s, acts) == s
  {
  }

  /** Nothing that others do makes a paused run go on by itself. */
  lemma {:induction false} StillPaused(s: RunState, acts: seq<Act>)
    requires s.status.Paused?
    ensures ActedAll(s, acts).status.Paused? || ActedAll(s, acts).status.Cancelled?
    decreases |acts|
  {
    hide Delivered;
    if acts != [] {
      if acts[0].DoCancel? {
        StillCancelled(Acted(s, acts[0]), acts[1..]);
      } else {
        StillPaused(Acted(s, acts[0]), acts[1..]);
      }
    }
  }

  lemma {:induction false} StillCancelled(s: RunState, acts: seq<Act>)
    requires s.status.Cancelled?
    ensures ActedAll(s, acts).status.Cancelled?
    decreases |acts|
  {
    hide Delivered;
    if acts != [] {
      StillCancelled(Acted(s, acts[0]), acts[1..]);
    }
  }

  /** A run that waits for a person says so, and runs again when the tool has answered. */
  lemma WaitingIsShown(s: RunState, call: ToolCall, script: ToolScript)
    requires AtRest(s) && s.toolInvocationAllowed
    requires script.rest.acts == [] && script.acts == [] && script.asked == Some([]) && script.output.Some?
    ensures var (t, ok) := CallDone(s, call, script);
      && ok && t.status.Running?
      && t.log == s.log + [ToolStart(call.id), StateChanged(Waiting), InteractionWait, StateChanged(Running), ToolResult(call.id)]
  {
    hide Delivered;
    SafePointIsPassed(s, script.rest);
    NobodyActs(Emitted(s, ToolStart(call.id)), script.acts);
  }

  /** So does one whose model request waits for a person. */
  lemma PolicyWaitIsShown(s: RunState, c: CallbackAt)
    requires s.status.Running? && c == CallbackAt([], PolicyWait)
    ensures var t := CalledBack(s, c); t.status.Waiting? && t.log == s.log + [StateChanged(Waiting), InteractionWait]
  {
    hide Delivered;
  }

  /** A failure of the model or of a tool, and a tool that may not be called, end the turn with nothing more. */
  lemma FailuresAreThrown(s: RunState, turn: nat, script: TurnScript, call: ToolCall, tool: ToolScript)
    requires AtRest(s)
    ensures script.result.None? ==> forall close :: TurnDone(s, turn, script, close).1.Threw?
    ensures !s.toolInvocationAllowed ==> CallDone(s, call, tool) == (s, false)
    ensures tool.output.None? ==> !CallDone(s, call, tool).1
  {
    SafePointIsPassed(s, script.before);
    SafePointIsPassed(s, tool.rest);
  }
}
