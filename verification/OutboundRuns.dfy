/** What whole runs of sends do, from their events alone, and how each way in which a single send can go ends. */
module OutboundRuns {
  import opened Wrappers
  import opened OutboundSend

  // ----- Only what was approved goes out

  /** A send arrived with this payload, when its id was the next one. */
  ghost predicate Arrived(s: State, events: seq<Event>, id: nat, payloadHash: string) {
    exists i | 0 <= i < |events| :: events[i] == Arrive(payloadHash) && Run(s, events[..i]).nextPromise == id
  }

  predicate Screened(events: seq<Event>, id: nat) {
    exists i | 0 <= i < |events| :: events[i] == Screen(id, Some(true))
  }

  predicate Persists(e: Event, id: nat) {
    e.Persist? && e.id == id && e.ok
  }

  /** It was let through and afterwards recorded. */
  predicate Recorded(events: seq<Event>, id: nat) {
    exists j | 0 <= j < |events| :: Persists(events[j], id) && Screened(events[..j], id)
  }

  /** What the place of a send says of the events so far. */
  ghost predicate Traced(s: State, events: seq<Event>, id: nat) {
    var t := Run(s, events);
    id in t.sends ==>
      && Arrived(s, events, id, t.sends[id].payloadHash)
      && (t.sends[id].pc.Persisting? ==> Screened(events, id))
      && (t.sends[id].pc.Persisted? ==> Recorded(events, id))
  }

  lemma {:induction false} RunMore(s: State, events: seq<Event>, e: Event)
    ensures Run(s, events + [e]) == Step(Run(s, events), e)
    decreases |events|
  {
    hide Step;
    if events == [] {
      assert Run(s, [e]) == Run(Step(s, e), [e][1..]);
    } else {
      assert (events + [e])[1..] == events[1..] + [e];
      RunMore(Step(s, events[0]), events[1..], e);
    }
  }

  lemma MoreEvents(s: State, events: seq<Event>, e: Event, id: nat, payloadHash: string)
    ensures Arrived(s, events, id, payloadHash) ==> Arrived(s, events + [e], id, payloadHash)
    ensures Screened(events, id) ==> Screened(events + [e], id)
    ensures Recorded(events, id) ==> Recorded(events + [e], id)
    ensures e == Arrive(payloadHash) && Run(s, events).nextPromise == id ==> Arrived(s, events + [e], id, payloadHash)
    ensures e == Screen(id, Some(true)) ==> Screened(events + [e], id)
    ensures Persists(e, id) && Screened(events, id) ==> Recorded(events + [e], id)
  {
    hide Run;
    var more := events + [e];
    assert more[..|events|] == events && more[|events|] == e;
    forall i | 0 <= i < |events|
      ensures more[i] == events[i] && more[..i] == events[..i]
    {
    }
  }

  lemma TracedMore(s: State, events: seq<Event>, e: Event, id: nat)
    requires Traced(s, events, id) && Inv(Run(s, events))
    ensures Traced(s, events + [e], id)
  {
    hide Inv, Arrived, Screened, Recorded;
    var t := Run(s, events);
    RunMore(s, events, e);
    if id in Step(t, e).sends {
      MoreEvents(s, events, e, id, Step(t, e).sends[id].payloadHash);
    }
  }

  lemma {:induction false} AllTraced(s: State, events: seq<Event>, id: nat)
    requires Initial(s)
    ensures Traced(s, events, id) && Inv(Run(s, events))
    decreases |events|
  {
    InitialInv(s);
    AtMostOneSend(s, events);
    if events != [] {
      var n := |events| - 1;
      AllTraced(s, events[..n], id);
      assert events == events[..n] + [events[n]];
      hide Inv, Traced;
      TracedMore(s, events[..n], events[n], id);
    }
  }

  /**
   * Whenever an adapter is called, it is by a send that was let through, then recorded,
   * and then found still approved and its adapter still registered; with its own payload.
   */
  lemma SentOnlyIfApproved(s: State, events: seq<Event>, e: Event)
    requires Initial(s) && Run(s, events + [e]).calls != Run(s, events).calls
    ensures e.Proceed? && e.stillApproved && e.stillRegistered && Recorded(events, e.id)
    ensures exists payloadHash ::
      Arrived(s, events, e.id, payloadHash) && Run(s, events + [e]).calls == Run(s, events).calls + [payloadHash]
  {
    hide Inv, Arrived, Recorded;
    RunMore(s, events, e);
    assert e.Proceed?;
    AllTraced(s, events, e.id);
  }

  // ----- How a single send can end

  /** A send that nothing comes between, up to the end of its screening. */
  function ScreenedState(s: State, payloadHash: string, verdict: Option<bool>): State {
    var id := s.nextPromise;
    Step(Step(Step(Step(s, Arrive(payloadHash)), Enter(id)), Read(id, true)), Screen(id, verdict))
  }

  /** What is left behind: no send, no lock, the calls there were and more, one answer, and a record. */
  predicate Ends(s: State, t: State, stored: Stored, calls: seq<string>, payloadHash: string, answer: Answer) {
    && t.sends == map[] && t.lockEntry.None? && t.stored == stored && t.calls == s.calls + calls
    && t.told == s.told + [Delivery(payloadHash, answer)]
  }

  lemma MovedAlone(s: State, id: nat, payloadHash: string, from: Pc, to: Pc)
    ensures At(Alone(s, id, payloadHash, from), id, to) == Alone(s, id, payloadHash, to)
  {
    assert At(Alone(s, id, payloadHash, from), id, to).sends == Alone(s, id, payloadHash, to).sends;
  }

  lemma ScreenedAlone(s: State, payloadHash: string, verdict: Option<bool>)
    requires s.sends == map[] && s.lockEntry.None? && s.stored.Absent?
    ensures ScreenedState(s, payloadHash, verdict) == Alone(s, s.nextPromise, payloadHash,
      if verdict == Some(true) then Persisting
      else Leaving(if verdict.Some? then DeniedOtherwise else Threw))
  {
    var id := s.nextPromise;
    EnterAlone(s, payloadHash);
    assert Step(Alone(s, id, payloadHash, Reading), Read(id, true)) == Alone(s, id, payloadHash, Screening);
    var pc := if verdict == Some(true) then Persisting else Leaving(if verdict.Some? then DeniedOtherwise else Threw);
    MovedAlone(s, id, payloadHash, Screening, pc);
  }

  /** A send that is denied, or whose screening fails, calls no adapter and leaves no record. */
  lemma DeniedSendEnds(s: State, payloadHash: string, verdict: Option<bool>)
    requires s.sends == map[] && s.lockEntry.None? && s.stored.Absent? && verdict != Some(true)
    ensures Ends(s, Step(ScreenedState(s, payloadHash, verdict), Leave(s.nextPromise)), Absent, [], payloadHash,
                 if verdict.Some? then DeniedOtherwise else Threw)
  {
    ScreenedAlone(s, payloadHash, verdict);
    LeaveAlone(s, s.nextPromise, payloadHash, if verdict.Some? then DeniedOtherwise else Threw);
  }

  /** A send that cannot be recorded calls no adapter. */
  lemma UnrecordedSendEnds(s: State, payloadHash: string, applied: bool)
    requires s.sends == map[] && s.lockEntry.None? && s.stored.Absent?
    ensures var id := s.nextPromise;
      Ends(s, Step(Step(ScreenedState(s, payloadHash, Some(true)), Persist(id, applied, false)), Leave(id)),
           if applied then Record(Pending, payloadHash) else Absent, [], payloadHash, Threw)
  {
    var id := s.nextPromise;
    ScreenedAlone(s, payloadHash, Some(true));
    var stored := if applied then Record(Pending, payloadHash) else Absent;
    assert Step(Alone(s, id, payloadHash, Persisting), Persist(id, applied, false))
      == Alone(s.(stored := stored), id, payloadHash, Leaving(Threw));
    LeaveAlone(s.(stored := stored), id, payloadHash, Threw);
  }

  /** A send whose approval or adapter is gone once it was recorded calls none, and its record is deleted. */
  lemma WithdrawnSendEnds(s: State, payloadHash: string, stillApproved: bool, stillRegistered: bool, applied: bool)
    requires s.sends == map[] && s.lockEntry.None? && s.stored.Absent? && !(stillApproved && stillRegistered)
    ensures var id := s.nextPromise;
      var recorded := Step(ScreenedState(s, payloadHash, Some(true)), Persist(id, true, true));
      && recorded.stored == Record(Pending, payloadHash)
      && Ends(s, Step(Step(Step(recorded, Proceed(id, stillApproved, stillRegistered)), Forget(id, applied)), Leave(id)),
              if applied then Absent else Record(Pending, payloadHash), [], payloadHash, DeniedOtherwise)
  {
    var id, pending := s.nextPromise, s.(stored := Record(Pending, payloadHash));
    ScreenedAlone(s, payloadHash, Some(true));
    assert Step(Alone(s, id, payloadHash, Persisting), Persist(id, true, true))
      == Alone(pending, id, payloadHash, Persisted);
    assert Step(Alone(pending, id, payloadHash, Persisted), Proceed(id, stillApproved, stillRegistered))
      == Alone(pending, id, payloadHash, Forgetting);
    var after := if applied then s.(stored := Absent) else pending;
    assert Step(Alone(pending, id, payloadHash, Forgetting), Forget(id, applied))
      == Alone(after, id, payloadHash, Leaving(DeniedOtherwise));
    LeaveAlone(after, id, payloadHash, DeniedOtherwise);
  }

  /** A send that reached the adapter. */
  function AtAdapter(s: State, payloadHash: string): State {
    var id := s.nextPromise;
    Step(Step(ScreenedState(s, payloadHash, Some(true)), Persist(id, true, true)), Proceed(id, true, true))
  }

  /** Once the adapter was called, the caller gets a receipt only if there is one and it was recorded; the record stays. */
  lemma CalledSendEnds(s: State, payloadHash: string, receipt: Option<Receipt>, applied: bool, ok: bool)
    requires s.sends == map[] && s.lockEntry.None? && s.stored.Absent?
    ensures var id := s.nextPromise;
      Ends(s, Step(Step(Step(AtAdapter(s, payloadHash), Settle(id, receipt)), RecordOutcome(id, applied, ok)), Leave(id)),
           Record(if receipt.Some? && (ok || applied) then Sent(receipt.value)
                  else if receipt.None? && applied then Unknown else Pending, payloadHash),
           [payloadHash], payloadHash, if receipt.Some? && ok then SentNow(receipt.value) else Threw)
  {
    var id := s.nextPromise;
    var sent := s.(stored := Record(Pending, payloadHash), calls := s.calls + [payloadHash]);
    ScreenedAlone(s, payloadHash, Some(true));
    ProceedAlone(s, id, payloadHash);
    assert AtAdapter(s, payloadHash) == Alone(sent, id, payloadHash, Sending);
    var status := if receipt.Some? && (ok || applied) then Sent(receipt.value)
                  else if receipt.None? && applied then Unknown else Pending;
    var answer := if receipt.Some? && ok then SentNow(receipt.value) else Threw;
    Outcome(sent, id, payloadHash, receipt, applied, ok);
    var after := sent.(stored := Record(status, payloadHash), acknowledged := if receipt.Some? then receipt else sent.acknowledged);
    LeaveAlone(after, id, payloadHash, answer);
  }

  lemma Outcome(s: State, id: nat, payloadHash: string, receipt: Option<Receipt>, applied: bool, ok: bool)
    requires s.stored == Record(Pending, payloadHash)
    ensures Step(Step(Alone(s, id, payloadHash, Sending), Settle(id, receipt)), RecordOutcome(id, applied, ok)) ==
      Alone(s.(stored := Record(if receipt.Some? && (ok || applied) then Sent(receipt.value)
                                else if receipt.None? && applied then Unknown else Pending, payloadHash),
               acknowledged := if receipt.Some? then receipt else s.acknowledged),
            id, payloadHash, Leaving(if receipt.Some? && ok then SentNow(receipt.value) else Threw))
  {
    if receipt.Some? {
      assert Step(Alone(s, id, payloadHash, Sending), Settle(id, receipt))
        == Alone(s.(acknowledged := receipt), id, payloadHash, RecordingSent(receipt.value));
    } else {
      assert Step(Alone(s, id, payloadHash, Sending), Settle(id, receipt)) == Alone(s, id, payloadHash, RecordingUnknown);
    }
  }

  /** A record that cannot be read, or does not parse, sends nothing and stays. */
  lemma UnreadableRecordEnds(s: State, payloadHash: string, readable: bool)
    requires s.sends == map[] && s.lockEntry.None? && (readable ==> s.stored.Unreadable?)
    ensures var id := s.nextPromise;
      Ends(s, Step(Step(Step(Step(s, Arrive(payloadHash)), Enter(id)), Read(id, readable)), Leave(id)), s.stored, [], payloadHash,
           if readable then DeniedOtherwise else Threw)
  {
    var id := s.nextPromise;
    EnterAlone(s, payloadHash);
    var answer := if readable then DeniedOtherwise else Threw;
    assert Step(Alone(s, id, payloadHash, Reading), Read(id, readable)) == Alone(s, id, payloadHash, Leaving(answer));
    LeaveAlone(s, id, payloadHash, answer);
  }

  /** A crash loses the sends and the locks, and nothing that was stored, sent or told. */
  lemma CrashEnds(s: State)
    ensures var t := Step(s, Crash);
      && t.sends == map[] && t.lockEntry.None?
      && t.stored == s.stored && t.calls == s.calls && t.acknowledged == s.acknowledged && t.told == s.told
  {
  }
}
