/**
 * Sending through an adapter under one idempotency key. Any number of sends run
 * at once and interleave at their awaits; a chain of promises admits them one at
 * a time. The record of the key is durable; everything else is lost in a crash.
 */
module OutboundSend {
  import opened Wrappers

  datatype Receipt = Receipt(externalId: string, sentAt: string)

  datatype Status = Pending | Sent(receipt: Receipt) | Unknown

  /** The stored record; Unreadable is a value that does not parse. */
  datatype Stored = Absent | Unreadable | Record(status: Status, payloadHash: string)

  datatype Answer =
    | SentNow(receipt: Receipt)
    | Duplicate(receipt: Receipt)
    | Mismatch
    | OutcomeUnknown
    | DeniedOtherwise
    | Threw

  /** Where a send is: waiting for its turn, at one of the awaits of the locked part, or about to let go. */
  datatype Pc =
    | Queued
    | Reading
    | Screening
    | Persisting
    | Persisted
    | Forgetting
    | Sending
    | RecordingSent(receipt: Receipt)
    | RecordingUnknown
    | Leaving(answer: Answer)

  /** A send; previous is the promise it found in the lock map when it arrived. */
  datatype Send = Send(previous: Option<nat>, payloadHash: string, pc: Pc)

  datatype Delivery = Delivery(payloadHash: string, answer: Answer)

  /**
   * sends are keyed by the promise each one put into the lock map. The last
   * three fields are history variables: the calls of the adapter, what the
   * adapter acknowledged, and what callers were told.
   */
  datatype State = State(
    stored: Stored,
    sends: map<nat, Send>,
    lockEntry: Option<nat>,
    resolved: set<nat>,
    nextPromise: nat,
    calls: seq<string>,
    acknowledged: Option<Receipt>,
    told: seq<Delivery>)

  datatype Event =
    | Arrive(payloadHash: string)
    | Enter(id: nat)
    | Read(id: nat, readable: bool)
    | Screen(id: nat, verdict: Option<bool>)
    | Persist(id: nat, applied: bool, ok: bool)
    | Proceed(id: nat, stillApproved: bool, stillRegistered: bool)
    | Forget(id: nat, applied: bool)
    | Settle(id: nat, receipt: Option<Receipt>)
    | RecordOutcome(id: nat, applied: bool, ok: bool)
    | Leave(id: nat)
    | Crash

  function At(s: State, id: nat, pc: Pc): State
    requires id in s.sends
  {
    s.(sends := s.sends[id := s.sends[id].(pc := pc)])
  }

  predicate MayEnter(s: State, id: nat)
    requires id in s.sends
  {
    s.sends[id].previous.None? || s.sends[id].previous.value in s.resolved
  }

  predicate Is(s: State, id: nat, pc: Pc) {
    id in s.sends && s.sends[id].pc == pc
  }

  /** What the record says about a request before anything is sent. */
  function Lookup(stored: Stored, payloadHash: string): Pc {
    match stored
    case Absent => Screening
    case Unreadable => Leaving(DeniedOtherwise)
    case Record(status, hash) =>
      if hash != payloadHash then Leaving(Mismatch)
      else if status.Sent? then Leaving(Duplicate(status.receipt))
      else Leaving(OutcomeUnknown)
  }

  /** A step that is not enabled changes nothing. A failed write may or may not have been applied. */
  function Step(s: State, e: Event): State {
    match e
    case Arrive(payloadHash) =>
      s.(sends := s.sends[s.nextPromise := Send(s.lockEntry, payloadHash, Queued)],
         lockEntry := Some(s.nextPromise),
         nextPromise := s.nextPromise + 1)
    case Enter(id) =>
      if Is(s, id, Queued) && MayEnter(s, id) then At(s, id, Reading) else s
    case Read(id, readable) =>
      if !Is(s, id, Reading) then s
      else At(s, id, if readable then Lookup(s.stored, s.sends[id].payloadHash) else Leaving(Threw))
    case Screen(id, verdict) =>
      if !Is(s, id, Screening) then s
      else At(s, id, if verdict == Some(true) then Persisting
                     else Leaving(if verdict.Some? then DeniedOtherwise else Threw))
    case Persist(id, applied, ok) =>
      if !Is(s, id, Persisting) then s
      else
        var t := At(s, id, if ok then Persisted else Leaving(Threw));
        if ok || applied then t.(stored := Record(Pending, s.sends[id].payloadHash)) else t
    case Proceed(id, stillApproved, stillRegistered) =>
      if !Is(s, id, Persisted) then s
      else if stillApproved && stillRegistered then
        At(s, id, Sending).(calls := s.calls + [s.sends[id].payloadHash])
      else At(s, id, Forgetting)
    case Forget(id, applied) =>
      if !Is(s, id, Forgetting) then s
      else
        var t := At(s, id, Leaving(DeniedOtherwise));
        if applied then t.(stored := Absent) else t
    case Settle(id, receipt) =>
      if !Is(s, id, Sending) then s
      else if receipt.Some? then At(s, id, RecordingSent(receipt.value)).(acknowledged := receipt)
      else At(s, id, RecordingUnknown)
    case RecordOutcome(id, applied, ok) =>
      if id !in s.sends then s
      else (
        match s.sends[id].pc
        case RecordingSent(receipt) =>
          var t := At(s, id, Leaving(if ok then SentNow(receipt) else Threw));
          if ok || applied then t.(stored := Record(Sent(receipt), s.sends[id].payloadHash)) else t
        case RecordingUnknown =>
          var t := At(s, id, Leaving(Threw));
          if applied then t.(stored := Record(Unknown, s.sends[id].payloadHash)) else t
        case _ => s)
    case Leave(id) =>
      if id !in s.sends || !s.sends[id].pc.Leaving? then s
      else
        s.(sends := s.sends - {id},
           resolved := s.resolved + {id},
           lockEntry := if s.lockEntry == Some(id) then None else s.lockEntry,
           told := s.told + [Delivery(s.sends[id].payloadHash, s.sends[id].pc.answer)])
    case Crash =>
      s.(sends := map[], lockEntry := None)
  }

  function Run(s: State, events: seq<Event>): State
    decreases |events|
  {
    if events == [] then s else Run(Step(s, events[0]), events[1..])
  }

  predicate Initial(s: State) {
    && !s.stored.Record? && s.sends == map[] && s.lockEntry.None?
    && s.calls == [] && s.acknowledged.None? && s.told == []
    && forall id <- s.resolved :: id < s.nextPromise
  }

  // ----- The lock

  /** A send waits for the promise of another send, or for nothing. */
  ghost predicate Linked(s: State, id: nat)
    requires id in s.sends
  {
    && id < s.nextPromise && id !in s.resolved
    && (MayEnter(s, id) || (s.sends[id].previous.value in s.sends && s.sends[id].previous.value < id))
  }

  /** Of two sends the later one waits, for one that is not before the earlier. */
  ghost predicate Ordered(s: State, first: nat, second: nat)
    requires first in s.sends && second in s.sends
  {
    first < second ==>
      && !MayEnter(s, second)
      && first <= s.sends[second].previous.value
  }

  ghost predicate LockInv(s: State) {
    && (forall id {:trigger Linked(s, id)} :: id in s.sends ==> Linked(s, id))
    && (forall a, b {:trigger Ordered(s, a, b)} :: a in s.sends && b in s.sends ==> Ordered(s, a, b))
    && (forall id <- s.sends :: !s.sends[id].pc.Queued? ==> MayEnter(s, id))
    && (match s.lockEntry
        case None => s.sends == map[]
        case Some(last) => last in s.sends && forall id <- s.sends :: id <= last)
    && (forall id <- s.resolved :: id < s.nextPromise)
  }

  lemma ArriveKeepsLock(s: State, payloadHash: string)
    requires LockInv(s)
    ensures LockInv(Step(s, Arrive(payloadHash)))
  {
    var t := Step(s, Arrive(payloadHash));
    forall id | id in s.sends
      ensures Linked(s, id)
    {
    }
    forall a, b | a in t.sends && b in t.sends
      ensures Linked(t, a) && Ordered(t, a, b)
    {
      if a in s.sends && b in s.sends {
        assert Ordered(s, a, b);
      }
    }
  }

  lemma LeaveKeepsLock(s: State, id: nat)
    requires LockInv(s) && id in s.sends && s.sends[id].pc.Leaving?
    ensures LockInv(Step(s, Leave(id)))
  {
    var t := Step(s, Leave(id));
    assert Linked(s, id);
    forall other | other in s.sends
      ensures id <= other && Linked(s, other)
    {
      assert Ordered(s, other, id);
    }
    forall a, b | a in t.sends && b in t.sends
      ensures Linked(t, a) && Ordered(t, a, b)
    {
      assert Ordered(s, a, b);
    }
  }

  lemma CrashKeepsLock(s: State)
    requires LockInv(s)
    ensures LockInv(Step(s, Crash))
  {
  }

  /** Steps inside the locked part leave the lock alone. */
  ghost predicate SameLock(s: State, t: State) {
    && t.lockEntry == s.lockEntry && t.resolved == s.resolved && t.nextPromise == s.nextPromise
    && t.sends.Keys == s.sends.Keys
    && forall id {:trigger t.sends[id]} :: id in s.sends ==>
         && t.sends[id].previous == s.sends[id].previous
         && (!t.sends[id].pc.Queued? ==> !s.sends[id].pc.Queued? || MayEnter(s, id))
  }

  lemma SameLockKeepsLock(s: State, t: State)
    requires LockInv(s) && SameLock(s, t)
    ensures LockInv(t)
  {
    forall a, b | a in t.sends && b in t.sends
      ensures Linked(t, a) && Ordered(t, a, b)
    {
      assert Linked(s, a) && Ordered(s, a, b);
    }
    forall id | id in t.sends && !t.sends[id].pc.Queued?
      ensures MayEnter(t, id)
    {
      assert t.sends[id].previous == s.sends[id].previous;
    }
  }

  lemma StepKeepsLock(s: State, e: Event)
    requires LockInv(s)
    ensures LockInv(Step(s, e))
  {
    hide LockInv, Lookup;
    var t := Step(s, e);
    match e
    case Arrive(payloadHash) => ArriveKeepsLock(s, payloadHash);
    case Leave(id) =>
      if t != s {
        LeaveKeepsLock(s, id);
      }
    case Crash => CrashKeepsLock(s);
    case _ =>
      assert SameLock(s, t);
      SameLockKeepsLock(s, t);
  }

  /** No two sends are in the locked part, and the one that is came before all that wait. */
  lemma MutualExclusion(s: State, a: nat, b: nat)
    requires LockInv(s) && a in s.sends && b in s.sends
    requires !s.sends[a].pc.Queued? && a != b
    ensures s.sends[b].pc.Queued? && a < b && !MayEnter(s, b)
  {
    assert Ordered(s, a, b) && Ordered(s, b, a);
  }

  /** Sends enter in the order in which they arrived, and the first that waits can enter. */
  lemma FirstComeFirstServed(s: State, id: nat)
    requires LockInv(s) && id in s.sends
    ensures MayEnter(s, id) <==> forall other <- s.sends :: id <= other
  {
    assert Linked(s, id);
    forall other | other in s.sends
      ensures MayEnter(s, id) ==> id <= other
    {
      assert Ordered(s, other, id);
    }
  }

  /** The lock map has an entry exactly while somebody holds the lock or waits for it. */
  lemma EntryExactlyWhileUsed(s: State)
    requires LockInv(s)
    ensures s.lockEntry.None? <==> s.sends == map[]
  {
  }

  // ----- At most one send

  /** The record of the one call: at the adapter, acknowledged, or with an outcome nobody knows. */
  predicate Consistent(s: State) {
    && |s.calls| <= 1
    && (s.calls == [] ==> s.acknowledged.None? && (s.stored.Record? ==> s.stored.status.Pending?))
    && (s.calls != [] ==> s.stored.Record? && s.stored.payloadHash == s.calls[0])
    && (s.stored.Record? && s.stored.status.Sent? ==> s.acknowledged == Some(s.stored.status.receipt))
  }

  /** What the send in the locked part knows. */
  predicate Knows(s: State, id: nat)
    requires id in s.sends
  {
    var send := s.sends[id];
    match send.pc
    case Queued => true
    case Reading => true
    case Screening => s.calls == [] && s.stored.Absent?
    case Persisting => s.calls == [] && s.stored.Absent?
    case Persisted => s.calls == [] && s.stored == Record(Pending, send.payloadHash)
    case Forgetting => s.calls == [] && s.stored == Record(Pending, send.payloadHash)
    case Sending => s.calls == [send.payloadHash] && s.stored == Record(Pending, send.payloadHash) && s.acknowledged.None?
    case RecordingSent(receipt) =>
      s.calls == [send.payloadHash] && s.stored == Record(Pending, send.payloadHash) && s.acknowledged == Some(receipt)
    case RecordingUnknown =>
      s.calls == [send.payloadHash] && s.stored == Record(Pending, send.payloadHash) && s.acknowledged.None?
    case Leaving(answer) => Truthful(s, Delivery(send.payloadHash, answer))
  }

  /** A receipt is only ever given for the one acknowledged call, and for its payload. */
  predicate Truthful(s: State, d: Delivery) {
    match d.answer
    case SentNow(receipt) => s.calls == [d.payloadHash] && s.acknowledged == Some(receipt)
    case Duplicate(receipt) => s.calls == [d.payloadHash] && s.acknowledged == Some(receipt)
    case _ => true
  }

  ghost predicate Inv(s: State) {
    && LockInv(s)
    && Consistent(s)
    && (forall id {:trigger Knows(s, id)} :: id in s.sends ==> Knows(s, id))
    && (forall d <- s.told :: Truthful(s, d))
  }

  lemma StepKeepsKnowing(s: State, e: Event, id: nat)
    requires Inv(s) && id in Step(s, e).sends
    ensures Knows(Step(s, e), id)
  {
    hide LockInv;
    if id in s.sends {
      assert Knows(s, id);
      if !e.Arrive? && !e.Crash? && e.id in s.sends && id != e.id && !s.sends[e.id].pc.Queued? {
        MutualExclusion(s, e.id, id);
      }
    }
  }

  lemma StepKeepsTruth(s: State, e: Event)
    requires Inv(s)
    ensures Consistent(Step(s, e))
    ensures forall d <- Step(s, e).told :: Truthful(Step(s, e), d)
    ensures s.calls != [] ==> Step(s, e).calls == s.calls
  {
    hide LockInv;
    if !e.Arrive? && !e.Crash? && e.id in s.sends {
      assert Knows(s, e.id);
    }
  }

  lemma StepKeepsInv(s: State, e: Event)
    requires Inv(s)
    ensures Inv(Step(s, e))
    ensures s.calls != [] ==> Step(s, e).calls == s.calls
  {
    hide LockInv, Step, Knows, Consistent, Truthful;
    StepKeepsLock(s, e);
    StepKeepsTruth(s, e);
    forall id | id in Step(s, e).sends
      ensures Knows(Step(s, e), id)
    {
      StepKeepsKnowing(s, e, id);
    }
  }

  /** Over all interleavings and all crashes: one call at most, and every receipt is that call's. */
  lemma {:induction false} AtMostOneSend(s: State, events: seq<Event>)
    requires Inv(s)
    ensures Inv(Run(s, events)) && |Run(s, events).calls| <= 1
    ensures s.calls != [] ==> Run(s, events).calls == s.calls
    decreases |events|
  {
    hide Step;
    if events != [] {
      StepKeepsInv(s, events[0]);
      AtMostOneSend(Step(s, events[0]), events[1..]);
    }
  }

  /** Nothing is sent, recorded or told at the start. */
  lemma InitialInv(s: State)
    requires Initial(s)
    ensures Inv(s)
  {
  }

  /** The receipt that an answer gives. */
  function ReceiptOf(answer: Answer): Option<Receipt> {
    match answer
    case SentNow(receipt) => Some(receipt)
    case Duplicate(receipt) => Some(receipt)
    case _ => None
  }

  /** In every run from the start, all receipts are one, for the payload of the one call. */
  lemma ReceiptsAgree(s: State, events: seq<Event>, d: Delivery, e: Delivery)
    requires Initial(s) && d in Run(s, events).told && e in Run(s, events).told
    requires ReceiptOf(d.answer).Some? && ReceiptOf(e.answer).Some?
    ensures ReceiptOf(d.answer) == ReceiptOf(e.answer) == Run(s, events).acknowledged
    ensures Run(s, events).calls == [d.payloadHash] && d.payloadHash == e.payloadHash
  {
    hide LockInv;
    InitialInv(s);
    AtMostOneSend(s, events);
    assert Truthful(Run(s, events), d) && Truthful(Run(s, events), e);
  }

  /** A record is only ever removed before anything was sent under its key. */
  lemma ForgottenOnlyUnsent(s: State, e: Event)
    requires Inv(s)
    ensures s.stored.Record? && !Step(s, e).stored.Record? ==> s.calls == [] && Step(s, e).calls == []
    ensures s.calls != [] ==> Step(s, e).stored.Record? && Step(s, e).stored.payloadHash == s.stored.payloadHash
  {
    hide LockInv;
    StepKeepsInv(s, e);
    if !e.Arrive? && !e.Crash? && e.id in s.sends {
      assert Knows(s, e.id);
    }
  }

  // ----- What a caller gets

  /** A state in which one send is alone. */
  function Alone(s: State, id: nat, payloadHash: string, pc: Pc): State {
    s.(sends := map[id := Send(None, payloadHash, pc)], lockEntry := Some(id), nextPromise := id + 1)
  }

  lemma EnterAlone(s: State, payloadHash: string)
    requires s.sends == map[] && s.lockEntry.None?
    ensures var id := s.nextPromise;
      Step(Step(s, Arrive(payloadHash)), Enter(id)) == Alone(s, id, payloadHash, Reading)
  {
    var id := s.nextPromise;
    assert Step(s, Arrive(payloadHash)) == Alone(s, id, payloadHash, Queued);
  }

  lemma ScreenAlone(s: State, id: nat, payloadHash: string)
    requires s.stored.Absent?
    ensures Step(Step(Alone(s, id, payloadHash, Reading), Read(id, true)), Screen(id, Some(true)))
      == Alone(s, id, payloadHash, Persisting)
  {
    assert Step(Alone(s, id, payloadHash, Reading), Read(id, true)) == Alone(s, id, payloadHash, Screening);
  }

  lemma ProceedAlone(s: State, id: nat, payloadHash: string)
    ensures Step(Step(Alone(s, id, payloadHash, Persisting), Persist(id, true, true)), Proceed(id, true, true))
      == Alone(s, id, payloadHash, Sending).(stored := Record(Pending, payloadHash), calls := s.calls + [payloadHash])
  {
    assert Step(Alone(s, id, payloadHash, Persisting), Persist(id, true, true))
      == Alone(s, id, payloadHash, Persisted).(stored := Record(Pending, payloadHash));
  }

  lemma RecordAlone(s: State, id: nat, payloadHash: string, receipt: Receipt)
    ensures Step(Step(Alone(s, id, payloadHash, Sending), Settle(id, Some(receipt))), RecordOutcome(id, true, true))
      == Alone(s, id, payloadHash, Leaving(SentNow(receipt))).(
           stored := Record(Sent(receipt), payloadHash), acknowledged := Some(receipt))
  {
    assert Step(Alone(s, id, payloadHash, Sending), Settle(id, Some(receipt)))
      == Alone(s, id, payloadHash, RecordingSent(receipt)).(acknowledged := Some(receipt));
  }

  /** A send that nothing comes between goes out, is recorded before and after, and gives its receipt. */
  lemma UndisturbedSendGoesOut(s: State, payloadHash: string, receipt: Receipt)
    requires LockInv(s) && s.sends == map[] && s.stored.Absent?
    ensures
      var id := s.nextPromise;
      var screened := Step(Step(Step(Step(s, Arrive(payloadHash)), Enter(id)), Read(id, true)), Screen(id, Some(true)));
      var atAdapter := Step(Step(screened, Persist(id, true, true)), Proceed(id, true, true));
      var t := Step(Step(Step(atAdapter, Settle(id, Some(receipt))), RecordOutcome(id, true, true)), Leave(id));
      && atAdapter.stored == Record(Pending, payloadHash) && t.stored == Record(Sent(receipt), payloadHash)
      && t.calls == s.calls + [payloadHash] && t.told == s.told + [Delivery(payloadHash, SentNow(receipt))]
      && t.sends == map[] && t.lockEntry.None?
  {
    hide Step;
    var id := s.nextPromise;
    EnterAlone(s, payloadHash);
    ScreenAlone(s, id, payloadHash);
    ProceedAlone(s, id, payloadHash);
    var sent := s.(stored := Record(Pending, payloadHash), calls := s.calls + [payloadHash]);
    RecordAlone(sent, id, payloadHash, receipt);
    LeaveAlone(sent.(stored := Record(Sent(receipt), payloadHash), acknowledged := Some(receipt)), id, payloadHash,
               SentNow(receipt));
  }

  lemma LeaveAlone(s: State, id: nat, payloadHash: string, answer: Answer)
    ensures var t := Step(Alone(s, id, payloadHash, Leaving(answer)), Leave(id));
      && t.sends == map[] && t.lockEntry.None? && t.stored == s.stored && t.calls == s.calls
      && t.told == s.told + [Delivery(payloadHash, answer)]
  {
  }

  /** A retry is answered by the record alone: the receipt again, a conflict, or that the outcome is not known. */
  lemma RetryIsAnsweredByRecord(s: State, payloadHash: string)
    requires LockInv(s) && s.sends == map[] && s.stored.Record?
    ensures
      var id := s.nextPromise;
      var t := Step(Step(Step(Step(s, Arrive(payloadHash)), Enter(id)), Read(id, true)), Leave(id));
      && t.stored == s.stored && t.calls == s.calls
      && t.told == s.told + [Delivery(payloadHash,
           if s.stored.payloadHash != payloadHash then Mismatch
           else if s.stored.status.Sent? then Duplicate(s.stored.status.receipt)
           else OutcomeUnknown)]
  {
    var id := s.nextPromise;
    EnterAlone(s, payloadHash);
    var answer := Lookup(s.stored, payloadHash).answer;
    assert Step(Alone(s, id, payloadHash, Reading), Read(id, true)) == Alone(s, id, payloadHash, Leaving(answer));
    LeaveAlone(s, id, payloadHash, answer);
  }
}
