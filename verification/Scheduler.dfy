/**
 * The scheduler: entries that are pending until their time has come, each with a
 * timer that is armed anew as long as it went off too early, and cron entries that
 * are followed by a next one when their callback has settled.
 */
module Scheduler {
  import opened Wrappers
  import opened Text
  import opened Calendar
  import opened Cron

  const MAX_TIMER_DELAY := 2_147_000_000

  datatype Key = Key(owner: string, id: string)

  /** timer is when the armed timer is due. from is, for a history, the entry that this one follows. */
  datatype Entry = Entry(key: Key, cron: Option<CronFields>, runAt: int, aborted: bool, timer: Option<int>, from: Option<nat>)

  /** A callback was started at a time. */
  datatype Start = Start(entry: nat, at: int)

  /** Every entry that was ever made, the pending one of each key, and those whose callback runs. starts is a history. */
  datatype State = State(entries: seq<Entry>, callbacks: map<Key, nat>, running: set<nat>, stopped: bool, now: int,
                         starts: seq<Start>)

  datatype Event =
    | Tick(to: int)
    | Schedule(key: Key, runAt: int)
    | ScheduleCron(key: Key, cron: CronFields, first: int)
    | Cancel(key: Key)
    | CancelOwned(owner: string)
    | Shutdown
    | Fire(entry: nat)
    | Settle(entry: nat, next: Option<int>)

  // ----- The operations

  /** A timer goes off at the run time, or after the longest delay. */
  function Due(runAt: int, now: int): int {
    var remaining := if runAt > now then runAt - now else 0;
    now + if remaining < MAX_TIMER_DELAY then remaining else MAX_TIMER_DELAY
  }

  function Pend(s: State, key: Key, cron: Option<CronFields>, runAt: int, from: Option<nat>): State {
    s.(entries := s.entries + [Entry(key, cron, runAt, false, Some(Due(runAt, s.now)), from)],
       callbacks := s.callbacks[key := |s.entries|])
  }

  predicate Registrable(s: State, key: Key) {
    !s.stopped && !IsBlank(key.id) && key !in s.callbacks
  }

  predicate Pending(s: State, i: nat) {
    i < |s.entries| && s.entries[i].key in s.callbacks && s.callbacks[s.entries[i].key] == i
  }

  /** Entries are no longer pending or running; if they were, they are aborted. */
  function Cancelled(s: State, which: set<nat>): State {
    s.(entries := seq(|s.entries|, i requires 0 <= i < |s.entries| =>
         if i in which then s.entries[i].(timer := None, aborted := s.entries[i].aborted || Pending(s, i) || i in s.running)
         else s.entries[i]),
       callbacks := map k <- s.callbacks | s.callbacks[k] !in which :: s.callbacks[k],
       running := s.running - which)
  }

  predicate Live(s: State, i: nat) {
    Pending(s, i) || (i in s.running && i < |s.entries|)
  }

  function OfKey(s: State, key: Key): set<nat> {
    set i: nat | i < |s.entries| && Live(s, i) && s.entries[i].key == key
  }

  function OfOwner(s: State, owner: string): set<nat> {
    set i: nat | i < |s.entries| && Live(s, i) && s.entries[i].key.owner == owner
  }

  function AllLive(s: State): set<nat> {
    set i: nat | i < |s.entries| && Live(s, i)
  }

  function WithTimer(s: State, i: nat, timer: Option<int>): State
    requires i < |s.entries|
  {
    s.(entries := s.entries[i := s.entries[i].(timer := timer)])
  }

  function Fired(s: State, i: nat): State {
    if i >= |s.entries| || s.entries[i].timer.None? then s
    else if !Pending(s, i) || s.entries[i].aborted then WithTimer(s, i, None)
    else if s.entries[i].runAt > s.now then WithTimer(s, i, Some(Due(s.entries[i].runAt, s.now)))
    else
      WithTimer(s, i, None).(callbacks := s.callbacks - {s.entries[i].key},
                             running := s.running + {i},
                             starts := s.starts + [Start(i, s.now)])
  }

  /** What the search for the next occurrence promises of its result. */
  ghost predicate IsNext(cron: CronFields, after: int, t: int) {
    Occurrence(cron, after, t) && t <= after + WINDOW && forall u :: after < u < t ==> !Occurrence(cron, after, u)
  }

  ghost function Settled(s: State, i: nat, next: Option<int>): State {
    if i !in s.running || i >= |s.entries| then s
    else
      var t := s.(running := s.running - {i});
      var e := s.entries[i];
      if e.cron.None? || s.stopped || e.aborted || next.None? || !IsNext(e.cron.value, s.now, next.value) then t
      else Pend(t, e.key, e.cron, next.value, Some(i))
  }

  /** An event that cannot happen changes nothing. */
  ghost function Step(s: State, e: Event): State {
    match e
    case Tick(to) => if to < s.now then s else s.(now := to)
    case Schedule(key, runAt) => if Registrable(s, key) then Pend(s, key, None, runAt, None) else s
    case ScheduleCron(key, cron, first) =>
      if Registrable(s, key) && IsNext(cron, s.now, first) then Pend(s, key, Some(cron), first, None) else s
    case Cancel(key) => Cancelled(s, OfKey(s, key))
    case CancelOwned(owner) => Cancelled(s, OfOwner(s, owner))
    case Shutdown => if s.stopped then s else Cancelled(s, AllLive(s)).(stopped := true)
    case Fire(i) => Fired(s, i)
    case Settle(i, next) => Settled(s, i, next)
  }

  ghost function Run(s: State, events: seq<Event>): State
    decreases |events|
  {
    if events == [] then s else Run(Step(s, events[0]), events[1..])
  }

  const EMPTY := State([], map[], {}, false, 0, [])

  // ----- What always holds

  predicate Started(s: State, i: nat) {
    exists k | 0 <= k < |s.starts| :: s.starts[k].entry == i
  }

  /** The pending entry of a key is neither aborted nor started, and has a timer that is due when it must be. */
  ghost predicate KeyOk(s: State, key: Key) {
    key in s.callbacks ==>
      var i := s.callbacks[key];
      && i < |s.entries| && s.entries[i].key == key && !s.entries[i].aborted && !Started(s, i) && !s.stopped
      && s.entries[i].timer.Some?
  }

  ghost predicate RunningOk(s: State, i: nat) {
    i in s.running ==> i < |s.entries| && !s.entries[i].aborted && Started(s, i) && !s.stopped
  }

  /** A cron entry runs at a time that matches, after the start of the entry that it follows. */
  ghost predicate EntryOk(s: State, i: nat) {
    i < |s.entries| ==>
      var e := s.entries[i];
      && (e.cron.Some? ==> WholeMinute(e.runAt) && Matches(e.cron.value, e.runAt))
      && (e.from.Some? ==>
            && e.from.value < i && e.cron == s.entries[e.from.value].cron && e.key == s.entries[e.from.value].key
            && Started(s, e.from.value)
            && forall k | 0 <= k < |s.starts| :: s.starts[k].entry == e.from.value ==> s.starts[k].at < e.runAt)
  }

  ghost predicate StartOk(s: State, k: nat) {
    k < |s.starts| ==>
      var x := s.starts[k];
      x.entry < |s.entries| && s.entries[x.entry].runAt <= x.at <= s.now
  }

  ghost predicate OnceOk(s: State, j: nat, k: nat) {
    j < k < |s.starts| ==> s.starts[j].entry != s.starts[k].entry
  }

  ghost predicate All(s: State, key: Key, i: nat, j: nat, k: nat) {
    KeyOk(s, key) && RunningOk(s, i) && EntryOk(s, i) && StartOk(s, k) && OnceOk(s, j, k)
  }

  ghost predicate Inv(s: State) {
    forall key, i: nat, j: nat, k: nat {:trigger All(s, key, i, j, k)} :: All(s, key, i, j, k)
  }

  lemma PendKeepsInv(s: State, key: Key, cron: Option<CronFields>, runAt: int, from: Option<nat>)
    requires Inv(s) && !s.stopped
    requires cron.Some? ==> WholeMinute(runAt) && Matches(cron.value, runAt) && runAt > s.now
    requires from.Some? ==>
      from.value < |s.entries| && cron.Some? && cron == s.entries[from.value].cron && key == s.entries[from.value].key
      && Started(s, from.value)
    ensures Inv(Pend(s, key, cron, runAt, from))
  {
    hide Matches, WholeMinute;
    var t := Pend(s, key, cron, runAt, from);
    forall k: Key, i: nat, j: nat, m: nat
      ensures All(t, k, i, j, m)
    {
      assert All(s, k, i, j, m);
      assert t.entries[|s.entries|] == Entry(key, cron, runAt, false, Some(Due(runAt, s.now)), from);
      StartsAreOld(s, |s.entries|);
      StartsArePast(s);
    }
  }

  lemma StartsAreOld(s: State, i: nat)
    requires Inv(s) && i >= |s.entries|
    ensures !Started(s, i)
  {
    forall k | 0 <= k < |s.starts|
      ensures s.starts[k].entry != i
    {
      assert All(s, Key("", ""), 0, 0, k);
    }
  }

  lemma StartsArePast(s: State)
    requires Inv(s)
    ensures forall k | 0 <= k < |s.starts| :: s.starts[k].at <= s.now
  {
    forall k | 0 <= k < |s.starts|
      ensures s.starts[k].at <= s.now
    {
      assert All(s, Key("", ""), 0, 0, k);
    }
  }

  lemma CancelledKeepsInv(s: State, which: set<nat>)
    requires Inv(s)
    ensures Inv(Cancelled(s, which))
  {
    hide Matches, WholeMinute;
    var t := Cancelled(s, which);
    forall k: Key, i: nat, j: nat, m: nat
      ensures All(t, k, i, j, m)
    {
      assert All(s, k, i, j, m);
      if k in t.callbacks {
        assert t.callbacks[k] !in which;
      }
    }
  }

  lemma FiredKeepsInv(s: State, i: nat)
    requires Inv(s)
    ensures Inv(Fired(s, i))
  {
    hide Matches, WholeMinute;
    var t := Fired(s, i);
    if t.starts != s.starts {
      StartKeepsInv(s, i);
    } else {
      forall k: Key, x: nat, j: nat, m: nat
        ensures All(t, k, x, j, m)
      {
        assert All(s, k, x, j, m);
      }
    }
  }

  lemma StartKeepsInv(s: State, i: nat)
    requires Inv(s) && Fired(s, i).starts != s.starts
    ensures Inv(Fired(s, i))
  {
    hide Matches, WholeMinute;
    var t := Fired(s, i);
    var key, n := s.entries[i].key, |s.starts|;
    assert All(s, key, i, 0, 0);
    assert t.starts[n] == Start(i, s.now) && t.starts[..n] == s.starts;
    FollowersStartLater(s, i);
    forall x: nat
      ensures Started(t, x) <==> Started(s, x) || x == i
    {
      assert forall k | 0 <= k < n :: t.starts[k] == s.starts[k];
    }
    forall k: Key, x: nat, j: nat, m: nat
      ensures All(t, k, x, j, m)
    {
      assert All(s, k, x, j, m);
      assert j < n ==> s.starts[j].entry != i;
    }
  }

  /** No entry follows one that has not started. */
  lemma FollowersStartLater(s: State, i: nat)
    requires Inv(s) && !Started(s, i)
    ensures forall x | 0 <= x < |s.entries| :: s.entries[x].from != Some(i)
  {
    forall x | 0 <= x < |s.entries|
      ensures s.entries[x].from != Some(i)
    {
      assert All(s, Key("", ""), x, 0, 0);
    }
  }

  lemma StepKeepsInv(s: State, e: Event)
    requires Inv(s)
    ensures Inv(Step(s, e))
  {
    hide Inv, Pend, Cancelled, Fired, Matches, WholeMinute;
    match e {
      case Tick(to) => if s.now <= to { TickKeepsInv(s, to); }
      case Schedule(key, runAt) => if Registrable(s, key) { PendKeepsInv(s, key, None, runAt, None); }
      case ScheduleCron(key, cron, first) =>
        if Registrable(s, key) && IsNext(cron, s.now, first) {
          PendKeepsInv(s, key, Some(cron), first, None);
        }
      case Cancel(key) => CancelledKeepsInv(s, OfKey(s, key));
      case CancelOwned(owner) => CancelledKeepsInv(s, OfOwner(s, owner));
      case Shutdown => ShutdownKeepsInv(s);
      case Fire(i) => FiredKeepsInv(s, i);
      case Settle(i, next) => SettledKeepsInv(s, i, next);
    }
  }

  lemma TickKeepsInv(s: State, to: int)
    requires Inv(s) && s.now <= to
    ensures Inv(s.(now := to))
  {
    hide Matches, WholeMinute;
    forall k: Key, i: nat, j: nat, m: nat
      ensures All(s.(now := to), k, i, j, m)
    {
      assert All(s, k, i, j, m);
    }
  }

  lemma ShutdownKeepsInv(s: State)
    requires Inv(s)
    ensures Inv(Cancelled(s, AllLive(s)).(stopped := true))
    ensures var t := Cancelled(s, AllLive(s)); t.callbacks == map[] && t.running == {}
  {
    hide Matches, WholeMinute;
    var u := Cancelled(s, AllLive(s));
    CancelledKeepsInv(s, AllLive(s));
    forall k | k in s.callbacks
      ensures s.callbacks[k] in AllLive(s)
    {
      assert All(s, k, 0, 0, 0);
    }
    forall i | i in s.running
      ensures i in AllLive(s)
    {
      assert All(s, Key("", ""), i, 0, 0);
    }
    var t := u.(stopped := true);
    forall k: Key, i: nat, j: nat, m: nat
      ensures All(t, k, i, j, m)
    {
      assert All(u, k, i, j, m);
    }
  }

  lemma SettledKeepsInv(s: State, i: nat, next: Option<int>)
    requires Inv(s)
    ensures Inv(Settled(s, i, next))
  {
    hide Matches, WholeMinute;
    if i in s.running && i < |s.entries| {
      var t := s.(running := s.running - {i});
      forall k: Key, x: nat, j: nat, m: nat
        ensures All(t, k, x, j, m)
      {
        assert All(s, k, x, j, m);
      }
      if Settled(s, i, next) != t {
        assert All(s, Key("", ""), i, 0, 0);
        PendKeepsInv(t, s.entries[i].key, s.entries[i].cron, next.value, Some(i));
      }
    }
  }

  lemma {:induction false} ReachableInv(s: State, events: seq<Event>)
    requires Inv(s)
    ensures Inv(Run(s, events))
    decreases |events|
  {
    if events != [] {
      StepKeepsInv(s, events[0]);
      ReachableInv(Step(s, events[0]), events[1..]);
    }
  }

  lemma EmptyInv()
    ensures Inv(EMPTY)
  {
  }

  // ----- Over whole runs

  /** What is scheduled is pending at the time that was asked for, with a timer that is due by then. */
  lemma ScheduledAsAsked(s: State, key: Key, runAt: int)
    ensures var t, i := Step(s, Schedule(key, runAt)), |s.entries|;
      if s.stopped || IsBlank(key.id) || key in s.callbacks then t == s
      else
        && Pending(t, i) && t.entries[i].runAt == runAt && t.entries[i].cron.None? && !t.entries[i].aborted
        && t.entries[i].timer.Some? && s.now <= t.entries[i].timer.value <= s.now + MAX_TIMER_DELAY
        && (runAt > s.now ==> t.entries[i].timer.value <= runAt)
        && forall j: nat | Pending(s, j) :: Pending(t, j) && t.entries[j] == s.entries[j]
  {
  }

  /** However the scheduler is used, an entry starts at most once, and not before its time. */
  lemma StartsOnce(events: seq<Event>, j: nat, k: nat)
    requires j < |Run(EMPTY, events).starts| && k < |Run(EMPTY, events).starts|
    ensures var s := Run(EMPTY, events);
      && (j != k ==> s.starts[j].entry != s.starts[k].entry)
      && s.starts[k].entry < |s.entries| && s.entries[s.starts[k].entry].runAt <= s.starts[k].at
  {
    EmptyInv();
    ReachableInv(EMPTY, events);
    var s := Run(EMPTY, events);
    assert All(s, Key("", ""), 0, j, k) && All(s, Key("", ""), 0, k, j);
  }

  /** A callback starts only for the pending entry of its key, which was not aborted, once the clock has reached its time. */
  lemma StartsOnlyWhenDue(s: State, e: Event)
    requires Inv(s) && Step(s, e).starts != s.starts
    ensures e.Fire? && Pending(s, e.entry) && !s.entries[e.entry].aborted && !s.stopped
    ensures s.entries[e.entry].runAt <= s.now && Step(s, e).starts == s.starts + [Start(e.entry, s.now)]
  {
    assert e.Fire?;
    assert All(s, s.entries[e.entry].key, 0, 0, 0);
  }

  lemma CancelledKeepsGone(s: State, which: set<nat>, i: nat)
    requires i < |s.entries| && !Pending(s, i)
    ensures var t := Cancelled(s, which); |t.entries| == |s.entries| && t.entries[i].key == s.entries[i].key && !Pending(t, i)
    ensures Cancelled(s, which).starts == s.starts
  {
  }

  lemma FiredKeepsGone(s: State, j: nat, i: nat)
    requires i < |s.entries| && !Pending(s, i)
    ensures var t := Fired(s, j); |t.entries| == |s.entries| && t.entries[i].key == s.entries[i].key && !Pending(t, i)
    ensures Started(Fired(s, j), i) <==> Started(s, i)
  {
    var t := Fired(s, j);
    if t.starts != s.starts {
      assert t.starts[..|s.starts|] == s.starts && t.starts[|s.starts|].entry == j;
      assert forall k | 0 <= k < |s.starts| :: t.starts[k] == s.starts[k];
    }
  }

  /** Every operation keeps the entries, and none but a start adds to the starts. */
  lemma StepKeepsGone(s: State, e: Event, i: nat)
    requires Inv(s) && i < |s.entries| && !Pending(s, i)
    ensures i < |Step(s, e).entries| && Step(s, e).entries[i].key == s.entries[i].key && !Pending(Step(s, e), i)
    ensures Started(Step(s, e), i) <==> Started(s, i)
  {
    hide Matches, WholeMinute, Inv, IsNext, Cancelled, Fired, Due, IsBlank;
    match e {
      case Cancel(key) => CancelledKeepsGone(s, OfKey(s, key), i);
      case CancelOwned(owner) => CancelledKeepsGone(s, OfOwner(s, owner), i);
      case Shutdown => CancelledKeepsGone(s, AllLive(s), i);
      case Fire(j) => FiredKeepsGone(s, j, i);
      case _ =>
    }
  }

  /** An entry that is not pending any more never starts again. */
  lemma {:induction false} GoneForGood(s: State, events: seq<Event>, i: nat)
    requires Inv(s) && i < |s.entries| && !Pending(s, i)
    ensures Started(Run(s, events), i) <==> Started(s, i)
    decreases |events|
  {
    hide Step, Started, Inv;
    if events != [] {
      StepKeepsGone(s, events[0], i);
      StepKeepsInv(s, events[0]);
      GoneForGood(Step(s, events[0]), events[1..], i);
    }
  }

  /** What was scheduled under a key before it was cancelled never starts after. */
  lemma NeverAfterCancel(s: State, key: Key, events: seq<Event>, i: nat)
    requires Inv(s) && i < |s.entries| && s.entries[i].key == key
    ensures Started(Run(Step(s, Cancel(key)), events), i) <==> Started(s, i)
    ensures Live(s, i) ==> Step(s, Cancel(key)).entries[i].aborted
  {
    var t := Step(s, Cancel(key));
    StepKeepsInv(s, Cancel(key));
    assert !Pending(t, i);
    GoneForGood(t, events, i);
  }

  /** After a shutdown nothing starts. */
  lemma {:induction false} NeverAfterShutdown(s: State, events: seq<Event>)
    requires Inv(s) && s.stopped
    ensures Run(s, events).starts == s.starts
    decreases |events|
  {
    if events != [] {
      StepKeepsInv(s, events[0]);
      StepKeepsStopped(s, events[0]);
      NeverAfterShutdown(Step(s, events[0]), events[1..]);
    }
  }

  lemma StepKeepsStopped(s: State, e: Event)
    requires Inv(s) && s.stopped
    ensures Step(s, e).stopped && Step(s, e).starts == s.starts
  {
    hide Matches, WholeMinute, Inv, IsNext;
    if Step(s, e).starts != s.starts {
      StartsOnlyWhenDue(s, e);
    }
  }

  /** An entry follows another, directly or through others between. */
  predicate Follows(s: State, i: nat, j: nat)
    decreases i
  {
    && i < |s.entries| && s.entries[i].from.Some?
    && (s.entries[i].from.value == j || (s.entries[i].from.value < i && Follows(s, s.entries[i].from.value, j)))
  }

  /** The firings of one cron schedule run at matching times, each later than when the one before it started. */
  lemma {:induction false} FiringsIncrease(s: State, i: nat, j: nat, k: nat)
    requires Inv(s) && Follows(s, i, j) && k < |s.starts| && s.starts[k].entry == j
    ensures j < |s.entries| && s.entries[j].runAt <= s.starts[k].at < s.entries[i].runAt
    ensures s.entries[i].cron == s.entries[j].cron && s.entries[i].key == s.entries[j].key
    ensures s.entries[i].cron.Some? ==> WholeMinute(s.entries[i].runAt) && Matches(s.entries[i].cron.value, s.entries[i].runAt)
    decreases i
  {
    hide Matches, WholeMinute;
    var y := s.entries[i].from.value;
    assert All(s, Key("", ""), i, 0, k);
    if y != j {
      var m :| 0 <= m < |s.starts| && s.starts[m].entry == y;
      FiringsIncrease(s, y, j, k);
      assert All(s, Key("", ""), y, 0, m);
    }
  }

  /** A timer that went off too early is armed again, for the run time or for the longest delay. */
  lemma EarlyTimerIsArmedAgain(s: State, i: nat)
    requires Inv(s) && Pending(s, i) && s.entries[i].timer.Some? && s.entries[i].timer.value <= s.now
    ensures var t := Fired(s, i);
      if s.entries[i].runAt <= s.now then Started(t, i) && i in t.running
      else
        && Pending(t, i) && t.entries[i].timer.Some? && t.starts == s.starts
        && (t.entries[i].timer.value == s.entries[i].runAt
            || t.entries[i].timer.value >= s.entries[i].timer.value + MAX_TIMER_DELAY)
  {
    assert All(s, s.entries[i].key, i, 0, 0);
    assert s.entries[i].runAt <= s.now ==> Fired(s, i).starts[|s.starts|].entry == i;
  }

  /** The callback of an entry is settled, and the entry is followed by its next occurrence. */
  ghost predicate Reruns(s: State, j: nat, next: Option<int>) {
    && j in s.running && j < |s.entries| && s.entries[j].cron.Some? && !s.stopped && !s.entries[j].aborted
    && next.Some? && IsNext(s.entries[j].cron.value, s.now, next.value)
  }

  /** How a pending entry can come to be no longer pending: cancelled, started, or displaced by its own key's rerun. */
  lemma PendingUntilExactly(s: State, e: Event, i: nat)
    requires Inv(s) && Pending(s, i)
    ensures !Pending(Step(s, e), i) <==>
      match e
      case Cancel(key) => key == s.entries[i].key
      case CancelOwned(owner) => owner == s.entries[i].key.owner
      case Shutdown => true
      case Fire(j) => j == i && s.entries[i].runAt <= s.now
      case Settle(j, next) => Reruns(s, j, next) && s.entries[j].key == s.entries[i].key
      case _ => false
  {
    hide Matches, WholeMinute, IsNext;
    assert All(s, s.entries[i].key, i, 0, 0);
    if e.Settle? {
      assert All(s, s.entries[i].key, e.entry, 0, 0);
    } else if e.Fire? && e.entry < |s.entries| {
      assert All(s, s.entries[e.entry].key, e.entry, 0, 0);
    }
  }

  // ----- A pending entry that is displaced

  /** Every minute. */
  const STARS := CronFields(set n: int | 0 <= n < 60, set n: int | 0 <= n < 24, set n: int | 1 <= n < 32,
    set n: int | 1 <= n < 13, set n: int | 0 <= n < 7, false, false)

  lemma EveryMinute(after: int)
    requires WholeMinute(after)
    ensures IsNext(STARS, after, after + MS_PER_MINUTE)
  {
    var next := after + MS_PER_MINUTE;
    Divides(next, MS_PER_MINUTE, after / MS_PER_MINUTE + 1, 0);
    assert Occurrence(STARS, after, next);
    forall u | after < u < next
      ensures !Occurrence(STARS, after, u)
    {
      Divides(u, MS_PER_MINUTE, after / MS_PER_MINUTE, u - after);
    }
  }

  /** Between the start of a cron entry and its rerun its key is free; what is scheduled under it then is displaced. */
  function Displacing(key: Key): seq<Event> {
    [ScheduleCron(key, STARS, MS_PER_MINUTE), Tick(MS_PER_MINUTE), Fire(0), Schedule(key, 10 * MS_PER_MINUTE)]
  }

  /** The callback of the cron entry runs, and the entry that was scheduled meanwhile is pending. */
  function Overtaken(key: Key): State {
    State([Entry(key, Some(STARS), MS_PER_MINUTE, false, None, None),
           Entry(key, None, 10 * MS_PER_MINUTE, false, Some(10 * MS_PER_MINUTE), None)],
          map[key := 1], {0}, false, MS_PER_MINUTE, [Start(0, MS_PER_MINUTE)])
  }

  lemma DisplacingRun(key: Key)
    requires !IsBlank(key.id)
    ensures Run(EMPTY, Displacing(key)) == Overtaken(key)
  {
    hide IsNext, Run, IsBlank;
    EveryMinute(0);
    var events := Displacing(key);
    var armed := Entry(key, Some(STARS), MS_PER_MINUTE, false, Some(MS_PER_MINUTE), None);
    var a := State([armed], map[key := 0], {}, false, 0, []);
    assert Step(EMPTY, events[0]) == a;
    var b := a.(now := MS_PER_MINUTE);
    var c := State([armed.(timer := None)], map[], {0}, false, MS_PER_MINUTE, [Start(0, MS_PER_MINUTE)]);
    assert Step(b, events[2]) == c by {
      assert Pending(b, 0) && b.callbacks - {key} == map[];
    }
    assert Step(c, events[3]) == Overtaken(key);
    assert events[1..][1..] == events[2..] && events[2..][1..] == events[3..] && events[3..][1..] == [];
    Unfold(EMPTY, events);
    Unfold(a, events[1..]);
    Unfold(b, events[2..]);
    Unfold(c, events[3..]);
    Unfold(Overtaken(key), []);
  }

  lemma PendingIsDisplaced(key: Key)
    requires !IsBlank(key.id)
    ensures var s := Run(EMPTY, Displacing(key)); var t := Step(s, Settle(0, Some(2 * MS_PER_MINUTE)));
      && Pending(s, 1) && !s.entries[1].aborted && s.entries[1].cron.None?
      && !Pending(t, 1) && Pending(t, 2)
      && forall events :: !Started(Run(t, events), 1)
  {
    hide IsNext, Run, IsBlank;
    DisplacingRun(key);
    var s, e := Overtaken(key), Settle(0, Some(2 * MS_PER_MINUTE));
    EveryMinute(MS_PER_MINUTE);
    EmptyInv();
    ReachableInv(EMPTY, Displacing(key));
    StepKeepsInv(s, e);
    var t := Step(s, e);
    assert t == Pend(s.(running := {}), key, Some(STARS), 2 * MS_PER_MINUTE, Some(0));
    forall events
      ensures !Started(Run(t, events), 1)
    {
      GoneForGood(t, events, 1);
    }
  }

  lemma Unfold(s: State, events: seq<Event>)
    ensures events == [] ==> Run(s, events) == s
    ensures events != [] ==> Run(s, events) == Run(Step(s, events[0]), events[1..])
  {
  }
}
