/** What each event does to the entries of the scheduler, said of the states before and after it. */
module SchedulerEffects {
  import opened Wrappers
  import opened Text
  import opened Cron
  import opened Scheduler

  /** These entries, and no others, stop being pending or running; those that were are aborted, and none keeps a timer. */
  predicate Ended(s: State, t: State, which: nat -> bool) {
    && |t.entries| == |s.entries| && t.starts == s.starts && t.now == s.now
    && forall i | 0 <= i < |s.entries| ::
         if which(i) && Live(s, i) then
           && !Live(t, i) && t.entries[i].aborted && t.entries[i].timer.None?
           && t.entries[i].(aborted := false, timer := None) == s.entries[i].(aborted := false, timer := None)
         else
           t.entries[i] == s.entries[i] && Live(t, i) == Live(s, i) && Pending(t, i) == Pending(s, i) && (i in t.running) == (i in s.running)
  }

  lemma LiveIsKnown(s: State, i: nat)
    requires Inv(s)
    ensures (Pending(s, i) ==> i < |s.entries| && s.entries[i].key in s.callbacks) && (i in s.running ==> i < |s.entries|)
  {
    assert All(s, Key("", ""), i, 0, 0);
  }

  /** Cancelling a key ends everything live of that key. */
  lemma CancelEndsKey(s: State, key: Key)
    requires Inv(s)
    ensures Ended(s, Step(s, Cancel(key)), (i: nat) => i < |s.entries| && s.entries[i].key == key)
    ensures Step(s, Cancel(key)).stopped == s.stopped && key !in Step(s, Cancel(key)).callbacks
  {
    CancelledEnds(s, OfKey(s, key));
    assert All(s, key, 0, 0, 0);
  }

  /** Cancelling an owner ends everything live of that owner. */
  lemma CancelEndsOwner(s: State, owner: string)
    requires Inv(s)
    ensures Ended(s, Step(s, CancelOwned(owner)), (i: nat) => i < |s.entries| && s.entries[i].key.owner == owner)
    ensures Step(s, CancelOwned(owner)).stopped == s.stopped
  {
    CancelledEnds(s, OfOwner(s, owner));
  }

  /** A shutdown ends everything live. */
  lemma ShutdownEndsAll(s: State)
    requires Inv(s) && !s.stopped
    ensures Ended(s, Step(s, Shutdown), (i: nat) => true) && Step(s, Shutdown).stopped
    ensures Step(s, Shutdown).callbacks == map[] && Step(s, Shutdown).running == {}
  {
    CancelledEnds(s, AllLive(s));
    ShutdownKeepsInv(s);
  }

  lemma CancelledEnds(s: State, which: set<nat>)
    requires Inv(s)
    requires forall i <- which :: i < |s.entries| && Live(s, i)
    ensures Ended(s, Cancelled(s, which), (i: nat) => i in which)
  {
    var t := Cancelled(s, which);
    forall i | 0 <= i < |s.entries|
      ensures Pending(t, i) == (Pending(s, i) && i !in which)
    {
    }
  }

  /** A new entry of a key, and nothing else. */
  predicate Appended(s: State, t: State, e: Entry) {
    && t.entries == s.entries + [e] && Pending(t, |s.entries|)
    && t.callbacks == s.callbacks[e.key := |s.entries|] && t.starts == s.starts && t.now == s.now && t.stopped == s.stopped
  }

  /** The first occurrence of a cron expression is pending, with a timer that is due by then. */
  lemma CronIsScheduled(s: State, key: Key, cron: CronFields, first: int)
    ensures var t := Step(s, ScheduleCron(key, cron, first));
      if s.stopped || IsBlank(key.id) || key in s.callbacks || !IsNext(cron, s.now, first) then t == s
      else
        && t.entries != s.entries && t.running == s.running
        && var e := t.entries[|s.entries|];
           && Appended(s, t, e) && e.key == key && e.cron == Some(cron) && e.runAt == first && !e.aborted && e.from.None?
           && e.timer.Some? && s.now <= e.timer.value <= first
  {
    hide IsBlank, Matches, WholeMinute;
    var t := Step(s, ScheduleCron(key, cron, first));
    if t != s {
      assert |t.entries| == |s.entries| + 1;
    }
  }

  /** Once its callback has settled, a cron entry is followed by its next occurrence; any other is over. */
  lemma SettledIsFollowed(s: State, j: nat, next: Option<int>)
    requires Inv(s)
    ensures var t := Step(s, Settle(j, next));
      && t.running == s.running - {j}
      && if Reruns(s, j, next) then
           && |t.entries| == |s.entries| + 1
           && var e := t.entries[|s.entries|];
              && Appended(s, t, e) && e.key == s.entries[j].key && e.cron == s.entries[j].cron && e.from == Some(j)
              && e.runAt == next.value && !e.aborted && e.timer.Some? && s.now <= e.timer.value <= next.value
         else t == s.(running := s.running - {j})
  {
    hide Matches, WholeMinute;
    LiveIsKnown(s, j);
  }

  /** A timer of an entry that is no longer pending only goes out. */
  lemma LateTimerIsIgnored(s: State, i: nat)
    requires Inv(s) && i < |s.entries| && !Pending(s, i)
    ensures var t := Step(s, Fire(i));
      t.entries == s.entries[i := s.entries[i].(timer := None)] && t == s.(entries := t.entries)
  {
  }

  /** A due entry leaves its key free while its callback runs. */
  lemma DueEntryStarts(s: State, i: nat)
    requires Inv(s) && Pending(s, i) && s.entries[i].runAt <= s.now
    ensures var t := Step(s, Fire(i));
      && !Pending(t, i) && s.entries[i].key !in t.callbacks && t.running == s.running + {i}
      && t.starts == s.starts + [Start(i, s.now)] && t.entries[i].timer.None?
      && forall other | 0 <= other < |s.entries| && other != i :: t.entries[other] == s.entries[other] && Pending(t, other) == Pending(s, other)
  {
    assert All(s, s.entries[i].key, i, 0, 0);
    forall other | 0 <= other < |s.entries| && other != i
      ensures Pending(Step(s, Fire(i)), other) == Pending(s, other)
    {
    }
  }
}
