/** The scheduler as an object that its operations and its timers change in place. */
module SchedulerCore {
  import opened Wrappers
  import opened Text
  import opened Cron
  import opened Scheduler

  class SchedulerCore {
    var entries: seq<Entry>
    var callbacks: map<Key, nat>
    var running: set<nat>
    var stopped: bool
    ghost var starts: seq<Start>

    /** The scheduler's state when the clock shows a time. */
    ghost function At(now: int): State
      reads this
    {
      State(entries, callbacks, running, stopped, now, starts)
    }

    /** Each key has an entry of its own. */
    ghost predicate Valid()
      reads this
    {
      && (forall k <- callbacks :: callbacks[k] < |entries| && entries[callbacks[k]].key == k)
      && (forall i <- running :: i < |entries|)
    }

    constructor ()
      ensures Valid() && At(0) == EMPTY
    {
      entries, callbacks, running, stopped, starts := [], map[], {}, false, [];
    }

    method Arm(i: nat, now: int)
      requires i < |entries|
      modifies this`entries
      ensures At(now) == WithTimer(old(At(now)), i, Some(Due(old(entries[i].runAt), now)))
    {
      var remaining := if entries[i].runAt - now > 0 then entries[i].runAt - now else 0;
      var delay := if remaining < MAX_TIMER_DELAY then remaining else MAX_TIMER_DELAY;
      entries := entries[i := entries[i].(timer := Some(now + delay))];
    }

    method Add(key: Key, cron: Option<CronFields>, runAt: int, from: Option<nat>, now: int)
      requires Valid()
      modifies this`entries, this`callbacks
      ensures Valid() && At(now) == Pend(old(At(now)), key, cron, runAt, from)
    {
      var i := |entries|;
      entries := entries + [Entry(key, cron, runAt, false, None, from)];
      callbacks := callbacks[key := i];
      Arm(i, now);
    }

    method Register(key: Key, cron: Option<CronFields>, runAt: int, now: int) returns (ok: bool)
      requires Valid()
      modifies this`entries, this`callbacks
      ensures Valid() && ok == Registrable(old(At(now)), key)
      ensures At(now) == if ok then Pend(old(At(now)), key, cron, runAt, None) else old(At(now))
    {
      if stopped || IsBlank(key.id) || key in callbacks {
        return false;
      }
      Add(key, cron, runAt, None, now);
      return true;
    }

    method ScheduleCron(key: Key, cron: CronFields, now: int) returns (ok: bool)
      requires Valid()
      modifies this`entries, this`callbacks
      ensures Valid()
      ensures if ok then exists first :: IsNext(cron, now, first) && Registrable(old(At(now)), key)
                                         && At(now) == Step(old(At(now)), Event.ScheduleCron(key, cron, first))
              else At(now) == old(At(now))
    {
      hide Occurrence;
      var first := NextCronOccurrence(cron, now);
      if first.Err? {
        return false;
      }
      assert IsNext(cron, now, first.value);
      ok := Register(key, Some(cron), first.value, now);
    }

    method CancelEntry(i: nat) returns (cancelled: bool)
      requires Valid() && i < |entries|
      modifies this`entries, this`callbacks, this`running
      ensures Valid() && At(0) == Cancelled(old(At(0)), {i})
      ensures cancelled == Live(old(At(0)), i)
    {
      var key := entries[i].key;
      var pending := key in callbacks && callbacks[key] == i;
      var wasRunning := i in running;
      running := running - {i};
      if pending {
        callbacks := callbacks - {key};
      }
      entries := entries[i := entries[i].(timer := None)];
      cancelled := pending || wasRunning;
      if cancelled {
        entries := entries[i := entries[i].(aborted := true)];
      }
      assert At(0).entries == Cancelled(old(At(0)), {i}).entries;
      assert At(0).callbacks == Cancelled(old(At(0)), {i}).callbacks;
    }

    /** Cancels entries one after the other. */
    method CancelAll(ids: set<nat>) returns (cancelled: bool)
      requires Valid() && forall i <- ids :: i < |entries|
      modifies this`entries, this`callbacks, this`running
      ensures Valid() && At(0) == Cancelled(old(At(0)), ids)
      ensures cancelled == exists i <- ids :: Live(old(At(0)), i)
    {
      cancelled := false;
      var rest := ids;
      CancelNone(At(0));
      while rest != {}
        invariant rest <= ids && Valid() && |entries| == old(|entries|)
        invariant At(0) == Cancelled(old(At(0)), ids - rest)
        invariant cancelled == exists i <- ids - rest :: Live(old(At(0)), i)
      {
        ghost var some := AnyMember(rest);
        var i: nat :| i in rest;
        CancelMore(old(At(0)), ids - rest, i);
        var done := CancelEntry(i);
        assert ids - (rest - {i}) == (ids - rest) + {i};
        cancelled := cancelled || done;
        rest := rest - {i};
      }
      assert ids - rest == ids;
    }

    /** The pending entry of the key, and then those still running under it. */
    method Cancel(key: Key) returns (cancelled: bool)
      requires Valid()
      modifies this`entries, this`callbacks, this`running
      ensures Valid() && At(0) == Step(old(At(0)), Event.Cancel(key))
      ensures cancelled == (OfKey(old(At(0)), key) != {})
    {
      ghost var before := At(0);
      var pending: set<nat> := if key in callbacks then {callbacks[key]} else {};
      var first := CancelAll(pending);
      var mine := set i <- running | entries[i].key == key;
      var second := CancelAll(mine);
      CancelledTwice(before, pending, mine);
      cancelled := first || second;
      assert pending + mine == OfKey(before, key);
    }

    method CancelOwned(owner: string)
      requires Valid()
      modifies this`entries, this`callbacks, this`running
      ensures Valid() && At(0) == Step(old(At(0)), Event.CancelOwned(owner))
    {
      ghost var before := At(0);
      var pending := set k <- callbacks | entries[callbacks[k]].key.owner == owner :: callbacks[k];
      var first := CancelAll(pending);
      var mine := set i <- running | entries[i].key.owner == owner;
      var second := CancelAll(mine);
      CancelledTwice(before, pending, mine);
      assert pending + mine == OfOwner(before, owner);
    }

    method Shutdown()
      requires Valid()
      modifies this`entries, this`callbacks, this`running, this`stopped
      ensures Valid() && At(0) == Step(old(At(0)), Event.Shutdown)
    {
      if stopped {
        return;
      }
      stopped := true;
      ghost var before := At(0).(stopped := false);
      var every := (set k <- callbacks :: callbacks[k]) + running;
      var cancelled := CancelAll(every);
      assert every == AllLive(before);
      assert Cancelled(before.(stopped := true), every) == Cancelled(before, every).(stopped := true) by {
        assert Cancelled(before.(stopped := true), every).entries == Cancelled(before, every).entries;
      }
    }

    /** The timer of an entry goes off; its callback is then started by what follows. */
    method OnTimer(i: nat, now: int)
      requires Valid() && i < |entries| && entries[i].timer.Some?
      modifies this`entries, this`callbacks, this`running, this`starts
      ensures Valid() && At(now) == Step(old(At(now)), Fire(i))
    {
      var key := entries[i].key;
      if key !in callbacks || callbacks[key] != i || entries[i].aborted {
        entries := entries[i := entries[i].(timer := None)];
        return;
      }
      if entries[i].runAt > now {
        Arm(i, now);
        return;
      }
      callbacks := callbacks - {key};
      entries := entries[i := entries[i].(timer := None)];
      running := running + {i};
      starts := starts + [Start(i, now)];
    }

    /** The callback has settled; a cron entry is followed by its next one, unless there is none or it was cancelled. */
    method OnSettled(i: nat, now: int) returns (next: Option<int>)
      requires Valid() && i < |entries| && (i in running || entries[i].aborted)
      modifies this`entries, this`callbacks, this`running
      ensures Valid() && At(now) == Step(old(At(now)), Settle(i, next))
      ensures next.None? && entries[i].cron.Some? && !stopped && !entries[i].aborted ==>
        forall t :: now < t <= now + WINDOW ==> !Occurrence(entries[i].cron.value, now, t)
    {
      hide Occurrence;
      running := running - {i};
      var entry := entries[i];
      if entry.cron.None? || stopped || entry.aborted {
        return None;
      }
      var found := NextCronOccurrence(entry.cron.value, now);
      if found.Err? {
        return None;
      }
      next := Some(found.value);
      assert IsNext(entry.cron.value, now, found.value);
      Add(entry.key, entry.cron, found.value, Some(i), now);
    }
  }

  lemma CancelNone(s: State)
    ensures Cancelled(s, {}) == s
  {
    assert Cancelled(s, {}).entries == s.entries;
    assert Cancelled(s, {}).callbacks == s.callbacks;
  }

  /** Cancelling in two goes is cancelling all at once. */
  lemma CancelledTwice(s: State, a: set<nat>, b: set<nat>)
    ensures Cancelled(Cancelled(s, a), b) == Cancelled(s, a + b)
  {
    var t, u := Cancelled(Cancelled(s, a), b), Cancelled(s, a + b);
    assert t.callbacks == u.callbacks;
    assert t.entries == u.entries;
  }

  lemma CancelMore(s: State, a: set<nat>, i: nat)
    requires i !in a
    ensures Cancelled(Cancelled(s, a), {i}) == Cancelled(s, a + {i})
    ensures Live(Cancelled(s, a), i) == Live(s, i)
  {
    CancelledTwice(s, a, {i});
  }
}
