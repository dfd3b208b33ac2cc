/** What whole runs of executions keep, over any operations and restarts. */
module ExecutionRuns {
  import opened Wrappers
  import opened Classification
  import opened Provenance
  import opened ExecutionSecurity
  import opened ExecutionInvariant

  /** The parents of an execution, itself first. */
  ghost function Chain(s: State, id: Id): seq<Id>
    requires Forest(s) && id in s.contexts
    decreases id
  {
    assert Placed(s, id);
    match s.contexts[id].parent
    case None => [id]
    case Some(p) => [id] + Chain(s, p)
  }

  /** Parent chains are acyclic, stay in the store, and end at the recorded root. */
  lemma {:induction false} ChainEndsAtRoot(s: State, id: Id)
    requires Forest(s) && id in s.contexts
    ensures var chain := Chain(s, id);
      && chain[0] == id && chain[|chain| - 1] == s.contexts[id].root
      && (forall i :: 0 <= i < |chain| ==> chain[i] in s.contexts && s.contexts[chain[i]].root == s.contexts[id].root)
      && (forall i :: 0 <= i < |chain| - 1 ==> s.contexts[chain[i]].parent == Some(chain[i + 1]))
      && s.contexts[chain[|chain| - 1]].parent.None?
      && NoDuplicates(chain)
      && (forall i :: 0 < i < |chain| ==> chain[i] < id)
    decreases id
  {
    assert Placed(s, id);
    if s.contexts[id].parent.Some? {
      ChainEndsAtRoot(s, s.contexts[id].parent.value);
    }
  }

  /** One context now and later: the same execution, which may have heard more unless it was closed. */
  ghost predicate Continues(s: State, t: State, id: Id) {
    id in s.contexts ==>
      && id in t.contexts
      && SameIdentity(s.contexts[id], t.contexts[id])
      && HistoryOf(s, id) <= HistoryOf(t, id)
      && (s.contexts[id].lifecycle.Closed? ==>
            t.contexts[id] == s.contexts[id] && HistoryOf(t, id) == HistoryOf(s, id))
  }

  ghost predicate Later(s: State, t: State) {
    forall id {:trigger Continues(s, t, id)} :: Continues(s, t, id)
  }

  lemma LaterReflexive(s: State)
    ensures Later(s, s)
  {
    assert forall id :: Continues(s, s, id);
  }

  lemma LaterTransitive(s: State, m: State, t: State)
    requires Later(s, m) && Later(m, t)
    ensures Later(s, t)
  {
    forall id
      ensures Continues(s, t, id)
    {
      assert Continues(s, m, id) && Continues(m, t, id);
    }
  }

  lemma SameOwner(s: State, t: State, id: Id)
    requires Later(s, t) && id in s.contexts
    ensures id in t.contexts && t.contexts[id].owner == s.contexts[id].owner
  {
    assert Continues(s, t, id);
  }

  lemma ClosedStays(s: State, t: State, id: Id)
    requires Later(s, t) && id in s.contexts && s.contexts[id].lifecycle.Closed?
    ensures id in t.contexts && t.contexts[id] == s.contexts[id]
  {
    assert Continues(s, t, id);
  }

  lemma SameContextsAreLater(s: State, t: State, id: Id)
    requires t.contexts == s.contexts && t.histories == s.histories
    ensures Continues(s, t, id)
  {
  }

  lemma InsertedIsLater(s: State, c: Context, o: Observation, id: Id)
    requires Forest(s) && c.id == s.nextId
    ensures Continues(s, Inserted(s, c, o), id)
  {
    if id in s.contexts {
      assert Placed(s, id);
    }
  }

  lemma BindIsLater(hash: Hash, s: State, e: Event, id: Id)
    requires Forest(s) && (e.DoBindRoot? || e.DoBindChild?)
    ensures Continues(s, Step(hash, s, e), id)
  {
    hide AppendObservation, FindBySubject, Inserted, Placed;
    var t := Step(hash, s, e);
    if t != s && FindBySubject(s, e.owner, e.subject) == Ok(None) {
      if e.DoBindRoot? {
        var o := Observation(e.level, e.seed, "Execution root classification", e.stamp);
        InsertedIsLater(s, Context(s.nextId, s.nextId, RootBinding(e.level, e.seed), e.owner, e.subject, None, e.level, 1,
                                   Open, e.flow, Bounded([o], Complete), []), o, id);
      } else {
        var parent := s.contexts[s.grants[e.token].parent];
        var o := Observation(parent.level, Execution(parent.id, Parent), "Forked from parent execution", e.stamp);
        InsertedIsLater(s, Context(s.nextId, parent.root, ChildBinding(parent.id, parent.root), e.owner, e.subject,
                                   Some(parent.id), parent.level, 1, Open, e.flow, Bounded([o], Complete), []), o, id);
      }
    }
  }

  lemma ObserveKeepsIdentity(hash: Hash, c: Context, o: Observation)
    ensures SameIdentity(c, ObserveContext(hash, c, o))
  {
  }

  lemma ClosedIntoIsLater(hash: Hash, s: State, closing: Id, p: Id, lifecycle: Lifecycle, o: Observation, id: Id)
    requires closing in s.contexts && s.contexts[closing].lifecycle.Open? && p != closing
    requires p in s.contexts && s.contexts[p].lifecycle.Open?
    ensures Continues(s, ClosedInto(hash, s, closing, p, lifecycle, o), id)
  {
    hide ObserveContext;
    ObserveKeepsIdentity(hash, s.contexts[p], o);
  }

  lemma CloseIsLater(hash: Hash, s: State, owner: Plugin, closing: Id, outcome: Outcome, reason: string, stamp: Stamp, id: Id)
    requires Forest(s)
    ensures Continues(s, Close(hash, s, owner, closing, outcome, reason, stamp).0, id)
  {
    hide ClosedInto;
    if closing in s.contexts {
      assert Placed(s, closing);
      var c := s.contexts[closing];
      if c.lifecycle.Open? && c.parent.Some? && c.flow.MergeToParent? && s.contexts[c.parent.value].lifecycle.Open? {
        var o := Observation(c.level, Execution(closing, ChildResult), "Merged completed child execution", stamp);
        ClosedIntoIsLater(hash, s, closing, c.parent.value, Closed(outcome, reason), o, id);
      }
    }
  }

  lemma ObserveIsLater(hash: Hash, s: State, owner: Plugin, heard: Id, o: Observation, id: Id)
    ensures Continues(s, Observe(hash, s, owner, heard, o).0, id)
  {
    hide AppendObservation;
  }

  lemma ImportIsLater(hash: Hash, s: State, owner: Plugin, p: Id, child: Id, stamp: Stamp, id: Id)
    ensures Continues(s, ImportDetachedResult(hash, s, owner, p, child, stamp).0, id)
  {
    hide AppendObservation;
  }

  lemma StepIsLater(hash: Hash, s: State, e: Event)
    requires Inv(hash, s)
    ensures Later(s, Step(hash, s, e))
  {
    hide Faithful, Counted, Dominated, Indexed, BindRoot, BindChild, Close, Observe, ImportDetachedResult, Continues;
    forall id
      ensures Continues(s, Step(hash, s, e), id)
    {
      match e
      case DoObserve(owner, heard, o) => ObserveIsLater(hash, s, owner, heard, o, id);
      case DoClose(owner, closing, outcome, reason, stamp) =>
        CloseIsLater(hash, s, owner, closing, outcome, reason, stamp, id);
      case DoImport(owner, p, child, stamp) => ImportIsLater(hash, s, owner, p, child, stamp, id);
      case DoCreateGrant(_, _) => SameContextsAreLater(s, Step(hash, s, e), id);
      case Restart => SameContextsAreLater(s, Step(hash, s, e), id);
      case _ => BindIsLater(hash, s, e, id);
    }
  }

  /** Nothing is forgotten and nothing closed ever changes, over any run. */
  lemma {:induction false} RunIsLater(hash: Hash, s: State, events: seq<Event>)
    requires Inv(hash, s)
    ensures Later(s, Run(hash, s, events))
    decreases |events|
  {
    hide Step, Inv, Later;
    if events == [] {
      LaterReflexive(s);
    } else {
      var m := Step(hash, s, events[0]);
      StepKeepsInv(hash, s, events[0]);
      StepIsLater(hash, s, events[0]);
      RunIsLater(hash, m, events[1..]);
      LaterTransitive(s, m, Run(hash, s, events));
    }
  }

  /**
   * A revision read earlier and found unchanged later names the same level, so
   * an approval of the one is an approval of the other. There are never more
   * than four revisions.
   */
  lemma RevisionGuardsLevel(hash: Hash, s: State, t: State, id: Id)
    requires Inv(hash, s) && Inv(hash, t) && Later(s, t) && id in s.contexts
    ensures id in t.contexts
    ensures var c, d := s.contexts[id], t.contexts[id];
      && 1 <= c.revision <= d.revision <= 1 + MAX_RANK
      && Rank(c.level) <= Rank(d.level)
      && d.revision - c.revision <= Rank(d.level) - Rank(c.level)
      && (c.revision == d.revision <==> c.level == d.level)
  {
    assert Continues(s, t, id);
    assert FaithfulTo(hash, s.contexts[id], s.histories[id]);
    assert FaithfulTo(hash, t.contexts[id], t.histories[id]);
    RevisionIdentifiesLevel(s.histories[id], t.histories[id]);
    RecordsBounded(s.histories[id]);
    RecordsBounded(t.histories[id]);
  }

  /** How many binds of a run a grant paid for. */
  function Uses(hash: Hash, s: State, events: seq<Event>, token: Token): nat
    decreases |events|
  {
    if events == [] then 0
    else
      var e := events[0];
      (if e.DoBindChild? && e.token == token && BindChild(s, e.owner, e.subject, e.token, e.flow, e.stamp).1.Ok?
       then 1 else 0)
      + Uses(hash, Step(hash, s, e), events[1..], token)
  }

  /** A token that was issued and is spent, or was lost in a restart. */
  ghost predicate Dead(s: State, token: Token) {
    token < s.nextId && (token in s.grants ==> s.grants[token].used)
  }

  predicate KeepsGrant(s: State, t: State, token: Token) {
    && s.nextId <= t.nextId
    && (token in t.grants ==> token >= s.nextId || (token in s.grants && t.grants[token] == s.grants[token]))
  }

  lemma CloseKeepsGrant(hash: Hash, s: State, owner: Plugin, id: Id, outcome: Outcome, reason: string, stamp: Stamp, token: Token)
    ensures KeepsGrant(s, Close(hash, s, owner, id, outcome, reason, stamp).0, token)
  {
    hide ObserveContext, HistoryOf, ObservedBy;
  }

  lemma OthersKeepGrants(hash: Hash, s: State, e: Event, token: Token)
    requires !e.DoBindChild?
    ensures KeepsGrant(s, Step(hash, s, e), token)
  {
    hide FindBySubject, ObserveContext, HistoryOf, ObservedBy, BindChild, Close;
    if e.DoClose? {
      CloseKeepsGrant(hash, s, e.owner, e.id, e.outcome, e.reason, e.stamp, token);
    }
  }

  lemma BindSpendsGrant(s: State, owner: Plugin, subject: Subject, bound: Token, flow: Flow, stamp: Stamp, token: Token)
    requires GrantsRooted(s)
    ensures var (t, r) := BindChild(s, owner, subject, bound, flow, stamp);
      && (Dead(s, token) ==> Dead(t, token))
      && (r.Ok? && bound == token ==> !Dead(s, token) && Dead(t, token))
  {
    hide FindBySubject;
  }

  lemma StepSpendsGrant(hash: Hash, s: State, e: Event, token: Token)
    requires GrantsRooted(s)
    ensures Dead(s, token) ==> Uses(hash, s, [e], token) == 0 && Dead(Step(hash, s, e), token)
    ensures Uses(hash, s, [e], token) > 0 ==> Dead(Step(hash, s, e), token)
  {
    assert Uses(hash, Step(hash, s, e), [e][1..], token) == 0;
    if e.DoBindChild? {
      hide BindChild;
      BindSpendsGrant(s, e.owner, e.subject, e.token, e.flow, e.stamp, token);
    } else {
      hide Step;
      OthersKeepGrants(hash, s, e, token);
    }
  }

  /** A grant binds at most once, even across restarts, and a spent one never again. */
  lemma {:induction false} GrantBindsOnce(hash: Hash, s: State, events: seq<Event>, token: Token)
    requires Inv(hash, s)
    ensures Uses(hash, s, events, token) <= 1
    ensures Dead(s, token) ==> Uses(hash, s, events, token) == 0
    decreases |events|
  {
    if events != [] {
      var e, t := events[0], Step(hash, s, events[0]);
      StepKeepsInv(hash, s, e);
      GrantBindsOnce(hash, t, events[1..], token);
      StepSpendsGrant(hash, s, e, token);
      hide Step, Inv, BindChild, Dead;
      assert Uses(hash, s, events, token) == Uses(hash, s, [e], token) + Uses(hash, t, events[1..], token) by {
        assert Uses(hash, t, [e][1..], token) == 0;
      }
    }
  }

  /** Closing succeeds exactly when nothing stops it; a merging child needs its parent open. */
  lemma CloseSucceedsExactly(hash: Hash, s: State, owner: Plugin, id: Id, outcome: Outcome, reason: string, stamp: Stamp)
    requires Inv(hash, s)
    ensures var (t, r) := Close(hash, s, owner, id, outcome, reason, stamp);
      && (r.Ok? <==>
            && id in s.contexts && s.contexts[id].owner == owner
            && match s.contexts[id].lifecycle
               case Closed(o, _) => o == outcome
               case Open =>
                 s.contexts[id].flow.Detached? || s.contexts[id].parent.None?
                 || (var p := s.contexts[id].parent.value; p in s.contexts && s.contexts[p].lifecycle.Open?))
      && (r.Err? ==> t == s)
      // Closing again with the same outcome, at any time and for any reason, changes nothing.
      && (r.Ok? ==> forall reason', stamp' ::
            Close(hash, t, owner, id, outcome, reason', stamp') == (t, Ok(t.contexts[id])))
  {
    if id in s.contexts {
      assert Placed(s, id);
    }
  }

  /** Importing again changes nothing, so no result is counted twice. */
  lemma ImportIsIdempotent(hash: Hash, s: State, owner: Plugin, p: Id, child: Id, stamp: Stamp, again: Stamp)
    requires Inv(hash, s)
    requires ImportDetachedResult(hash, s, owner, p, child, stamp).1.Ok?
    ensures var t := ImportDetachedResult(hash, s, owner, p, child, stamp).0;
      && ImportDetachedResult(hash, t, owner, p, child, again) == (t, Ok(t.contexts[p]))
      && child in t.contexts && Rank(t.contexts[child].level) <= Rank(t.contexts[p].level)
  {
    var t := ImportDetachedResult(hash, s, owner, p, child, stamp).0;
    StepKeepsInv(hash, s, DoImport(owner, p, child, stamp));
    assert Placed(s, p) && Dominates(t.contexts, p);
  }

  lemma StrandedByStep(hash: Hash, s: State, id: Id, e: Event)
    requires Inv(hash, s) && id in s.contexts && s.contexts[id].lifecycle.Open? && s.contexts[id].flow.MergeToParent?
    requires s.contexts[id].parent.Some? && s.contexts[id].parent.value in s.contexts
    requires s.contexts[s.contexts[id].parent.value].lifecycle.Closed?
    ensures var t := Step(hash, s, e); id in t.contexts ==> t.contexts[id].lifecycle.Open?
  {
    hide Faithful, Counted, Dominated, Indexed, AppendObservation, FindBySubject;
    assert Placed(s, id);
  }

  /**
   * A child may be forked from a closed parent. When its result merges, that
   * child can never be closed: no run reaches a state in which it is.
   */
  lemma {:induction false} StrandedChildStaysOpen(hash: Hash, s: State, id: Id, events: seq<Event>)
    requires Inv(hash, s) && id in s.contexts && s.contexts[id].lifecycle.Open? && s.contexts[id].flow.MergeToParent?
    requires s.contexts[id].parent.Some? && s.contexts[id].parent.value in s.contexts
    requires s.contexts[s.contexts[id].parent.value].lifecycle.Closed?
    ensures var t := Run(hash, s, events); id in t.contexts && t.contexts[id].lifecycle.Open?
    decreases |events|
  {
    if events != [] {
      var t, p := Step(hash, s, events[0]), s.contexts[id].parent.value;
      StepKeepsInv(hash, s, events[0]);
      StepIsLater(hash, s, events[0]);
      assert Continues(s, t, id) && Continues(s, t, p);
      StrandedByStep(hash, s, id, events[0]);
      hide Inv, Step;
      StrandedChildStaysOpen(hash, t, id, events[1..]);
    }
  }

  /** A root, a grant for a merging child of it, and then its closing: before or after the child is bound. */
  function Stranding(owner: Plugin, root: Subject, child: Subject, stamp: Stamp, closeFirst: bool): seq<Event> {
    var close, bind := DoClose(owner, 0, Completed, "", stamp), DoBindChild(owner, child, 1, MergeToParent, stamp);
    [DoBindRoot(owner, root, Public, User(""), MergeToParent, stamp), DoCreateGrant(0, owner)]
    + if closeFirst then [close, bind] else [bind, close]
  }

  lemma {:induction false} RunInTwo(hash: Hash, s: State, events: seq<Event>, more: seq<Event>)
    ensures Run(hash, s, events + more) == Run(hash, Run(hash, s, events), more)
    decreases |events|
  {
    hide Step;
    if events == [] {
      assert events + more == more;
    } else {
      RunInTwo(hash, Step(hash, s, events[0]), events[1..], more);
      assert (events + more)[0] == events[0] && (events + more)[1..] == events[1..] + more;
    }
  }

  lemma RunOfTwo(hash: Hash, s: State, a: Event, b: Event)
    ensures Run(hash, s, [a, b]) == Step(hash, Step(hash, s, a), b)
  {
    hide Step;
    assert [a, b][1..] == [b] && [b][1..] == [];
    assert Run(hash, Step(hash, s, a), [b]) == Run(hash, Step(hash, Step(hash, s, a), b), []);
  }

  lemma StrandingRun(hash: Hash, owner: Plugin, root: Subject, child: Subject, stamp: Stamp, closeFirst: bool)
    requires root != child
    ensures var s := Run(hash, EMPTY, Stranding(owner, root, child, stamp, closeFirst));
      && 0 in s.contexts && s.contexts[0].lifecycle.Closed? && 2 in s.contexts && s.contexts[2].lifecycle.Open?
      && s.contexts[2].parent == Some(0) && s.contexts[2].flow.MergeToParent?
  {
    hide Run;
    var events := Stranding(owner, root, child, stamp, closeFirst);
    assert events == [events[0], events[1]] + [events[2], events[3]];
    RunInTwo(hash, EMPTY, [events[0], events[1]], [events[2], events[3]]);
    RunOfTwo(hash, EMPTY, events[0], events[1]);
    var t := Step(hash, Step(hash, EMPTY, events[0]), events[1]);
    RunOfTwo(hash, t, events[2], events[3]);
    assert 0 in t.contexts && t.contexts[0].lifecycle.Open? && t.contexts[0].owner == owner && t.contexts[0].parent.None?;
    assert 1 in t.grants && t.grants[1] == Grant(0, owner, false) && (owner, child) !in t.subjects && t.nextId == 2;
  }

  /** It happens in runs from the empty store, in either order, and no further events close the child. */
  lemma ChildIsStranded(hash: Hash, owner: Plugin, root: Subject, child: Subject, stamp: Stamp, closeFirst: bool, more: seq<Event>)
    requires root != child
    ensures var t := Run(hash, EMPTY, Stranding(owner, root, child, stamp, closeFirst) + more);
      2 in t.contexts && t.contexts[2].lifecycle.Open?
  {
    hide Inv, Stranding, Run;
    var events := Stranding(owner, root, child, stamp, closeFirst);
    StrandingRun(hash, owner, root, child, stamp, closeFirst);
    EmptyInv(hash);
    ReachableInv(hash, EMPTY, events);
    StrandedChildStaysOpen(hash, Run(hash, EMPTY, events), 2, more);
    RunInTwo(hash, EMPTY, events, more);
  }
}
