/** What each operation on executions does, said of the stores before and after it, and where levels come from over whole runs. */
module ExecutionEffects {
  import opened Wrappers
  import opened Classification
  import opened Provenance
  import opened ExecutionSecurity
  import opened ExecutionInvariant
  import opened ExecutionRuns

  /** Nothing but these executions changes. */
  ghost predicate OnlyThese(s: State, t: State, ids: set<Id>) {
    && s.contexts.Keys <= t.contexts.Keys <= s.contexts.Keys + ids
    && forall id {:trigger Untouched(s, t, id)} | id in s.contexts && id !in ids :: Untouched(s, t, id)
  }

  predicate Untouched(s: State, t: State, id: Id) {
    id in s.contexts && id in t.contexts && t.contexts[id] == s.contexts[id] && HistoryOf(t, id) == HistoryOf(s, id)
  }

  predicate Taken(s: State, id: Id, owner: Plugin, subject: Subject) {
    id in s.contexts && s.contexts[id].owner == owner && s.contexts[id].subject == subject
  }

  /** A new execution: open, of that owner and subject, and so far it has heard of nothing but its own level. */
  predicate Fresh(s: State, t: State, id: Id, owner: Plugin, subject: Subject, flow: Flow, level: Level, source: Seed, stamp: Stamp) {
    && id !in s.contexts && id in t.contexts
    && var c, h := t.contexts[id], HistoryOf(t, id);
       && c.owner == owner && c.subject == subject && c.flow == flow && c.lifecycle.Open? && c.imported == []
       && c.level == level && c.revision == 1
       && |h| == 1 && h[0].level == level && h[0].source == source && h[0].stamp == stamp
  }

  lemma TakenIsFound(hash: Hash, s: State, id: Id, owner: Plugin, subject: Subject)
    requires Inv(hash, s) && Taken(s, id, owner, subject)
    ensures FindBySubject(s, owner, subject) == Ok(Some(s.contexts[id]))
    ensures s.contexts[id].id == id
  {
    assert Listed(s, id) && Placed(s, id);
  }

  lemma FreeIsNotFound(hash: Hash, s: State, owner: Plugin, subject: Subject)
    requires Inv(hash, s) && forall id :: !Taken(s, id, owner, subject)
    ensures FindBySubject(s, owner, subject) == Ok(None)
  {
    if (owner, subject) in s.subjects {
      assert Named(s, (owner, subject));
      assert Taken(s, s.subjects[(owner, subject)], owner, subject);
    }
  }

  lemma NextIsFree(hash: Hash, s: State)
    requires Inv(hash, s)
    ensures s.nextId !in s.contexts
  {
    forall id | id in s.contexts
      ensures id != s.nextId
    {
      assert Placed(s, id);
    }
  }

  /** A new root is what was asked for. */
  lemma RootAsAsked(hash: Hash, s: State, owner: Plugin, subject: Subject, level: Level, seed: Seed, flow: Flow, stamp: Stamp)
    requires Inv(hash, s) && forall id :: !Taken(s, id, owner, subject)
    ensures var (t, r) := BindRoot(s, owner, subject, level, seed, flow, stamp);
      && r.Ok? && Fresh(s, t, r.value, owner, subject, flow, level, seed, stamp)
      && t.contexts[r.value].parent.None? && t.contexts[r.value].root == r.value
      && OnlyThese(s, t, {r.value}) && t.grants == s.grants
  {
    FreeIsNotFound(hash, s, owner, subject);
    NextIsFree(hash, s);
  }

  /** A subject that is taken is only ever found again as it was bound. */
  lemma RootFoundExactly(hash: Hash, s: State, id: Id, owner: Plugin, subject: Subject, level: Level, seed: Seed, flow: Flow,
                         stamp: Stamp)
    requires Inv(hash, s) && Taken(s, id, owner, subject)
    ensures var (t, r) := BindRoot(s, owner, subject, level, seed, flow, stamp);
      && t == s
      && (if s.contexts[id].binding == RootBinding(level, seed) && s.contexts[id].flow == flow then r == Ok(id) else r == Err(SubjectTaken))
  {
    TakenIsFound(hash, s, id, owner, subject);
  }

  /** Who may bind a child with a grant: its grantee, once, while the grant lasts. */
  predicate MayBind(s: State, owner: Plugin, token: Token) {
    token in s.grants && !s.grants[token].used && s.grants[token].grantee == owner
  }

  /** A new child starts at the level that its parent has at that moment, below the parent and root of the grant. */
  lemma ChildStartsAtParentLevel(hash: Hash, s: State, owner: Plugin, subject: Subject, token: Token, flow: Flow, stamp: Stamp)
    requires Inv(hash, s) && MayBind(s, owner, token) && forall id :: !Taken(s, id, owner, subject)
    ensures s.grants[token].parent in s.contexts
    ensures var p := s.grants[token].parent;
      var (t, r) := BindChild(s, owner, subject, token, flow, stamp);
      && r.Ok? && Fresh(s, t, r.value, owner, subject, flow, s.contexts[p].level, Execution(p, Parent), stamp)
      && t.contexts[r.value].parent == Some(p) && t.contexts[r.value].root == s.contexts[p].root
      && OnlyThese(s, t, {r.value})
      && t.grants == s.grants[token := s.grants[token].(used := true)]
  {
    FreeIsNotFound(hash, s, owner, subject);
    NextIsFree(hash, s);
    assert Placed(s, s.grants[token].parent);
  }

  /** Otherwise a child is only found again as it was bound, which spends the grant as well, and the store stays as it is. */
  lemma ChildFoundExactly(hash: Hash, s: State, owner: Plugin, subject: Subject, token: Token, flow: Flow, stamp: Stamp)
    requires Inv(hash, s) && (!MayBind(s, owner, token) || exists id :: Taken(s, id, owner, subject))
    ensures var (t, r) := BindChild(s, owner, subject, token, flow, stamp);
      && (r.Ok? <==>
            && MayBind(s, owner, token)
            && exists id :: && Taken(s, id, owner, subject) && s.contexts[id].flow == flow
                            && s.contexts[id].parent == Some(s.grants[token].parent))
      && (r.Ok? ==> Taken(s, r.value, owner, subject) && t == s.(grants := s.grants[token := s.grants[token].(used := true)]))
      && (r.Err? ==> t == s)
  {
    if MayBind(s, owner, token) {
      var id :| Taken(s, id, owner, subject);
      TakenIsFound(hash, s, id, owner, subject);
      assert Placed(s, id) && Placed(s, s.grants[token].parent);
      forall other | Taken(s, other, owner, subject)
        ensures other == id
      {
        TakenIsFound(hash, s, other, owner, subject);
      }
    }
  }

  lemma GrantAsAsked(hash: Hash, s: State, parent: Id, grantee: Plugin)
    requires Inv(hash, s)
    ensures var (t, r) := CreateParentGrant(s, parent, grantee);
      && (r.Ok? <==> parent in s.contexts)
      && (r.Ok? ==> r.value !in s.grants && t.grants == s.grants[r.value := Grant(parent, grantee, false)])
      && OnlyThese(s, t, {})
  {
  }

  /** One execution has heard of one more level, and is classified as high as either. */
  predicate Hears(s: State, t: State, id: Id, level: Level, source: Seed, stamp: Stamp) {
    && id in s.contexts && id in t.contexts
    && var c, d, h, k := s.contexts[id], t.contexts[id], HistoryOf(s, id), HistoryOf(t, id);
       && SameIdentity(c, d) && d.lifecycle == c.lifecycle
       && Rank(d.level) == (if Rank(level) > Rank(c.level) then Rank(level) else Rank(c.level))
       && d.revision == c.revision + (if Rank(level) > Rank(c.level) then 1 else 0)
       && |k| == |h| + 1 && h <= k
       && k[|h|].level == level && k[|h|].source == source && k[|h|].stamp == stamp
  }

  /** The owner of an open execution, and nobody else, makes it hear an observation. */
  lemma ObserveExactly(hash: Hash, s: State, owner: Plugin, id: Id, o: Observation)
    ensures var (t, r) := Observe(hash, s, owner, id, o);
      && (r.Ok? <==> id in s.contexts && s.contexts[id].owner == owner && s.contexts[id].lifecycle.Open?)
      && (r.Ok? ==> Hears(s, t, id, o.level, o.source, o.stamp) && OnlyThese(s, t, {id}) && r.value == t.contexts[id])
      && (r.Ok? ==> t.contexts[id].imported == s.contexts[id].imported)
      && (r.Err? ==> t == s)
  {
    hide AppendObservation;
  }

  /** What closing an open execution does: it is closed as asked, and only a parent that it merges into hears of its level. */
  lemma CloseEffect(hash: Hash, s: State, owner: Plugin, id: Id, outcome: Outcome, reason: string, stamp: Stamp)
    requires Inv(hash, s) && id in s.contexts && s.contexts[id].lifecycle.Open?
    requires Close(hash, s, owner, id, outcome, reason, stamp).1.Ok?
    ensures var t := Close(hash, s, owner, id, outcome, reason, stamp).0;
      && id in t.contexts && t.contexts[id] == s.contexts[id].(lifecycle := Closed(outcome, reason))
      && HistoryOf(t, id) == HistoryOf(s, id)
      && if s.contexts[id].parent.Some? && s.contexts[id].flow.MergeToParent? then
           var p := s.contexts[id].parent.value;
           Hears(s, t, p, s.contexts[id].level, Execution(id, ChildResult), stamp) && OnlyThese(s, t, {id, p})
         else OnlyThese(s, t, {id})
  {
    hide AppendObservation;
    assert Placed(s, id);
  }

  /** When an import succeeds, and that the first one makes the parent hear of the result. */
  lemma ImportExactly(hash: Hash, s: State, owner: Plugin, p: Id, child: Id, stamp: Stamp)
    requires Inv(hash, s)
    ensures var (t, r) := ImportDetachedResult(hash, s, owner, p, child, stamp);
      && (r.Ok? <==>
            && p in s.contexts && s.contexts[p].owner == owner && s.contexts[p].lifecycle.Open?
            && child in s.contexts && s.contexts[child].parent == Some(p) && s.contexts[child].flow.Detached?
            && s.contexts[child].lifecycle.Closed?)
      && (r.Err? ==> t == s)
      && (r.Ok? && child in s.contexts[p].imported ==> t == s)
      && (r.Ok? && child !in s.contexts[p].imported ==>
            && Hears(s, t, p, s.contexts[child].level, Execution(child, ChildResult), stamp)
            && t.contexts[p].imported == s.contexts[p].imported + [child] && OnlyThese(s, t, {p}))
  {
    hide AppendObservation;
    if p in s.contexts {
      assert Placed(s, p) && Dominates(s.contexts, p);
    }
  }

  // ----- Where levels come from

  /** A root starts at the level it was bound with, a child at one that its parent had reached. */
  ghost predicate StartsRightly(s: State, id: Id) {
    id in s.contexts ==>
      && HistoryOf(s, id) != []
      && match s.contexts[id].binding
         case RootBinding(level, seed) => HistoryOf(s, id)[0].level == level && HistoryOf(s, id)[0].source == seed
         case ChildBinding(p, _) =>
           exists n: nat :: n <= |HistoryOf(s, p)| && HistoryOf(s, id)[0].level == HighWater(HistoryOf(s, p)[..n])
  }

  ghost predicate AllStartRightly(s: State) {
    forall id {:trigger StartsRightly(s, id)} :: StartsRightly(s, id)
  }

  lemma OldStartsRightly(s: State, t: State, id: Id)
    requires Later(s, t) && StartsRightly(s, id) && id in s.contexts
    requires s.contexts[id].binding.ChildBinding? ==> s.contexts[id].binding.parent in s.contexts
    ensures StartsRightly(t, id)
  {
    assert Continues(s, t, id);
    if s.contexts[id].binding.ChildBinding? {
      var p := s.contexts[id].binding.parent;
      assert Continues(s, t, p);
      var n: nat :| n <= |HistoryOf(s, p)| && HistoryOf(s, id)[0].level == HighWater(HistoryOf(s, p)[..n]);
      assert HistoryOf(t, p)[..n] == HistoryOf(s, p)[..n];
    }
  }

  lemma NewStartsRightly(hash: Hash, s: State, e: Event, id: Id)
    requires Inv(hash, s) && id !in s.contexts && id in Step(hash, s, e).contexts
    ensures StartsRightly(Step(hash, s, e), id)
  {
    hide Inv, HighWater, AppendObservation;
    match e
    case DoBindRoot(owner, subject, level, seed, flow, stamp) =>
      if forall other :: !Taken(s, other, owner, subject) {
        RootAsAsked(hash, s, owner, subject, level, seed, flow, stamp);
      } else {
        var other :| Taken(s, other, owner, subject);
        RootFoundExactly(hash, s, other, owner, subject, level, seed, flow, stamp);
      }
    case DoBindChild(owner, subject, token, flow, stamp) =>
      if MayBind(s, owner, token) && forall other :: !Taken(s, other, owner, subject) {
        ChildStartsAtParentLevel(hash, s, owner, subject, token, flow, stamp);
        NewChild(hash, s, owner, subject, token, flow, stamp);
      } else {
        ChildFoundExactly(hash, s, owner, subject, token, flow, stamp);
      }
    case _ =>
  }

  lemma NewChild(hash: Hash, s: State, owner: Plugin, subject: Subject, token: Token, flow: Flow, stamp: Stamp)
    requires Inv(hash, s) && MayBind(s, owner, token) && forall id :: !Taken(s, id, owner, subject)
    ensures var (t, r) := BindChild(s, owner, subject, token, flow, stamp); r.Ok? && StartsRightly(t, r.value)
  {
    ChildStartsAtParentLevel(hash, s, owner, subject, token, flow, stamp);
    var (t, r) := BindChild(s, owner, subject, token, flow, stamp);
    var p := s.grants[token].parent;
    StepKeepsInv(hash, s, DoBindChild(owner, subject, token, flow, stamp));
    assert Placed(t, r.value) && Untouched(s, t, p);
    assert FaithfulTo(hash, s.contexts[p], s.histories[p]);
    assert HistoryOf(t, p)[..|HistoryOf(t, p)|] == HistoryOf(s, p);
  }

  lemma {:induction false} RunsStartRightly(hash: Hash, s: State, events: seq<Event>)
    requires Inv(hash, s) && AllStartRightly(s)
    ensures AllStartRightly(Run(hash, s, events))
    decreases |events|
  {
    hide Inv, StartsRightly, Step;
    if events != [] {
      var t := Step(hash, s, events[0]);
      StepKeepsInv(hash, s, events[0]);
      StepIsLater(hash, s, events[0]);
      forall id
        ensures StartsRightly(t, id)
      {
        StartsAfterStep(hash, s, events[0], id);
      }
      RunsStartRightly(hash, t, events[1..]);
    }
  }

  lemma StartsAfterStep(hash: Hash, s: State, e: Event, id: Id)
    requires Inv(hash, s) && AllStartRightly(s)
    ensures StartsRightly(Step(hash, s, e), id)
  {
    hide Step, Faithful, Counted, Dominated, Indexed;
    if id in s.contexts {
      assert Placed(s, id) && StartsRightly(s, id);
      StepIsLater(hash, s, e);
      OldStartsRightly(s, Step(hash, s, e), id);
    } else if id in Step(hash, s, e).contexts {
      NewStartsRightly(hash, s, e, id);
    }
  }

  /** In every run from the empty store, with restarts. */
  lemma LevelsComeFromAbove(hash: Hash, events: seq<Event>, id: Id)
    requires id in Run(hash, EMPTY, events).contexts
    ensures StartsRightly(Run(hash, EMPTY, events), id)
  {
    EmptyInv(hash);
    RunsStartRightly(hash, EMPTY, events);
  }
}
