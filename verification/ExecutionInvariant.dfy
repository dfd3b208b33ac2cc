/**
 * What every reachable store of executions satisfies: a forest with an exact
 * subject index, in which each context is what its whole history determines.
 */
module ExecutionInvariant {
  import opened Wrappers
  import opened Classification
  import opened Provenance
  import opened ExecutionSecurity

  // ----- Meaning of a history

  /** The highest level ever observed. */
  function HighWater(history: seq<Observation>): Level {
    if history == [] then Public else Join(HighWater(history[..|history| - 1]), history[|history| - 1].level)
  }

  /** One for the first observation, and one for every later one that beat all before it. */
  function Records(history: seq<Observation>): nat {
    if |history| <= 1 then |history|
    else
      var before := history[..|history| - 1];
      Records(before) + (if Rank(history[|history| - 1].level) > Rank(HighWater(before)) then 1 else 0)
  }

  lemma {:induction false} RecordsBounded(history: seq<Observation>)
    requires history != []
    ensures 1 <= Records(history) <= 1 + Rank(HighWater(history)) - Rank(history[0].level)
  {
    if |history| == 1 {
      assert HighWater(history[..0]) == Public;
    } else {
      RecordsBounded(history[..|history| - 1]);
    }
  }

  /** Between two points of one history the level moves exactly when the revision does. */
  lemma {:induction false} RevisionIdentifiesLevel(earlier: seq<Observation>, later: seq<Observation>)
    requires earlier != [] && earlier <= later
    ensures Records(earlier) <= Records(later) && Rank(HighWater(earlier)) <= Rank(HighWater(later))
    ensures Records(later) - Records(earlier) <= Rank(HighWater(later)) - Rank(HighWater(earlier))
    ensures Records(earlier) == Records(later) <==> HighWater(earlier) == HighWater(later)
    decreases |later|
  {
    if |earlier| < |later| {
      var before := later[..|later| - 1];
      assert earlier <= before;
      RevisionIdentifiesLevel(earlier, before);
    } else {
      assert earlier == later;
    }
  }

  // ----- What every reachable state satisfies

  /** A root is its own root; a child hangs below an older context with the same root. */
  ghost predicate Placed(s: State, id: Id)
    requires id in s.contexts
  {
    var c := s.contexts[id];
    && c.id == id < s.nextId
    && match c.parent
       case None => c.root == id && c.binding.RootBinding?
       case Some(p) =>
         && p < id && p in s.contexts && s.contexts[p].root == c.root
         && c.binding == ChildBinding(p, c.root)
  }

  ghost predicate Forest(s: State) {
    forall id {:trigger Placed(s, id)} :: id in s.contexts ==> Placed(s, id)
  }

  ghost predicate Listed(s: State, id: Id)
    requires id in s.contexts
  {
    Key(s.contexts[id]) in s.subjects && s.subjects[Key(s.contexts[id])] == id
  }

  ghost predicate Named(s: State, key: (Plugin, Subject))
    requires key in s.subjects
  {
    s.subjects[key] in s.contexts && Key(s.contexts[s.subjects[key]]) == key
  }

  /** The index and the contexts name each other, so a subject has one context. */
  ghost predicate Indexed(s: State) {
    && (forall id {:trigger Listed(s, id)} :: id in s.contexts ==> Listed(s, id))
    && (forall key {:trigger Named(s, key)} :: key in s.subjects ==> Named(s, key))
  }

  /** Every derived field of a context is the one its whole history determines. */
  ghost predicate FaithfulTo(hash: Hash, c: Context, history: seq<Observation>) {
    && history != []
    && c.level == HighWater(history)
    && c.revision == Records(history)
    && Refines(hash, c.provenance, history)
  }

  ghost predicate Faithful(hash: Hash, s: State) {
    && s.histories.Keys == s.observed.Keys == s.contexts.Keys
    && forall id {:trigger FaithfulTo(hash, s.contexts[id], s.histories[id])} :: id in s.contexts ==>
         FaithfulTo(hash, s.contexts[id], s.histories[id])
  }

  predicate MergedChild(contexts: map<Id, Context>, parent: Id, child: Id) {
    && child in contexts
    && contexts[child].parent == Some(parent)
    && contexts[child].flow.MergeToParent?
    && contexts[child].lifecycle.Closed?
  }

  predicate DetachedResult(contexts: map<Id, Context>, parent: Id, child: Id) {
    && child in contexts
    && contexts[child].parent == Some(parent)
    && contexts[child].flow.Detached?
    && contexts[child].lifecycle.Closed?
  }

  function MergedChildren(contexts: map<Id, Context>, parent: Id): set<Id> {
    set child <- contexts | MergedChild(contexts, parent, child)
  }

  /** No result flowed back to a parent that is classified below it. */
  ghost predicate Dominates(contexts: map<Id, Context>, parent: Id)
    requires parent in contexts
  {
    && (forall child :: MergedChild(contexts, parent, child) ==>
          Rank(contexts[child].level) <= Rank(contexts[parent].level))
    && (forall child :: child in contexts[parent].imported ==>
          && DetachedResult(contexts, parent, child)
          && Rank(contexts[child].level) <= Rank(contexts[parent].level))
  }

  ghost predicate Dominated(s: State) {
    forall parent {:trigger Dominates(s.contexts, parent)} :: parent in s.contexts ==> Dominates(s.contexts, parent)
  }

  ghost predicate NoDuplicates<T>(xs: seq<T>) {
    forall i, j :: 0 <= i < j < |xs| ==> xs[i] != xs[j]
  }

  /** It heard of itself once, of each observation once, and of each child result once. */
  ghost predicate CountedAt(s: State, id: Id)
    requires id in s.contexts && id in s.histories && id in s.observed
  {
    && NoDuplicates(s.contexts[id].imported)
    && |s.histories[id]| == 1 + s.observed[id] + |MergedChildren(s.contexts, id)| + |s.contexts[id].imported|
  }

  ghost predicate Counted(s: State) {
    && s.histories.Keys == s.observed.Keys == s.contexts.Keys
    && forall id {:trigger CountedAt(s, id)} :: id in s.contexts ==> CountedAt(s, id)
  }

  ghost predicate GrantsRooted(s: State) {
    forall token <- s.grants :: token < s.nextId && s.grants[token].parent in s.contexts
  }

  ghost predicate Inv(hash: Hash, s: State) {
    Forest(s) && Indexed(s) && Faithful(hash, s) && Dominated(s) && Counted(s) && GrantsRooted(s)
  }

  // ----- One step keeps all of it

  predicate SameIdentity(c: Context, d: Context) {
    && d.id == c.id && d.root == c.root && d.binding == c.binding && d.owner == c.owner
    && d.subject == c.subject && d.parent == c.parent && d.flow == c.flow
  }

  /** t has the contexts of s, some of them with new levels, lifecycles or records. */
  ghost predicate Relabelled(s: State, t: State) {
    && t.subjects == s.subjects && t.nextId == s.nextId && t.grants == s.grants
    && t.contexts.Keys == s.contexts.Keys
    && forall id {:trigger SameIdentity(s.contexts[id], t.contexts[id])} :: id in s.contexts ==>
         SameIdentity(s.contexts[id], t.contexts[id])
  }

  lemma RelabelledKeepsTree(s: State, t: State)
    requires Forest(s) && Indexed(s) && GrantsRooted(s) && Relabelled(s, t)
    ensures Forest(t) && Indexed(t) && GrantsRooted(t)
  {
    forall id | id in t.contexts
      ensures Placed(t, id)
    {
      assert Placed(s, id) && SameIdentity(s.contexts[id], t.contexts[id]);
      if s.contexts[id].parent.Some? {
        assert SameIdentity(s.contexts[s.contexts[id].parent.value], t.contexts[s.contexts[id].parent.value]);
      }
    }
    forall id | id in t.contexts
      ensures Listed(t, id)
    {
      assert Listed(s, id) && SameIdentity(s.contexts[id], t.contexts[id]);
    }
    forall key | key in t.subjects
      ensures Named(t, key)
    {
      assert Named(s, key) && SameIdentity(s.contexts[s.subjects[key]], t.contexts[s.subjects[key]]);
    }
  }

  lemma ObserveKeepsFaithful(hash: Hash, c: Context, h: seq<Observation>, o: Observation)
    requires FaithfulTo(hash, c, h)
    ensures FaithfulTo(hash, ObserveContext(hash, c, o), h + [o])
  {
    AppendRefines(hash, c.provenance, h, o);
    assert (h + [o])[..|h|] == h;
  }

  predicate SameRecord(c: Context, d: Context) {
    d.level == c.level && d.revision == c.revision && d.provenance == c.provenance
  }

  /** p heard o, and nobody else heard anything. */
  ghost predicate Heard(hash: Hash, s: State, t: State, p: Id, o: Observation) {
    && p in s.contexts && p in s.histories
    && t.contexts.Keys == s.contexts.Keys && t.observed.Keys == s.observed.Keys
    && t.histories == s.histories[p := s.histories[p] + [o]]
    && SameRecord(ObserveContext(hash, s.contexts[p], o), t.contexts[p])
    && forall id {:trigger t.contexts[id]} :: id in s.contexts && id != p ==>
         SameRecord(s.contexts[id], t.contexts[id])
  }

  lemma FaithfulToFields(hash: Hash, c: Context, d: Context, history: seq<Observation>)
    requires FaithfulTo(hash, c, history) && SameRecord(c, d)
    ensures FaithfulTo(hash, d, history)
  {
  }

  lemma HeardKeepsFaithful(hash: Hash, s: State, t: State, p: Id, o: Observation)
    requires Faithful(hash, s) && Heard(hash, s, t, p, o)
    ensures Faithful(hash, t)
  {
    hide FaithfulTo, ObserveContext;
    ObserveKeepsFaithful(hash, s.contexts[p], s.histories[p], o);
    FaithfulToFields(hash, ObserveContext(hash, s.contexts[p], o), t.contexts[p], t.histories[p]);
    forall id | id in t.contexts
      ensures FaithfulTo(hash, t.contexts[id], t.histories[id])
    {
      if id != p {
        FaithfulToFields(hash, s.contexts[id], t.contexts[id], s.histories[id]);
      }
    }
  }

  lemma FirstObservation(hash: Hash, o: Observation)
    ensures HighWater([o]) == o.level && Records([o]) == 1 && Refines(hash, Bounded([o], Complete), [o])
  {
    assert HighWater([o][..0]) == Public;
    assert [o][0..] == [o];
  }

  /** A context that a bind may add: new, open, and hanging below an existing one if below any. */
  ghost predicate Fits(s: State, c: Context, o: Observation) {
    && c.id == s.nextId && Key(c) !in s.subjects
    && c.level == o.level && c.revision == 1 && c.lifecycle.Open? && c.imported == []
    && c.provenance == Bounded([o], Complete)
    && match c.parent
       case None => c.root == c.id && c.binding.RootBinding?
       case Some(p) => p in s.contexts && c.root == s.contexts[p].root && c.binding == ChildBinding(p, c.root)
  }

  lemma InsertedKeepsTree(s: State, c: Context, o: Observation)
    requires Forest(s) && Indexed(s) && GrantsRooted(s) && Fits(s, c, o)
    ensures var t := Inserted(s, c, o); Forest(t) && Indexed(t) && GrantsRooted(t)
  {
    var t := Inserted(s, c, o);
    forall id | id in t.contexts
      ensures id != c.id ==> id in s.contexts && id < s.nextId
      ensures Placed(t, id)
    {
      if id != c.id {
        assert Placed(s, id);
      } else if c.parent.Some? {
        assert Placed(s, c.parent.value);
      }
    }
    forall id | id in t.contexts
      ensures Listed(t, id)
    {
      if id != c.id {
        assert Listed(s, id);
      }
    }
    forall key | key in t.subjects
      ensures Named(t, key)
    {
      if key != Key(c) {
        assert Named(s, key) && Placed(s, s.subjects[key]);
      }
    }
  }

  lemma InsertedKeepsFlow(s: State, c: Context, o: Observation)
    requires Forest(s) && Dominated(s) && Fits(s, c, o)
    ensures Dominated(Inserted(s, c, o))
    ensures forall id <- s.contexts ::
      MergedChildren(Inserted(s, c, o).contexts, id) == MergedChildren(s.contexts, id)
    ensures MergedChildren(Inserted(s, c, o).contexts, c.id) == {}
  {
    var t := Inserted(s, c, o);
    forall id | id in s.contexts
      ensures id != c.id && s.contexts[id].parent != Some(c.id)
    {
      assert Placed(s, id);
    }
    forall parent, child
      ensures MergedChild(t.contexts, parent, child) <==> MergedChild(s.contexts, parent, child)
      ensures DetachedResult(t.contexts, parent, child) <==> DetachedResult(s.contexts, parent, child)
    {
    }
    forall parent | parent in t.contexts
      ensures Dominates(t.contexts, parent)
    {
      if parent != c.id {
        assert Dominates(s.contexts, parent);
      }
    }
  }

  lemma InsertedKeepsRecords(hash: Hash, s: State, c: Context, o: Observation)
    requires Forest(s) && Faithful(hash, s) && Dominated(s) && Counted(s) && Fits(s, c, o)
    ensures Faithful(hash, Inserted(s, c, o)) && Counted(Inserted(s, c, o))
  {
    var t := Inserted(s, c, o);
    FirstObservation(hash, o);
    InsertedKeepsFlow(s, c, o);
    forall id <- t.contexts
      ensures FaithfulTo(hash, t.contexts[id], t.histories[id]) && CountedAt(t, id)
    {
      if id != c.id {
        assert FaithfulTo(hash, s.contexts[id], s.histories[id]) && CountedAt(s, id);
      }
    }
  }

  lemma InsertedKeepsInv(hash: Hash, s: State, c: Context, o: Observation)
    requires Inv(hash, s) && Fits(s, c, o)
    ensures Inv(hash, Inserted(s, c, o))
  {
    InsertedKeepsTree(s, c, o);
    InsertedKeepsFlow(s, c, o);
    InsertedKeepsRecords(hash, s, c, o);
  }

  lemma GrantChangeKeepsInv(hash: Hash, s: State, grants: map<Token, Grant>, nextId: nat)
    requires Inv(hash, s) && s.nextId <= nextId
    requires forall token <- grants :: token < nextId && grants[token].parent in s.contexts
    ensures Inv(hash, s.(grants := grants, nextId := nextId))
  {
    var t := s.(grants := grants, nextId := nextId);
    forall id | id in t.contexts
      ensures Placed(t, id) && Listed(t, id)
      ensures FaithfulTo(hash, t.contexts[id], t.histories[id]) && CountedAt(t, id)
    {
      assert Placed(s, id) && Listed(s, id);
      assert FaithfulTo(hash, s.contexts[id], s.histories[id]) && CountedAt(s, id);
      assert Dominates(s.contexts, id);
    }
    forall key | key in t.subjects
      ensures Named(t, key)
    {
      assert Named(s, key);
    }
  }

  /** What a change of one open context does to the results that flowed into parents. */
  lemma ObserveKeepsFlow(hash: Hash, s: State, id: Id, o: Observation)
    requires Dominated(s) && s.histories.Keys == s.observed.Keys == s.contexts.Keys
    requires id in s.contexts && s.contexts[id].lifecycle.Open?
    ensures Dominated(Recorded(hash, s, id, o))
    ensures forall p :: MergedChildren(Recorded(hash, s, id, o).contexts, p) == MergedChildren(s.contexts, p)
  {
    var t := Recorded(hash, s, id, o);
    forall parent, child
      ensures MergedChild(t.contexts, parent, child) <==> MergedChild(s.contexts, parent, child)
      ensures DetachedResult(t.contexts, parent, child) <==> DetachedResult(s.contexts, parent, child)
    {
    }
    forall parent | parent in t.contexts
      ensures Dominates(t.contexts, parent)
    {
      assert Dominates(s.contexts, parent);
    }
  }

  lemma ObserveKeepsInv(hash: Hash, s: State, id: Id, o: Observation)
    requires Inv(hash, s) && id in s.contexts && s.contexts[id].lifecycle.Open?
    ensures Inv(hash, Recorded(hash, s, id, o))
  {
    hide FaithfulTo;
    var t := Recorded(hash, s, id, o);
    RelabelledKeepsTree(s, t);
    ObserveKeepsFlow(hash, s, id, o);
    HeardKeepsFaithful(hash, s, t, id, o);
    forall other | other in t.contexts
      ensures CountedAt(t, other)
    {
      assert CountedAt(s, other);
    }
  }

  /** Closing a root or a detached child tells nobody. */
  lemma CloseAloneKeepsFlow(s: State, id: Id, lifecycle: Lifecycle)
    requires Dominated(s) && id in s.contexts && s.contexts[id].lifecycle.Open? && lifecycle.Closed?
    requires s.contexts[id].parent.None? || s.contexts[id].flow.Detached?
    ensures Dominated(ClosedAlone(s, id, lifecycle))
    ensures forall p :: MergedChildren(ClosedAlone(s, id, lifecycle).contexts, p) == MergedChildren(s.contexts, p)
  {
    var t := ClosedAlone(s, id, lifecycle);
    forall parent, child
      ensures MergedChild(t.contexts, parent, child) <==> MergedChild(s.contexts, parent, child)
      ensures DetachedResult(s.contexts, parent, child) ==> DetachedResult(t.contexts, parent, child)
    {
    }
    forall parent | parent in t.contexts
      ensures Dominates(t.contexts, parent)
    {
      assert Dominates(s.contexts, parent);
    }
  }

  lemma CloseAloneKeepsInv(hash: Hash, s: State, id: Id, lifecycle: Lifecycle)
    requires Inv(hash, s) && id in s.contexts && s.contexts[id].lifecycle.Open? && lifecycle.Closed?
    requires s.contexts[id].parent.None? || s.contexts[id].flow.Detached?
    ensures Inv(hash, ClosedAlone(s, id, lifecycle))
  {
    var t := ClosedAlone(s, id, lifecycle);
    RelabelledKeepsTree(s, t);
    CloseAloneKeepsFlow(s, id, lifecycle);
    forall other | other in t.contexts
      ensures FaithfulTo(hash, t.contexts[other], t.histories[other]) && CountedAt(t, other)
    {
      assert FaithfulTo(hash, s.contexts[other], s.histories[other]) && CountedAt(s, other);
    }
  }

  /** An open child that merges into its open parent. */
  ghost predicate Mergeable(s: State, id: Id, p: Id) {
    && id in s.contexts && s.contexts[id].lifecycle.Open?
    && s.contexts[id].parent == Some(p) && s.contexts[id].flow.MergeToParent?
    && p in s.contexts && s.contexts[p].lifecycle.Open? && p != id
  }

  lemma CloseIntoKeepsFlow(hash: Hash, s: State, id: Id, p: Id, lifecycle: Lifecycle, o: Observation)
    requires Dominated(s) && s.histories.Keys == s.contexts.Keys && Mergeable(s, id, p)
    requires lifecycle.Closed? && o.level == s.contexts[id].level
    ensures Dominated(ClosedInto(hash, s, id, p, lifecycle, o))
    ensures var t := ClosedInto(hash, s, id, p, lifecycle, o);
      forall q :: MergedChildren(t.contexts, q) == MergedChildren(s.contexts, q) + (if q == p then {id} else {})
    ensures id !in MergedChildren(s.contexts, p)
  {
    var t := ClosedInto(hash, s, id, p, lifecycle, o);
    forall parent, child
      ensures MergedChild(t.contexts, parent, child)
        <==> MergedChild(s.contexts, parent, child) || (parent == p && child == id)
      ensures DetachedResult(t.contexts, parent, child) <==> DetachedResult(s.contexts, parent, child)
    {
    }
    forall parent | parent in t.contexts
      ensures Dominates(t.contexts, parent)
    {
      assert Dominates(s.contexts, parent);
    }
  }

  lemma CloseIntoKeepsCounted(hash: Hash, s: State, id: Id, p: Id, lifecycle: Lifecycle, o: Observation)
    requires Dominated(s) && Counted(s) && Mergeable(s, id, p)
    requires lifecycle.Closed? && o.level == s.contexts[id].level
    ensures Counted(ClosedInto(hash, s, id, p, lifecycle, o))
  {
    hide MergedChildren, Dominated, AppendObservation;
    var t := ClosedInto(hash, s, id, p, lifecycle, o);
    CloseIntoKeepsFlow(hash, s, id, p, lifecycle, o);
    forall other | other in t.contexts
      ensures CountedAt(t, other)
    {
      assert CountedAt(s, other);
    }
  }

  lemma CloseIntoKeepsInv(hash: Hash, s: State, id: Id, p: Id, lifecycle: Lifecycle, o: Observation)
    requires Inv(hash, s) && Mergeable(s, id, p) && lifecycle.Closed? && o.level == s.contexts[id].level
    ensures Inv(hash, ClosedInto(hash, s, id, p, lifecycle, o))
  {
    hide FaithfulTo, CountedAt;
    var t := ClosedInto(hash, s, id, p, lifecycle, o);
    RelabelledKeepsTree(s, t);
    CloseIntoKeepsFlow(hash, s, id, p, lifecycle, o);
    CloseIntoKeepsCounted(hash, s, id, p, lifecycle, o);
    HeardKeepsFaithful(hash, s, t, p, o);
  }

  /** A closed detached child whose result its open parent has not taken yet. */
  ghost predicate Importable(s: State, p: Id, child: Id) {
    && p in s.contexts && s.contexts[p].lifecycle.Open?
    && child !in s.contexts[p].imported && DetachedResult(s.contexts, p, child)
  }

  lemma ImportKeepsFlow(hash: Hash, s: State, p: Id, child: Id, o: Observation)
    requires Dominated(s) && s.histories.Keys == s.contexts.Keys && Importable(s, p, child)
    requires o.level == s.contexts[child].level
    ensures Dominated(Imported(hash, s, p, child, o))
    ensures forall q :: MergedChildren(Imported(hash, s, p, child, o).contexts, q) == MergedChildren(s.contexts, q)
  {
    var t := Imported(hash, s, p, child, o);
    forall parent, c
      ensures MergedChild(t.contexts, parent, c) <==> MergedChild(s.contexts, parent, c)
      ensures DetachedResult(t.contexts, parent, c) <==> DetachedResult(s.contexts, parent, c)
    {
    }
    forall parent | parent in t.contexts
      ensures Dominates(t.contexts, parent)
    {
      assert Dominates(s.contexts, parent);
    }
  }

  lemma ImportKeepsInv(hash: Hash, s: State, p: Id, child: Id, o: Observation)
    requires Inv(hash, s) && Importable(s, p, child) && o.level == s.contexts[child].level
    ensures Inv(hash, Imported(hash, s, p, child, o))
  {
    hide FaithfulTo;
    var t := Imported(hash, s, p, child, o);
    RelabelledKeepsTree(s, t);
    ImportKeepsFlow(hash, s, p, child, o);
    HeardKeepsFaithful(hash, s, t, p, o);
    forall other | other in t.contexts
      ensures CountedAt(t, other)
    {
      assert CountedAt(s, other);
    }
  }

  lemma BindRootKeepsInv(hash: Hash, s: State, owner: Plugin, subject: Subject, level: Level, seed: Seed, flow: Flow,
                         stamp: Stamp)
    requires Inv(hash, s)
    ensures Inv(hash, BindRoot(s, owner, subject, level, seed, flow, stamp).0)
  {
    hide Inv;
    if FindBySubject(s, owner, subject) == Ok(None) {
      var o := Observation(level, seed, "Execution root classification", stamp);
      var c := Context(s.nextId, s.nextId, RootBinding(level, seed), owner, subject, None, level, 1, Open, flow,
                       Bounded([o], Complete), []);
      assert BindRoot(s, owner, subject, level, seed, flow, stamp).0 == Inserted(s, c, o);
      InsertedKeepsInv(hash, s, c, o);
    }
  }

  /** The lookup by subject never finds an inconsistent index, and finds the one context there is. */
  lemma FindBySubjectExact(hash: Hash, s: State, owner: Plugin, subject: Subject)
    requires Inv(hash, s)
    ensures FindBySubject(s, owner, subject).Ok?
    ensures forall id <- s.contexts ::
      FindBySubject(s, owner, subject) == Ok(Some(s.contexts[id])) <==> Key(s.contexts[id]) == (owner, subject)
  {
    if (owner, subject) in s.subjects {
      assert Named(s, (owner, subject)) && Placed(s, s.subjects[(owner, subject)]);
    }
    forall id | id in s.contexts
      ensures Listed(s, id) && Placed(s, id)
    {
    }
  }

  lemma BindChildKeepsInv(hash: Hash, s: State, owner: Plugin, subject: Subject, token: Token, flow: Flow, stamp: Stamp)
    requires Inv(hash, s)
    ensures Inv(hash, BindChild(s, owner, subject, token, flow, stamp).0)
  {
    var (t, r) := BindChild(s, owner, subject, token, flow, stamp);
    if t != s {
      var spent := s.grants[token := s.grants[token].(used := true)];
      GrantChangeKeepsInv(hash, s, spent, s.nextId);
      if FindBySubject(s, owner, subject) == Ok(None) {
        var parent := s.contexts[s.grants[token].parent];
        assert Placed(s, s.grants[token].parent);
        var o := Observation(parent.level, Execution(parent.id, Parent), "Forked from parent execution", stamp);
        var c := Context(s.nextId, parent.root, ChildBinding(parent.id, parent.root), owner, subject, Some(parent.id),
                         parent.level, 1, Open, flow, Bounded([o], Complete), []);
        InsertedKeepsInv(hash, s.(grants := spent, nextId := s.nextId), c, o);
        assert t == Inserted(s.(grants := spent, nextId := s.nextId), c, o);
      } else {
        assert t == s.(grants := spent, nextId := s.nextId);
      }
    }
  }

  lemma StepKeepsInv(hash: Hash, s: State, e: Event)
    requires Inv(hash, s)
    ensures Inv(hash, Step(hash, s, e))
  {
    hide ObserveContext, HistoryOf, ObservedBy, Indexed, Faithful, Dominated, Counted;
    var t := Step(hash, s, e);
    match e
    case DoBindRoot(owner, subject, level, seed, flow, stamp) =>
      BindRootKeepsInv(hash, s, owner, subject, level, seed, flow, stamp);
    case DoBindChild(owner, subject, token, flow, stamp) =>
      BindChildKeepsInv(hash, s, owner, subject, token, flow, stamp);
    case DoCreateGrant(parent, grantee) =>
      if t != s {
        GrantChangeKeepsInv(hash, s, t.grants, t.nextId);
      }
    case DoObserve(owner, id, o) =>
      if t != s {
        ObserveKeepsInv(hash, s, id, o);
      }
    case DoClose(owner, id, outcome, reason, stamp) =>
      if t != s {
        assert Placed(s, id);
        if s.contexts[id].parent.None? || s.contexts[id].flow.Detached? {
          CloseAloneKeepsInv(hash, s, id, Closed(outcome, reason));
        } else {
          var o := Observation(s.contexts[id].level, Execution(id, ChildResult), "Merged completed child execution", stamp);
          CloseIntoKeepsInv(hash, s, id, s.contexts[id].parent.value, Closed(outcome, reason), o);
        }
      }
    case DoImport(owner, parent, child, stamp) =>
      if t != s {
        assert Placed(s, parent);
        var o := Observation(s.contexts[child].level, Execution(child, ChildResult), "Imported detached child execution", stamp);
        ImportKeepsInv(hash, s, parent, child, o);
      }
    case Restart =>
      GrantChangeKeepsInv(hash, s, map[], s.nextId);
  }

  /** Every reachable store, after any operations and restarts, satisfies the invariant. */
  lemma {:induction false} ReachableInv(hash: Hash, s: State, events: seq<Event>)
    requires Inv(hash, s)
    ensures Inv(hash, Run(hash, s, events))
    decreases |events|
  {
    if events != [] {
      StepKeepsInv(hash, s, events[0]);
      ReachableInv(hash, Step(hash, s, events[0]), events[1..]);
    }
  }

  lemma EmptyInv(hash: Hash)
    ensures Inv(hash, EMPTY)
  {
  }
}
