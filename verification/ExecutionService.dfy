/**
 * The service over the store. Each method is one body of the serialized
 * mutation chain, and does to the whole state what the operation of the same
 * name in ExecutionSecurity says.
 */
module ExecutionService {
  import opened Wrappers
  import opened Classification
  import opened Provenance
  import Spec = ExecutionSecurity

  class ExecutionSecurityService {
    const hash: Spec.Hash
    var contexts: map<Spec.Id, Spec.Context>
    var subjects: map<(Spec.Plugin, Spec.Subject), Spec.Id>
    var grants: map<Spec.Token, Spec.Grant>
    var nextId: nat
    ghost var histories: map<Spec.Id, seq<Spec.Observation>>
    ghost var observed: map<Spec.Id, nat>

    ghost function State(): Spec.State
      reads this
    {
      Spec.State(contexts, subjects, grants, nextId, histories, observed)
    }

    constructor (hash: Spec.Hash)
      ensures this.hash == hash && State() == Spec.EMPTY
    {
      this.hash := hash;
      contexts, subjects, grants, nextId := map[], map[], map[], 0;
      histories, observed := map[], map[];
    }

    method LoadContext(id: Spec.Id) returns (r: Result<Spec.Context, Spec.Error>)
      ensures r == if id in contexts then Ok(contexts[id]) else Err(Spec.NotFound)
    {
      if id !in contexts {
        return Err(Spec.NotFound);
      }
      return Ok(contexts[id]);
    }

    method Snapshot(owner: Spec.Plugin, id: Spec.Id) returns (r: Result<Spec.Context, Spec.Error>)
      ensures r == Spec.Snapshot(State(), owner, id)
    {
      r := LoadContext(id);
      if r.Ok? && r.value.owner != owner {
        r := Err(Spec.NotOwner);
      }
    }

    method FindBySubject(owner: Spec.Plugin, subject: Spec.Subject)
      returns (r: Result<Option<Spec.Context>, Spec.Error>)
      ensures r == Spec.FindBySubject(State(), owner, subject)
    {
      if (owner, subject) !in subjects {
        return Ok(None);
      }
      var context := LoadContext(subjects[(owner, subject)]);
      if context.Err? {
        return Err(context.error);
      }
      if context.value.owner != owner || context.value.subject != subject {
        return Err(Spec.IndexInconsistent);
      }
      return Ok(Some(context.value));
    }

    /** Writes the index entry and the context in one transaction. */
    method Insert(c: Spec.Context, o: Spec.Observation)
      requires c.id == nextId
      modifies this
      ensures State() == Spec.Inserted(old(State()), c, o)
    {
      subjects := subjects[Spec.Key(c) := c.id];
      contexts := contexts[c.id := c];
      nextId := nextId + 1;
      histories, observed := histories[c.id := [o]], observed[c.id := 0];
    }

    method BindRoot(owner: Spec.Plugin, subject: Spec.Subject, level: Level, seed: Spec.Seed, flow: Spec.Flow,
                    stamp: Spec.Stamp)
      returns (r: Result<Spec.Id, Spec.Error>)
      modifies this
      ensures (State(), r) == Spec.BindRoot(old(State()), owner, subject, level, seed, flow, stamp)
    {
      var existing := FindBySubject(owner, subject);
      if existing.Err? {
        return Err(existing.error);
      }
      if existing.value.Some? {
        var c := existing.value.value;
        if c.binding != Spec.RootBinding(level, seed) || c.flow != flow {
          return Err(Spec.SubjectTaken);
        }
        return Ok(c.id);
      }
      var id := nextId;
      var o := Spec.Observation(level, seed, "Execution root classification", stamp);
      Insert(Spec.Context(id, id, Spec.RootBinding(level, seed), owner, subject, None, level, 1, Spec.Open, flow,
                          Bounded([o], Complete), []), o);
      return Ok(id);
    }

    method CreateParentGrant(parent: Spec.Id, grantee: Spec.Plugin) returns (r: Result<Spec.Token, Spec.Error>)
      modifies this
      ensures (State(), r) == Spec.CreateParentGrant(old(State()), parent, grantee)
    {
      var context := LoadContext(parent);
      if context.Err? {
        return Err(context.error);
      }
      r := Ok(nextId);
      grants := grants[nextId := Spec.Grant(parent, grantee, false)];
      nextId := nextId + 1;
    }

    method BindChild(owner: Spec.Plugin, subject: Spec.Subject, token: Spec.Token, flow: Spec.Flow, stamp: Spec.Stamp)
      returns (r: Result<Spec.Id, Spec.Error>)
      modifies this
      ensures (State(), r) == Spec.BindChild(old(State()), owner, subject, token, flow, stamp)
    {
      if token !in grants || grants[token].used {
        return Err(Spec.InvalidGrant);
      }
      if grants[token].grantee != owner {
        return Err(Spec.WrongGrantee);
      }
      var loaded := LoadContext(grants[token].parent);
      if loaded.Err? {
        return Err(loaded.error);
      }
      var parent := loaded.value;
      var existing := FindBySubject(owner, subject);
      if existing.Err? {
        return Err(existing.error);
      }
      if existing.value.Some? {
        var c := existing.value.value;
        if c.binding != Spec.ChildBinding(parent.id, parent.root) || c.flow != flow {
          return Err(Spec.SubjectTaken);
        }
        grants := grants[token := grants[token].(used := true)];
        return Ok(c.id);
      }
      var id := nextId;
      var o := Spec.Observation(parent.level, Spec.Execution(parent.id, Spec.Parent), "Forked from parent execution", stamp);
      Insert(Spec.Context(id, parent.root, Spec.ChildBinding(parent.id, parent.root), owner, subject, Some(parent.id),
                          parent.level, 1, Spec.Open, flow, Bounded([o], Complete), []), o);
      grants := grants[token := grants[token].(used := true)];
      return Ok(id);
    }

    method Observe(owner: Spec.Plugin, id: Spec.Id, o: Spec.Observation) returns (r: Result<Spec.Context, Spec.Error>)
      modifies this
      ensures (State(), r) == Spec.Observe(hash, old(State()), owner, id, o)
    {
      r := Snapshot(owner, id);
      if r.Err? {
        return;
      }
      if r.value.lifecycle.Closed? {
        return Err(Spec.AlreadyClosed);
      }
      histories := histories[id := Spec.HistoryOf(State(), id) + [o]];
      observed := observed[id := Spec.ObservedBy(State(), id) + 1];
      var updated := Spec.ObserveContext(hash, r.value, o);
      contexts := contexts[id := updated];
      return Ok(updated);
    }

    /** True when the guarded operation may run; it then runs before any other mutation. */
    method CommitIfCurrent(owner: Spec.Plugin, id: Spec.Id, expectedRevision: nat)
      returns (r: Result<Option<Spec.Context>, Spec.Error>)
      ensures match r
        case Ok(Some(c)) =>
          id in contexts && c == contexts[id] && c.owner == owner && c.lifecycle.Open? && c.revision == expectedRevision
        case Ok(None) =>
          id in contexts && contexts[id].owner == owner && contexts[id].lifecycle.Open?
          && contexts[id].revision != expectedRevision
        case Err(_) =>
          id !in contexts || contexts[id].owner != owner || contexts[id].lifecycle.Closed?
    {
      var c := Snapshot(owner, id);
      if c.Err? {
        return Err(c.error);
      }
      if c.value.lifecycle.Closed? {
        return Err(Spec.AlreadyClosed);
      }
      if c.value.revision != expectedRevision {
        return Ok(None);
      }
      return Ok(Some(c.value));
    }

    method Close(owner: Spec.Plugin, id: Spec.Id, outcome: Spec.Outcome, reason: string, stamp: Spec.Stamp)
      returns (r: Result<Spec.Context, Spec.Error>)
      modifies this
      ensures (State(), r) == Spec.Close(hash, old(State()), owner, id, outcome, reason, stamp)
    {
      r := Snapshot(owner, id);
      if r.Err? {
        return;
      }
      var c := r.value;
      if c.lifecycle.Closed? {
        if c.lifecycle.outcome != outcome {
          return Err(Spec.ClosedDifferently);
        }
        return;
      }
      var closed := c.(lifecycle := Spec.Closed(outcome, reason));
      if c.parent.None? || c.flow.Detached? {
        contexts := contexts[id := closed];
        return Ok(closed);
      }
      var parent := LoadContext(c.parent.value);
      if parent.Err? {
        return Err(parent.error);
      }
      if parent.value.lifecycle.Closed? {
        return Err(Spec.AlreadyClosed);
      }
      var o := Spec.Observation(c.level, Spec.Execution(id, Spec.ChildResult), "Merged completed child execution", stamp);
      histories := histories[c.parent.value := Spec.HistoryOf(State(), c.parent.value) + [o]];
      contexts := contexts[id := closed][c.parent.value := Spec.ObserveContext(hash, parent.value, o)];
      return Ok(closed);
    }

    method ImportDetachedResult(owner: Spec.Plugin, parent: Spec.Id, child: Spec.Id, stamp: Spec.Stamp)
      returns (r: Result<Spec.Context, Spec.Error>)
      modifies this
      ensures (State(), r) == Spec.ImportDetachedResult(hash, old(State()), owner, parent, child, stamp)
    {
      r := Snapshot(owner, parent);
      if r.Err? {
        return;
      }
      var p := r.value;
      if p.lifecycle.Closed? {
        return Err(Spec.AlreadyClosed);
      }
      if child in p.imported {
        return;
      }
      var loaded := LoadContext(child);
      if loaded.Err? {
        return Err(loaded.error);
      }
      var c := loaded.value;
      if c.parent != Some(p.id) || !c.flow.Detached? || c.lifecycle.Open? {
        return Err(Spec.NotClosedDetachedChild);
      }
      var o := Spec.Observation(c.level, Spec.Execution(child, Spec.ChildResult), "Imported detached child execution", stamp);
      histories := histories[parent := Spec.HistoryOf(State(), parent) + [o]];
      var updated := Spec.ObserveContext(hash, p, o).(imported := p.imported + [child]);
      contexts := contexts[parent := updated];
      return Ok(updated);
    }

    /** The process stops and starts again: grants are lost, the store is not. */
    method Restart()
      modifies this
      ensures State() == Spec.Step(hash, old(State()), Spec.Restart)
    {
      grants := map[];
    }

    /** Any one event. */
    method Perform(e: Spec.Event)
      modifies this
      ensures State() == Spec.Step(hash, old(State()), e)
    {
      match e
      case DoBindRoot(owner, subject, level, seed, flow, stamp) =>
        var _ := BindRoot(owner, subject, level, seed, flow, stamp);
      case DoCreateGrant(parent, grantee) =>
        var _ := CreateParentGrant(parent, grantee);
      case DoBindChild(owner, subject, token, flow, stamp) =>
        var _ := BindChild(owner, subject, token, flow, stamp);
      case DoObserve(owner, id, o) =>
        var _ := Observe(owner, id, o);
      case DoClose(owner, id, outcome, reason, stamp) =>
        var _ := Close(owner, id, outcome, reason, stamp);
      case DoImport(owner, parent, child, stamp) =>
        var _ := ImportDetachedResult(owner, parent, child, stamp);
      case Restart =>
        Restart();
    }
  }
}
