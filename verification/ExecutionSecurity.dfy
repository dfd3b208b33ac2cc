/**
 * Executions form a forest kept in a durable store. Every operation below runs
 * to its single store write without interleaving, because the service chains
 * all of them on one promise tail; a write that fails leaves the state alone.
 */
module ExecutionSecurity {
  import opened Wrappers
  import opened Classification
  import opened Provenance

  type Id = nat
  type Plugin = string
  type Token = nat

  datatype Subject = Subject(kind: string, id: string)
  datatype Outcome = Completed | Failed | Cancelled | Interrupted | Deleted
  datatype Lifecycle = Open | Closed(outcome: Outcome, reason: string)
  datatype Flow = MergeToParent | Detached
  datatype Relation = Parent | ChildResult | RetryOf
  datatype Seed =
    | User(user: string)
    | Channel(channel: string, messageId: string)
    | FromPlugin(plugin: string)
    | Legacy(legacy: string)
    | Execution(execution: Id, relation: Relation)

  /** The uuid and the time that the host stamps on an observation. */
  datatype Stamp = Stamp(uuid: string, time: int)
  datatype Observation = Observation(level: Level, source: Seed, reason: string, stamp: Stamp)
  type Hash = Link<Observation, string>

  datatype Binding = RootBinding(level: Level, seed: Seed) | ChildBinding(parent: Id, root: Id)

  datatype Context = Context(
    id: Id,
    root: Id,
    binding: Binding,
    owner: Plugin,
    subject: Subject,
    parent: Option<Id>,
    level: Level,
    revision: nat,
    lifecycle: Lifecycle,
    flow: Flow,
    provenance: Bounded<Observation, string>,
    imported: seq<Id>)

  datatype Grant = Grant(parent: Id, grantee: Plugin, used: bool)

  /**
   * contexts and subjects are durable; grants live in memory. nextId stands for
   * the supply of uuids and grant objects, none of which is ever repeated.
   * histories and observed are history variables: no operation reads them.
   */
  datatype State = State(
    contexts: map<Id, Context>,
    subjects: map<(Plugin, Subject), Id>,
    grants: map<Token, Grant>,
    nextId: nat,
    histories: map<Id, seq<Observation>>,
    observed: map<Id, nat>)

  const EMPTY := State(map[], map[], map[], 0, map[], map[])

  datatype Error =
    | NotFound
    | NotOwner
    | AlreadyClosed
    | ClosedDifferently
    | InvalidGrant
    | WrongGrantee
    | SubjectTaken
    | IndexInconsistent
    | NotClosedDetachedChild

  // ----- Building blocks

  function Key(c: Context): (Plugin, Subject) {
    (c.owner, c.subject)
  }

  function ObserveContext(hash: Hash, c: Context, o: Observation): Context {
    var raises := Rank(o.level) > Rank(c.level);
    c.(level := if raises then o.level else c.level,
       revision := if raises then c.revision + 1 else c.revision,
       provenance := AppendObservation(hash, c.provenance, o))
  }

  function HistoryOf(s: State, id: Id): seq<Observation> {
    if id in s.histories then s.histories[id] else []
  }

  function ObservedBy(s: State, id: Id): nat {
    if id in s.observed then s.observed[id] else 0
  }

  function Recorded(hash: Hash, s: State, id: Id, o: Observation): State
    requires id in s.contexts
  {
    s.(contexts := s.contexts[id := ObserveContext(hash, s.contexts[id], o)],
       histories := s.histories[id := HistoryOf(s, id) + [o]],
       observed := s.observed[id := ObservedBy(s, id) + 1])
  }

  function ClosedAlone(s: State, id: Id, lifecycle: Lifecycle): State
    requires id in s.contexts
  {
    s.(contexts := s.contexts[id := s.contexts[id].(lifecycle := lifecycle)])
  }

  /** Both contexts are written in one transaction. */
  function ClosedInto(hash: Hash, s: State, id: Id, parent: Id, lifecycle: Lifecycle, o: Observation): State
    requires id in s.contexts && parent in s.contexts
  {
    var closed := s.contexts[id].(lifecycle := lifecycle);
    s.(contexts := s.contexts[id := closed][parent := ObserveContext(hash, s.contexts[parent], o)],
       histories := s.histories[parent := HistoryOf(s, parent) + [o]])
  }

  function Imported(hash: Hash, s: State, parent: Id, child: Id, o: Observation): State
    requires parent in s.contexts
  {
    var updated := ObserveContext(hash, s.contexts[parent], o).(imported := s.contexts[parent].imported + [child]);
    s.(contexts := s.contexts[parent := updated],
       histories := s.histories[parent := HistoryOf(s, parent) + [o]])
  }

  function Snapshot(s: State, owner: Plugin, id: Id): Result<Context, Error> {
    if id !in s.contexts then Err(NotFound)
    else if s.contexts[id].owner != owner then Err(NotOwner)
    else Ok(s.contexts[id])
  }

  function FindBySubject(s: State, owner: Plugin, subject: Subject): Result<Option<Context>, Error> {
    if (owner, subject) !in s.subjects then Ok(None)
    else
      var id := s.subjects[(owner, subject)];
      if id !in s.contexts then Err(NotFound)
      else if s.contexts[id].owner != owner || s.contexts[id].subject != subject then Err(IndexInconsistent)
      else Ok(Some(s.contexts[id]))
  }

  function Inserted(s: State, c: Context, o: Observation): State
    requires c.id == s.nextId
  {
    s.(contexts := s.contexts[c.id := c],
       subjects := s.subjects[Key(c) := c.id],
       nextId := s.nextId + 1,
       histories := s.histories[c.id := [o]],
       observed := s.observed[c.id := 0])
  }

  // ----- The operations

  function BindRoot(s: State, owner: Plugin, subject: Subject, level: Level, seed: Seed, flow: Flow, stamp: Stamp)
    : (State, Result<Id, Error>)
  {
    match FindBySubject(s, owner, subject)
    case Err(e) => (s, Err(e))
    case Ok(Some(c)) =>
      if c.binding == RootBinding(level, seed) && c.flow == flow then (s, Ok(c.id)) else (s, Err(SubjectTaken))
    case Ok(None) =>
      var o := Observation(level, seed, "Execution root classification", stamp);
      var c := Context(s.nextId, s.nextId, RootBinding(level, seed), owner, subject, None, level, 1, Open, flow,
                       Bounded([o], Complete), []);
      (Inserted(s, c, o), Ok(c.id))
  }

  function CreateParentGrant(s: State, parent: Id, grantee: Plugin): (State, Result<Token, Error>) {
    if parent !in s.contexts then (s, Err(NotFound))
    else (s.(grants := s.grants[s.nextId := Grant(parent, grantee, false)], nextId := s.nextId + 1), Ok(s.nextId))
  }

  function Spent(s: State, token: Token): State
    requires token in s.grants
  {
    s.(grants := s.grants[token := s.grants[token].(used := true)])
  }

  /** The parent may be open or closed: forking does not look at its lifecycle. */
  function BindChild(s: State, owner: Plugin, subject: Subject, token: Token, flow: Flow, stamp: Stamp)
    : (State, Result<Id, Error>)
  {
    if token !in s.grants || s.grants[token].used then (s, Err(InvalidGrant))
    else if s.grants[token].grantee != owner then (s, Err(WrongGrantee))
    else if s.grants[token].parent !in s.contexts then (s, Err(NotFound))
    else
      var parent := s.contexts[s.grants[token].parent];
      match FindBySubject(s, owner, subject)
      case Err(e) => (s, Err(e))
      case Ok(Some(c)) =>
        if c.binding == ChildBinding(parent.id, parent.root) && c.flow == flow then (Spent(s, token), Ok(c.id))
        else (s, Err(SubjectTaken))
      case Ok(None) =>
        var o := Observation(parent.level, Execution(parent.id, Parent), "Forked from parent execution", stamp);
        var c := Context(s.nextId, parent.root, ChildBinding(parent.id, parent.root), owner, subject, Some(parent.id),
                         parent.level, 1, Open, flow, Bounded([o], Complete), []);
        (Spent(Inserted(s, c, o), token), Ok(c.id))
  }

  function Observe(hash: Hash, s: State, owner: Plugin, id: Id, o: Observation): (State, Result<Context, Error>)
  {
    match Snapshot(s, owner, id)
    case Err(e) => (s, Err(e))
    case Ok(c) =>
      if c.lifecycle.Closed? then (s, Err(AlreadyClosed))
      else
        var t := Recorded(hash, s, id, o);
        (t, Ok(t.contexts[id]))
  }

  function Close(hash: Hash, s: State, owner: Plugin, id: Id, outcome: Outcome, reason: string, stamp: Stamp)
    : (State, Result<Context, Error>)
  {
    match Snapshot(s, owner, id)
    case Err(e) => (s, Err(e))
    case Ok(c) =>
      if c.lifecycle.Closed? then
        (s, if c.lifecycle.outcome == outcome then Ok(c) else Err(ClosedDifferently))
      else
        var lifecycle := Closed(outcome, reason);
        var closed := c.(lifecycle := lifecycle);
        if c.parent.None? || c.flow.Detached? then (ClosedAlone(s, id, lifecycle), Ok(closed))
        else
          var p := c.parent.value;
          if p !in s.contexts then (s, Err(NotFound))
          else if s.contexts[p].lifecycle.Closed? then (s, Err(AlreadyClosed))
          else
            var o := Observation(c.level, Execution(id, ChildResult), "Merged completed child execution", stamp);
            (ClosedInto(hash, s, id, p, lifecycle, o), Ok(closed))
  }

  function ImportDetachedResult(hash: Hash, s: State, owner: Plugin, parent: Id, child: Id, stamp: Stamp)
    : (State, Result<Context, Error>)
  {
    match Snapshot(s, owner, parent)
    case Err(e) => (s, Err(e))
    case Ok(p) =>
      if p.lifecycle.Closed? then (s, Err(AlreadyClosed))
      else if child in p.imported then (s, Ok(p))
      else if child !in s.contexts then (s, Err(NotFound))
      else
        var c := s.contexts[child];
        if c.parent != Some(p.id) || !c.flow.Detached? || c.lifecycle.Open? then (s, Err(NotClosedDetachedChild))
        else
          var o := Observation(c.level, Execution(child, ChildResult), "Imported detached child execution", stamp);
          var t := Imported(hash, s, parent, child, o);
          (t, Ok(t.contexts[parent]))
  }

  // ----- Runs

  datatype Event =
    | DoBindRoot(owner: Plugin, subject: Subject, level: Level, seed: Seed, flow: Flow, stamp: Stamp)
    | DoCreateGrant(parent: Id, grantee: Plugin)
    | DoBindChild(owner: Plugin, subject: Subject, token: Token, flow: Flow, stamp: Stamp)
    | DoObserve(owner: Plugin, id: Id, observation: Observation)
    | DoClose(owner: Plugin, id: Id, outcome: Outcome, reason: string, stamp: Stamp)
    | DoImport(owner: Plugin, parent: Id, child: Id, stamp: Stamp)
    | Restart

  function Step(hash: Hash, s: State, e: Event): State
  {
    match e
    case DoBindRoot(owner, subject, level, seed, flow, stamp) => BindRoot(s, owner, subject, level, seed, flow, stamp).0
    case DoCreateGrant(parent, grantee) => CreateParentGrant(s, parent, grantee).0
    case DoBindChild(owner, subject, token, flow, stamp) => BindChild(s, owner, subject, token, flow, stamp).0
    case DoObserve(owner, id, o) => Observe(hash, s, owner, id, o).0
    case DoClose(owner, id, outcome, reason, stamp) => Close(hash, s, owner, id, outcome, reason, stamp).0
    case DoImport(owner, parent, child, stamp) => ImportDetachedResult(hash, s, owner, parent, child, stamp).0
    case Restart => s.(grants := map[])
  }

  function Run(hash: Hash, s: State, events: seq<Event>): State
    decreases |events|
  {
    if events == [] then s else Run(hash, Step(hash, s, events[0]), events[1..])
  }
}
