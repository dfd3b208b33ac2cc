/**
 * The lifetimes of tool catalogs. Providers prepare a catalog for a run while
 * runs and providers come and go; the service leases it to the run, and closes
 * it when the lease ends or when it arrives too late to be leased. Each event is
 * what runs between two awaits. Every prepare returns a catalog of its own.
 */
module ToolCatalogs {
  type Catalog = nat
  type PolicyId = nat

  datatype Registration = Registration(id: nat, provider: string)
  datatype Binding = Binding(catalog: Catalog, provider: string)

  /** A tool that a catalog offers, and whether its definition passes the checks that do not look at other tools. */
  datatype Definition = Definition(tool: string, acceptable: bool)

  /** leases names the provider of each leased catalog. */
  datatype Policy = Policy(run: string, tools: map<string, Binding>, leases: map<Catalog, string>, prepared: bool,
                           released: bool)

  /**
   * policies holds the policy objects that anything still refers to; runs names
   * the current one of each live run. preparing holds, for each preparation that
   * is under way, the registrations left to await, the awaited one first. home and
   * closeCalls are history variables: for which policy a catalog arrived, and how
   * often it was closed.
   */
  datatype State = State(
    providers: map<string, nat>,
    aborted: set<nat>,
    runs: map<string, PolicyId>,
    policies: map<PolicyId, Policy>,
    preparing: map<PolicyId, seq<Registration>>,
    closed: set<Catalog>,
    nextId: nat,
    home: map<Catalog, PolicyId>,
    closeCalls: map<Catalog, nat>)

  const EMPTY := State(map[], {}, map[], map[], map[], {}, 0, map[], map[])

  datatype Event =
    | RegisterProvider(provider: string)
    | RemoveProvider(provider: string, registration: nat)
    | RegisterRun(run: string)
    | DisposeRun(run: string, policy: PolicyId)
    | BeginPrepare(run: string, order: seq<Registration>)
    | Resolved(policy: PolicyId, executable: bool, definitions: seq<Definition>)
    | Rejected(policy: PolicyId)

  // ----- The sections between awaits

  /** Closes each of the catalogs that was not closed before. */
  function CloseLeases(s: State, catalogs: set<Catalog>): State {
    s.(closed := s.closed + catalogs,
       closeCalls := map c <- s.closeCalls ::
         s.closeCalls[c] + (if c in catalogs && c !in s.closed then 1 else 0))
  }

  function Without(policy: Policy, provider: string): Policy {
    policy.(tools := map tool <- policy.tools | policy.tools[tool].provider != provider :: policy.tools[tool],
            leases := map c <- policy.leases | policy.leases[c] != provider :: policy.leases[c])
  }

  /** What the live runs lease from a provider. */
  function LeasedFrom(s: State, provider: string): set<Catalog> {
    set p <- s.policies, c <- s.policies[p].leases | !s.policies[p].released && s.policies[p].leases[c] == provider :: c
  }

  function Remove(s: State, provider: string, registration: nat): State {
    if provider !in s.providers || s.providers[provider] != registration then s
    else
      CloseLeases(s, LeasedFrom(s, provider)).(
        providers := s.providers - {provider},
        aborted := s.aborted + {registration},
        policies := map p <- s.policies ::
          if s.policies[p].released then s.policies[p] else Without(s.policies[p], provider))
  }

  function Dispose(s: State, run: string, p: PolicyId): State {
    if run !in s.runs || s.runs[run] != p || p !in s.policies then s
    else
      CloseLeases(s, s.policies[p].leases.Keys).(
        runs := s.runs - {run},
        policies := s.policies[p := s.policies[p].(released := true, leases := map[], tools := map[])])
  }

  /** The definitions in order; one that is unacceptable or already taken is left out. */
  function Accept(tools: map<string, Binding>, binding: Binding, definitions: seq<Definition>): map<string, Binding>
    decreases |definitions|
  {
    if definitions == [] then tools
    else
      var d := definitions[0];
      Accept(if d.acceptable && d.tool !in tools then tools[d.tool := binding] else tools, binding, definitions[1..])
  }

  /** The preparation awaits the next registration, or is done. */
  function Advance(s: State, p: PolicyId, rest: seq<Registration>): State
    requires p in s.policies
  {
    if rest == [] then
      s.(preparing := s.preparing - {p}, policies := s.policies[p := s.policies[p].(prepared := true)])
    else s.(preparing := s.preparing[p := rest])
  }

  /** A catalog that arrived for a policy, not yet leased or closed. */
  function Received(s: State, p: PolicyId): State {
    s.(nextId := s.nextId + 1, home := s.home[s.nextId := p], closeCalls := s.closeCalls[s.nextId := 0])
  }

  function Leased(s: State, p: PolicyId, provider: string, definitions: seq<Definition>): State
    requires p in s.policies
  {
    var policy := s.policies[p].(
      tools := Accept(s.policies[p].tools, Binding(s.nextId, provider), definitions),
      leases := s.policies[p].leases[s.nextId := provider]);
    Received(s, p).(policies := s.policies[p := policy])
  }

  function Arrive(s: State, p: PolicyId, executable: bool, definitions: seq<Definition>): State {
    if p !in s.preparing || s.preparing[p] == [] || p !in s.policies then s
    else
      var registration, rest := s.preparing[p][0], s.preparing[p][1..];
      if s.policies[p].released then
        var t := CloseLeases(Received(s, p), {s.nextId});
        t.(preparing := t.preparing - {p})
      else if registration.id in s.aborted || !executable then
        Advance(CloseLeases(Received(s, p), {s.nextId}), p, rest)
      else
        Advance(Leased(s, p, registration.provider, definitions), p, rest)
  }

  function Step(s: State, e: Event): State {
    match e
    case RegisterProvider(provider) =>
      if provider in s.providers then s
      else s.(providers := s.providers[provider := s.nextId], nextId := s.nextId + 1)
    case RemoveProvider(provider, registration) => Remove(s, provider, registration)
    case RegisterRun(run) =>
      if run in s.runs then s
      else s.(runs := s.runs[run := s.nextId],
              policies := s.policies[s.nextId := Policy(run, map[], map[], false, false)],
              nextId := s.nextId + 1)
    case DisposeRun(run, p) => Dispose(s, run, p)
    case BeginPrepare(run, order) =>
      if run !in s.runs || s.runs[run] !in s.policies || s.policies[s.runs[run]].prepared || s.runs[run] in s.preparing
        || (exists r <- order :: r.provider !in s.providers || s.providers[r.provider] != r.id) then s
      else Advance(s, s.runs[run], order)
    case Resolved(p, executable, definitions) => Arrive(s, p, executable, definitions)
    case Rejected(p) =>
      if p !in s.preparing || s.preparing[p] == [] || p !in s.policies then s
      else if s.policies[p].released then s.(preparing := s.preparing - {p})
      else Advance(s, p, s.preparing[p][1..])
  }

  function Run(s: State, events: seq<Event>): State
    decreases |events|
  {
    if events == [] then s else Run(Step(s, events[0]), events[1..])
  }

  // ----- What holds between any two awaits

  predicate LeaseOk(s: State, p: PolicyId, c: Catalog) {
    p in s.policies && c in s.policies[p].leases ==>
      && c in s.home && s.home[c] == p && c !in s.closed && s.policies[p].leases[c] in s.providers
  }

  predicate BindingOk(s: State, p: PolicyId, tool: string) {
    p in s.policies && tool in s.policies[p].tools ==>
      var b := s.policies[p].tools[tool];
      b.catalog in s.policies[p].leases && s.policies[p].leases[b.catalog] == b.provider
  }

  predicate PolicyOk(s: State, p: PolicyId) {
    p in s.policies ==>
      var policy := s.policies[p];
      && p < s.nextId
      && (policy.released ==> policy.leases == map[])
      && (!policy.released ==> policy.run in s.runs && s.runs[policy.run] == p)
  }

  predicate RunOk(s: State, run: string) {
    run in s.runs ==>
      s.runs[run] in s.policies && s.policies[s.runs[run]].run == run && !s.policies[s.runs[run]].released
  }

  /** A catalog is never lost: it was closed, once, or its policy leases it. */
  predicate Accounted(s: State, c: Catalog) {
    && (c in s.home <==> c in s.closeCalls)
    && (c in s.closed ==> c in s.home)
    && (c in s.home ==>
          && c < s.nextId && s.home[c] in s.policies
          && (if c in s.closed then s.closeCalls[c] == 1
              else s.closeCalls[c] == 0 && c in s.policies[s.home[c]].leases))
  }

  predicate Sound(s: State, p: PolicyId, c: Catalog, tool: string, run: string) {
    PolicyOk(s, p) && LeaseOk(s, p, c) && BindingOk(s, p, tool) && RunOk(s, run) && Accounted(s, c)
  }

  /** Leases are of open catalogs from registered providers, every binding rests on one, and no catalog is lost. */
  ghost predicate CatalogsOk(s: State) {
    forall p, c, tool, run {:trigger Sound(s, p, c, tool, run)} :: Sound(s, p, c, tool, run)
  }

  /** A registration that was not aborted is the current one of its provider. */
  predicate RegistrationOk(s: State, r: Registration) {
    r.id < s.nextId && (r.id !in s.aborted ==> r.provider in s.providers && s.providers[r.provider] == r.id)
  }

  predicate Awaits(s: State, p: PolicyId, r: Registration) {
    p in s.preparing && r in s.preparing[p]
  }

  /** Providers have registrations of their own, and none that was aborted. */
  predicate ProvidersOk(s: State, a: string, b: string) {
    && (a in s.providers ==> s.providers[a] < s.nextId && s.providers[a] !in s.aborted)
    && (a in s.providers && b in s.providers && s.providers[a] == s.providers[b] ==> a == b)
  }

  ghost predicate RegistryOk(s: State) {
    && (forall a, b {:trigger ProvidersOk(s, a, b)} :: ProvidersOk(s, a, b))
    && (forall id <- s.aborted :: id < s.nextId)
    && (forall p, r {:trigger Awaits(s, p, r)} :: Awaits(s, p, r) ==> p in s.policies && RegistrationOk(s, r))
  }

  ghost predicate Inv(s: State) {
    CatalogsOk(s) && RegistryOk(s)
  }

  // Each section changes the policies, the catalogs and the registry in its own way.

  lemma RegisterKeepsInv(s: State, e: Event)
    requires Inv(s) && (e.RegisterProvider? || e.RegisterRun?)
    ensures Inv(Step(s, e))
  {
    hide RegistryOk;
    var t := Step(s, e);
    PolicyIdsBelowNext(s);
    forall p, c, tool, run
      ensures Sound(t, p, c, tool, run)
    {
      assert Sound(s, p, c, tool, run);
    }
    RegisterKeepsRegistry(s, e);
  }

  lemma PolicyIdsBelowNext(s: State)
    requires Inv(s)
    ensures forall p <- s.policies :: p < s.nextId
    ensures forall c <- s.home :: c < s.nextId
  {
    forall p | p in s.policies
      ensures p < s.nextId
    {
      assert Sound(s, p, 0, "", "");
    }
    forall c | c in s.home
      ensures c < s.nextId
    {
      assert Sound(s, 0, c, "", "");
    }
  }

  lemma RegisterKeepsRegistry(s: State, e: Event)
    requires RegistryOk(s) && (e.RegisterProvider? || e.RegisterRun?)
    ensures RegistryOk(Step(s, e))
  {
    if e.RegisterRun? {
      SameRegistryKept(s, Step(s, e));
    } else if e.provider !in s.providers {
      NewProviderKeepsRegistry(s, e.provider);
    }
  }

  lemma NewProviderKeepsRegistry(s: State, provider: string)
    requires RegistryOk(s) && provider !in s.providers
    ensures RegistryOk(s.(providers := s.providers[provider := s.nextId], nextId := s.nextId + 1))
  {
    var t := s.(providers := s.providers[provider := s.nextId], nextId := s.nextId + 1);
    forall a, b
      ensures ProvidersOk(t, a, b)
    {
      assert ProvidersOk(s, a, b) && ProvidersOk(s, b, a);
    }
    forall p, r | Awaits(t, p, r)
      ensures p in t.policies && RegistrationOk(t, r)
    {
      assert Awaits(s, p, r);
    }
  }

  /** A registration that was awaited stays awaited or is not awaited any more. */
  lemma AwaitedStayOk(s: State, t: State)
    requires RegistryOk(s) && s.nextId <= t.nextId && s.policies.Keys <= t.policies.Keys
    requires forall p, r {:trigger Awaits(t, p, r)} :: Awaits(t, p, r) ==> Awaits(s, p, r)
    requires forall a <- s.providers :: (a in t.providers && t.providers[a] == s.providers[a]) || s.providers[a] in t.aborted
    requires s.aborted <= t.aborted
    ensures forall p, r {:trigger Awaits(t, p, r)} :: Awaits(t, p, r) ==> p in t.policies && RegistrationOk(t, r)
  {
    forall p, r | Awaits(t, p, r)
      ensures p in t.policies && RegistrationOk(t, r)
    {
      assert Awaits(s, p, r);
    }
  }

  lemma RemoveKeepsRegistry(s: State, provider: string, registration: nat)
    requires RegistryOk(s)
    ensures RegistryOk(Remove(s, provider, registration))
  {
    hide LeasedFrom;
    var t := Remove(s, provider, registration);
    assert ProvidersOk(s, provider, provider);
    forall a, b
      ensures ProvidersOk(t, a, b)
    {
      assert ProvidersOk(s, a, b) && ProvidersOk(s, a, provider) && ProvidersOk(s, provider, a);
    }
    AwaitedStayOk(s, t);
  }

  /** Everything leased from a provider is leased by a live run. */
  lemma LeasedFromOwner(s: State, provider: string, c: Catalog)
    requires CatalogsOk(s)
    ensures c in LeasedFrom(s, provider) <==>
      && c in s.home && s.home[c] in s.policies && !s.policies[s.home[c]].released
      && c in s.policies[s.home[c]].leases && s.policies[s.home[c]].leases[c] == provider
  {
    if c in LeasedFrom(s, provider) {
      var p :| p in s.policies && !s.policies[p].released && c in s.policies[p].leases && s.policies[p].leases[c] == provider;
      assert Sound(s, p, c, "", "");
    }
  }

  lemma RemoveKeepsInv(s: State, provider: string, registration: nat)
    requires Inv(s)
    ensures Inv(Remove(s, provider, registration))
  {
    hide LeasedFrom, RegistryOk;
    var t := Remove(s, provider, registration);
    forall p, c, tool, run
      ensures Sound(t, p, c, tool, run)
    {
      assert Sound(s, p, c, tool, run);
      LeasedFromOwner(s, provider, c);
      if c in s.home {
        assert Sound(s, s.home[c], c, tool, run);
      }
    }
    RemoveKeepsRegistry(s, provider, registration);
  }

  lemma DisposeKeepsInv(s: State, run: string, p: PolicyId)
    requires Inv(s)
    ensures Inv(Dispose(s, run, p))
  {
    hide RegistryOk;
    var t := Dispose(s, run, p);
    assert Sound(s, p, 0, "", run);
    forall q, c, tool, other
      ensures Sound(t, q, c, tool, other)
    {
      assert Sound(s, q, c, tool, other) && Sound(s, p, c, tool, run);
    }
    SameRegistryKept(s, t);
  }

  /** Nothing about providers or preparations changed, except that some preparations ended. */
  lemma SameRegistryKept(s: State, t: State)
    requires RegistryOk(s) && t.providers == s.providers && t.aborted == s.aborted && s.nextId <= t.nextId
    requires s.policies.Keys <= t.policies.Keys
    requires forall p <- t.preparing :: p in s.preparing && t.preparing[p] == s.preparing[p]
    ensures RegistryOk(t)
  {
    forall a, b
      ensures ProvidersOk(t, a, b)
    {
      assert ProvidersOk(s, a, b);
    }
    AwaitedStayOk(s, t);
  }

  lemma AdvanceKeepsInv(s: State, p: PolicyId, rest: seq<Registration>)
    requires Inv(s) && p in s.policies && forall r <- rest :: RegistrationOk(s, r)
    ensures Inv(Advance(s, p, rest))
  {
    hide RegistryOk;
    var t := Advance(s, p, rest);
    forall q, c, tool, run
      ensures Sound(t, q, c, tool, run)
    {
      assert Sound(s, q, c, tool, run);
    }
    AdvanceKeepsRegistry(s, p, rest);
  }

  lemma AdvanceKeepsRegistry(s: State, p: PolicyId, rest: seq<Registration>)
    requires RegistryOk(s) && p in s.policies && forall r <- rest :: RegistrationOk(s, r)
    ensures RegistryOk(Advance(s, p, rest))
  {
    var t := Advance(s, p, rest);
    forall a, b
      ensures ProvidersOk(t, a, b)
    {
      assert ProvidersOk(s, a, b);
    }
    forall q, r | Awaits(t, q, r)
      ensures q in t.policies && RegistrationOk(t, r)
    {
      if q != p || rest == [] {
        assert Awaits(s, q, r);
      }
      assert r in rest ==> RegistrationOk(s, r);
    }
  }

  /** Every binding is one that was there, or one of the new catalog. */
  lemma {:induction false} AcceptBinds(tools: map<string, Binding>, binding: Binding, definitions: seq<Definition>)
    ensures forall tool <- tools ::
      tool in Accept(tools, binding, definitions) && Accept(tools, binding, definitions)[tool] == tools[tool]
    ensures forall tool <- Accept(tools, binding, definitions) ::
      tool !in tools ==> Accept(tools, binding, definitions)[tool] == binding
    decreases |definitions|
  {
    if definitions != [] {
      var d := definitions[0];
      AcceptBinds(if d.acceptable && d.tool !in tools then tools[d.tool := binding] else tools, binding, definitions[1..]);
    }
  }

  lemma ClosedOnArrival(s: State, p: PolicyId)
    requires Inv(s) && p in s.policies
    ensures Inv(CloseLeases(Received(s, p), {s.nextId}))
  {
    hide RegistryOk;
    var t := CloseLeases(Received(s, p), {s.nextId});
    PolicyIdsBelowNext(s);
    forall q, c, tool, run
      ensures Sound(t, q, c, tool, run)
    {
      assert Sound(s, q, c, tool, run);
    }
    SameRegistryKept(s, t);
  }

  lemma LeasedOnArrival(s: State, p: PolicyId, provider: string, definitions: seq<Definition>)
    requires Inv(s) && p in s.policies && !s.policies[p].released && provider in s.providers
    ensures Inv(Leased(s, p, provider, definitions))
  {
    hide Accept, RegistryOk;
    var t := Leased(s, p, provider, definitions);
    PolicyIdsBelowNext(s);
    AcceptBinds(s.policies[p].tools, Binding(s.nextId, provider), definitions);
    forall q, c, tool, run
      ensures Sound(t, q, c, tool, run)
    {
      assert Sound(s, q, c, tool, run);
      if q == p && tool in s.policies[p].tools {
        assert Sound(s, p, s.policies[p].tools[tool].catalog, tool, run);
      }
    }
    SameRegistryKept(s, t);
  }

  lemma DropKeepsInv(s: State, p: PolicyId)
    requires Inv(s)
    ensures Inv(s.(preparing := s.preparing - {p}))
  {
    hide RegistryOk;
    var t := s.(preparing := s.preparing - {p});
    forall q, c, tool, run
      ensures Sound(t, q, c, tool, run)
    {
      assert Sound(s, q, c, tool, run);
    }
    SameRegistryKept(s, t);
  }

  lemma ArriveKeepsInv(s: State, p: PolicyId, executable: bool, definitions: seq<Definition>)
    requires Inv(s)
    ensures Inv(Arrive(s, p, executable, definitions))
  {
    hide Inv, CloseLeases, Leased, Received, Advance;
    if p in s.preparing && s.preparing[p] != [] && p in s.policies {
      var registration, rest := s.preparing[p][0], s.preparing[p][1..];
      AwaitedRegistrationsOk(s, p);
      assert registration in s.preparing[p] && RegistrationOk(s, registration);
      var closed := CloseLeases(Received(s, p), {s.nextId});
      ReceivedKeepsRegistrations(s, p, registration.provider, definitions);
      if s.policies[p].released {
        ClosedOnArrival(s, p);
        DropKeepsInv(closed, p);
      } else if registration.id in s.aborted || !executable {
        ClosedOnArrival(s, p);
        AdvanceKeepsInv(closed, p, rest);
      } else {
        LeasedOnArrival(s, p, registration.provider, definitions);
        AdvanceKeepsInv(Leased(s, p, registration.provider, definitions), p, rest);
      }
    }
  }

  lemma ReceivedKeepsRegistrations(s: State, p: PolicyId, provider: string, definitions: seq<Definition>)
    requires p in s.policies
    ensures var t := CloseLeases(Received(s, p), {s.nextId});
      p in t.policies && t.preparing == s.preparing && forall r :: RegistrationOk(s, r) ==> RegistrationOk(t, r)
    ensures var t := Leased(s, p, provider, definitions);
      p in t.policies && forall r :: RegistrationOk(s, r) ==> RegistrationOk(t, r)
  {
  }

  lemma StepKeepsInv(s: State, e: Event)
    requires Inv(s)
    ensures Inv(Step(s, e))
  {
    hide Inv, Remove, Dispose, Arrive, Advance;
    match e
    case RegisterProvider(_) => RegisterKeepsInv(s, e);
    case RegisterRun(_) => RegisterKeepsInv(s, e);
    case RemoveProvider(provider, registration) => RemoveKeepsInv(s, provider, registration);
    case DisposeRun(run, p) => DisposeKeepsInv(s, run, p);
    case BeginPrepare(run, order) =>
      if Step(s, e) != s {
        BegunRegistrationsOk(s, order);
        AdvanceKeepsInv(s, s.runs[run], order);
      }
    case Resolved(p, executable, definitions) => ArriveKeepsInv(s, p, executable, definitions);
    case Rejected(p) =>
      if Step(s, e) != s {
        if s.policies[p].released {
          DropKeepsInv(s, p);
        } else {
          AwaitedRegistrationsOk(s, p);
          AdvanceKeepsInv(s, p, s.preparing[p][1..]);
        }
      }
  }

  lemma BegunRegistrationsOk(s: State, order: seq<Registration>)
    requires Inv(s) && forall r <- order :: r.provider in s.providers && s.providers[r.provider] == r.id
    ensures forall r <- order :: RegistrationOk(s, r)
  {
    forall r | r in order
      ensures RegistrationOk(s, r)
    {
      assert ProvidersOk(s, r.provider, r.provider);
    }
  }

  lemma AwaitedRegistrationsOk(s: State, p: PolicyId)
    requires Inv(s) && p in s.preparing
    ensures forall r <- s.preparing[p] :: RegistrationOk(s, r)
  {
    forall r | r in s.preparing[p]
      ensures RegistrationOk(s, r)
    {
      assert Awaits(s, p, r);
    }
  }

  lemma StepKeepsClosed(s: State, e: Event)
    ensures s.closed <= Step(s, e).closed
  {
    hide Accept, LeasedFrom;
  }

  /** Every run keeps the invariant, and a catalog that was closed stays closed. */
  lemma {:induction false} ReachableInv(s: State, events: seq<Event>)
    requires Inv(s)
    ensures Inv(Run(s, events)) && s.closed <= Run(s, events).closed
    decreases |events|
  {
    if events != [] {
      StepKeepsInv(s, events[0]);
      StepKeepsClosed(s, events[0]);
      ReachableInv(Step(s, events[0]), events[1..]);
    }
  }

  /** In every reachable state, the tool of a live run is backed by an open catalog that the run leases. */
  lemma LiveBindingIsBacked(events: seq<Event>, run: string, tool: string)
    requires var s := Run(EMPTY, events);
      run in s.runs && s.runs[run] in s.policies && tool in s.policies[s.runs[run]].tools
    ensures var s := Run(EMPTY, events);
      var b := s.policies[s.runs[run]].tools[tool];
      && b.catalog in s.policies[s.runs[run]].leases && b.catalog !in s.closed
      && b.catalog in s.closeCalls && s.closeCalls[b.catalog] == 0 && b.provider in s.providers
  {
    var s := Run(EMPTY, events);
    ReachableInv(EMPTY, events);
    var p, b := s.runs[run], s.policies[s.runs[run]].tools[tool];
    assert Sound(s, p, b.catalog, tool, run);
  }

  /** In every reachable state each catalog was closed at most once, and exactly once when its policy was released. */
  lemma ClosedWhenReleased(events: seq<Event>, c: Catalog)
    requires c in Run(EMPTY, events).home
    ensures var s := Run(EMPTY, events);
      && c in s.closeCalls && s.closeCalls[c] <= 1 && s.home[c] in s.policies
      && (s.policies[s.home[c]].released ==> s.closeCalls[c] == 1)
      && (s.closeCalls[c] == 0 <==> c in s.policies[s.home[c]].leases)
  {
    var s := Run(EMPTY, events);
    ReachableInv(EMPTY, events);
    assert Sound(s, s.home[c], c, "", "");
  }

  /** Each acceptable definition is bound in the end, to this catalog or to what had its name before. */
  lemma {:induction false} AcceptTakes(tools: map<string, Binding>, binding: Binding, definitions: seq<Definition>, i: nat)
    requires i < |definitions| && definitions[i].acceptable
    ensures definitions[i].tool in Accept(tools, binding, definitions)
    decreases |definitions|
  {
    var d := definitions[0];
    var more := if d.acceptable && d.tool !in tools then tools[d.tool := binding] else tools;
    if i == 0 {
      AcceptBinds(more, binding, definitions[1..]);
    } else {
      AcceptTakes(more, binding, definitions[1..], i - 1);
    }
  }

  /** A usable catalog that arrives in time is leased, and serves its acceptable tools that were not taken. */
  lemma ArrivalInTimeIsLeased(s: State, p: PolicyId, definitions: seq<Definition>, i: nat)
    requires Inv(s) && p in s.preparing && s.preparing[p] != [] && p in s.policies && !s.policies[p].released
    requires s.preparing[p][0].id !in s.aborted
    requires i < |definitions| && definitions[i].acceptable && definitions[i].tool !in s.policies[p].tools
    ensures var t := Step(s, Resolved(p, true, definitions));
      && s.nextId !in t.closed && p in t.policies && s.nextId in t.policies[p].leases
      && definitions[i].tool in t.policies[p].tools
      && t.policies[p].tools[definitions[i].tool] == Binding(s.nextId, s.preparing[p][0].provider)
  {
    hide Accept;
    var binding := Binding(s.nextId, s.preparing[p][0].provider);
    AcceptTakes(s.policies[p].tools, binding, definitions, i);
    AcceptBinds(s.policies[p].tools, binding, definitions);
    StepKeepsInv(s, Resolved(p, true, definitions));
    assert Sound(Step(s, Resolved(p, true, definitions)), p, s.nextId, "", "");
  }

  /** Removing a provider takes its tools from every live run, and no others. */
  lemma RemovalTakesOnlyItsOwn(s: State, provider: string, p: PolicyId, tool: string)
    requires Inv(s) && provider in s.providers && p in s.policies && tool in s.policies[p].tools
    ensures var t := Step(s, RemoveProvider(provider, s.providers[provider]));
      && p in t.policies
      && (tool in t.policies[p].tools <==> s.policies[p].tools[tool].provider != provider || s.policies[p].released)
      && (tool in t.policies[p].tools ==> t.policies[p].tools[tool] == s.policies[p].tools[tool])
  {
    hide LeasedFrom;
  }
}
