/** What each event does to the runs, their tools and their catalogs, said of the states before and after it. */
module CatalogEffects {
  import opened ToolCatalogs

  /** Nothing but these policies changes. */
  predicate OtherPoliciesStay(s: State, t: State, ids: set<PolicyId>) {
    && s.policies.Keys <= t.policies.Keys <= s.policies.Keys + ids
    && forall p <- s.policies :: p !in ids ==> t.policies[p] == s.policies[p]
  }

  /** Exactly these catalogs are closed now, and not before. */
  predicate NowClosed(s: State, t: State, catalogs: set<Catalog>) {
    && t.closed == s.closed + catalogs && s.closed !! catalogs
    && forall c <- catalogs :: c in t.closeCalls && t.closeCalls[c] == 1
  }

  predicate IsNewRun(s: State, t: State, run: string) {
    run in t.runs &&
    var p := t.runs[run];
    p !in s.policies && p in t.policies && t.policies[p] == Policy(run, map[], map[], false, false)
  }

  /** A run that is registered has a policy of its own, without tools. */
  lemma RunIsRegistered(s: State, run: string)
    requires Inv(s)
    ensures var t := Step(s, RegisterRun(run));
      if run in s.runs then t == s
      else
        && IsNewRun(s, t, run) && OtherPoliciesStay(s, t, {t.runs[run]}) && NowClosed(s, t, {})
        && t.runs - {run} == s.runs && t.providers == s.providers && t.preparing == s.preparing
  {
    PolicyIdsBelowNext(s);
  }

  /** A provider that is registered has a registration of its own that is not aborted. */
  lemma ProviderIsRegistered(s: State, provider: string)
    requires Inv(s)
    ensures var t := Step(s, RegisterProvider(provider));
      if provider in s.providers then t == s
      else
        && provider in t.providers && t.providers[provider] !in t.aborted && t.providers - {provider} == s.providers
        && (forall other <- s.providers :: s.providers[other] != t.providers[provider])
        && OtherPoliciesStay(s, t, {}) && NowClosed(s, t, {}) && t.runs == s.runs && t.preparing == s.preparing
  {
    forall other | other in s.providers
      ensures s.providers[other] < s.nextId
    {
      assert ProvidersOk(s, other, other);
    }
  }

  /** A provider that is removed is gone, and the live runs lose what they have from it: its tools, and its catalogs, which are closed. */
  lemma ProviderIsRemoved(s: State, provider: string, p: PolicyId, c: Catalog)
    requires Inv(s) && provider in s.providers
    ensures var t := Step(s, RemoveProvider(provider, s.providers[provider]));
      && t.providers == s.providers - {provider} && s.providers[provider] in t.aborted && t.runs == s.runs
      && (p in s.policies ==>
            && p in t.policies && t.policies[p].released == s.policies[p].released && t.policies[p].prepared == s.policies[p].prepared
            && (c in s.policies[p].leases ==>
                  if s.policies[p].leases[c] == provider then c !in t.policies[p].leases && c in t.closed && c in t.closeCalls && t.closeCalls[c] == 1
                  else c in t.policies[p].leases && t.policies[p].leases[c] == s.policies[p].leases[c] && c !in t.closed))
  {
    var e := RemoveProvider(provider, s.providers[provider]);
    var t := Step(s, e);
    StepKeepsInv(s, e);
    assert Sound(s, p, c, "", "") && Sound(t, p, c, "", "");
    if p in s.policies && c in s.policies[p].leases {
      if c in LeasedFrom(s, provider) {
        var q :| q in s.policies && c in s.policies[q].leases && !s.policies[q].released && s.policies[q].leases[c] == provider;
        assert Sound(s, q, c, "", "");
      }
    }
  }

  /**
   * A run that is disposed is gone: its policy is released and has no tools and no
   * leases, and every catalog that it leased is closed. Other runs keep all they have.
   */
  lemma RunIsDisposed(s: State, run: string)
    requires Inv(s) && run in s.runs
    ensures s.runs[run] in s.policies
    ensures var p := s.runs[run]; var t := Step(s, DisposeRun(run, p));
      && run !in t.runs && t.runs == s.runs - {run}
      && p in t.policies && t.policies[p].released && t.policies[p].tools == map[] && t.policies[p].leases == map[]
      && NowClosed(s, t, s.policies[p].leases.Keys) && OtherPoliciesStay(s, t, {p})
      && t.providers == s.providers && t.preparing == s.preparing
  {
    var p := s.runs[run];
    var t := Step(s, DisposeRun(run, p));
    assert Sound(s, p, 0, "", run);
    forall c | c in s.policies[p].leases
      ensures c !in s.closed && c in t.closeCalls && t.closeCalls[c] == 1
    {
      assert Sound(s, p, c, "", run);
    }
  }

  /** A disposal by what is no longer the run's policy changes nothing. */
  lemma StaleDisposalIsIgnored(s: State, run: string, p: PolicyId)
    requires run in s.runs ==> s.runs[run] != p
    ensures Step(s, DisposeRun(run, p)) == s
  {
  }

  lemma ArrivalKeepsReleased(s: State, p: PolicyId, executable: bool, definitions: seq<Definition>, q: PolicyId)
    requires q in s.policies && s.policies[q].released
    ensures q in Arrive(s, p, executable, definitions).policies && Arrive(s, p, executable, definitions).policies[q].released
  {
    hide Accept;
  }

  lemma StepKeepsReleased(s: State, e: Event, p: PolicyId)
    requires Inv(s) && p in s.policies && s.policies[p].released
    ensures p in Step(s, e).policies && Step(s, e).policies[p].released
  {
    hide Accept, LeasedFrom, Arrive, Inv;
    PolicyIdsBelowNext(s);
    if e.Resolved? {
      ArrivalKeepsReleased(s, e.policy, e.executable, e.definitions, p);
    }
  }

  lemma {:induction false} ReleasedForGood(s: State, events: seq<Event>, p: PolicyId)
    requires Inv(s) && p in s.policies && s.policies[p].released
    ensures p in Run(s, events).policies && Run(s, events).policies[p].released
    decreases |events|
  {
    hide Inv, Step;
    if events != [] {
      StepKeepsInv(s, events[0]);
      StepKeepsReleased(s, events[0], p);
      ReleasedForGood(Step(s, events[0]), events[1..], p);
    }
  }

  lemma {:induction false} RunInTwo(s: State, events: seq<Event>, more: seq<Event>)
    ensures Run(s, events + more) == Run(Run(s, events), more)
    decreases |events|
  {
    hide Step;
    if events == [] {
      assert events + more == more;
    } else {
      RunInTwo(Step(s, events[0]), events[1..], more);
      assert (events + more)[0] == events[0] && (events + more)[1..] == events[1..] + more;
    }
  }

  /** At some point of a run, a run was disposed by its own policy. */
  predicate Disposed(events: seq<Event>, i: nat, p: PolicyId)
    requires i < |events|
  {
    var s := Run(EMPTY, events[..i]);
    events[i].DisposeRun? && events[i].policy == p && events[i].run in s.runs && s.runs[events[i].run] == p
  }

  lemma DisposedIsReleased(events: seq<Event>, i: nat, p: PolicyId)
    requires i < |events| && Disposed(events, i, p)
    ensures p in Run(EMPTY, events).policies && Run(EMPTY, events).policies[p].released
  {
    hide Step, Inv;
    var s := Run(EMPTY, events[..i]);
    InvOfEmpty();
    ReachableInv(EMPTY, events[..i]);
    RunIsDisposed(s, events[i].run);
    StepKeepsInv(s, events[i]);
    ReleasedForGood(Step(s, events[i]), events[i + 1..], p);
    RunInTwo(EMPTY, events[..i], events[i..]);
    assert events == events[..i] + events[i..] && events[i..][0] == events[i] && events[i..][1..] == events[i + 1..];
  }

  lemma InvOfEmpty()
    ensures Inv(EMPTY)
  {
  }

  /** Each catalog is closed at most once, and once its run was disposed exactly once, whenever it arrived. */
  lemma ClosedExactlyOnce(events: seq<Event>, c: Catalog)
    requires c in Run(EMPTY, events).home
    ensures var s := Run(EMPTY, events);
      && c in s.closeCalls && s.closeCalls[c] <= 1 && s.home[c] in s.policies
      && (s.closeCalls[c] == 0 <==> c in s.policies[s.home[c]].leases)
      && ((exists i: nat :: i < |events| && Disposed(events, i, s.home[c])) ==> c in s.closed && s.closeCalls[c] == 1)
  {
    hide Run, Inv, Disposed;
    var s := Run(EMPTY, events);
    InvOfEmpty();
    ReachableInv(EMPTY, events);
    CatalogIsSound(s, c);
    if i: nat :| i < |events| && Disposed(events, i, s.home[c]) {
      DisposedIsReleased(events, i, s.home[c]);
    }
  }

  lemma CatalogIsSound(s: State, c: Catalog)
    requires Inv(s) && c in s.home
    ensures c in s.closeCalls && s.closeCalls[c] <= 1 && s.home[c] in s.policies
    ensures s.closeCalls[c] == 0 <==> c in s.policies[s.home[c]].leases
    ensures s.closeCalls[c] == 1 <==> c in s.closed
    ensures s.policies[s.home[c]].released ==> s.policies[s.home[c]].leases == map[]
  {
    assert Sound(s, s.home[c], c, "", "");
  }

  // ----- Preparations

  /** A preparation begins with the registrations there are, for a live run that is not prepared or preparing. */
  lemma PreparationBegins(s: State, run: string, order: seq<Registration>)
    requires Inv(s)
    ensures var t := Step(s, BeginPrepare(run, order));
      if run in s.runs && s.runs[run] in s.policies && !s.policies[s.runs[run]].prepared && s.runs[run] !in s.preparing
        && (forall r <- order :: r.provider in s.providers && s.providers[r.provider] == r.id)
      then Awaiting(s, t, s.runs[run], order)
      else t == s
  {
  }

  /** What a preparation waits for from now on; when that is nothing, the run is prepared. */
  predicate Awaiting(s: State, t: State, p: PolicyId, rest: seq<Registration>) {
    && p in s.policies && p in t.policies
    && (if rest == [] then p !in t.preparing else p in t.preparing && t.preparing[p] == rest)
    && t.policies[p].prepared == (s.policies[p].prepared || rest == [])
    && t.preparing - {p} == s.preparing - {p} && t.runs == s.runs && t.providers == s.providers
    && OtherPoliciesStay(s, t, {p})
  }

  /** Whatever becomes of a catalog, the preparation of a live run goes on with the next provider. */
  lemma PreparationGoesOn(s: State, p: PolicyId, e: Event)
    requires Inv(s) && p in s.preparing && s.preparing[p] != [] && p in s.policies && !s.policies[p].released
    requires (e.Resolved? || e.Rejected?) && e.policy == p
    ensures Awaiting(s, Step(s, e), p, s.preparing[p][1..])
    ensures e.Rejected? ==> Unserved(s, Step(s, e), p)
  {
    hide Accept, CloseLeases, Leased, Received, Inv, Advance;
    var rest := s.preparing[p][1..];
    AdvanceAwaits(s, s, p, rest);
    if e.Resolved? {
      var closed := CloseLeases(Received(s, p), {s.nextId});
      var leased := Leased(s, p, s.preparing[p][0].provider, e.definitions);
      ArrivalChangesOne(s, p, s.preparing[p][0].provider, e.definitions);
      AdvanceAwaits(s, closed, p, rest);
      AdvanceAwaits(s, leased, p, rest);
    }
  }

  predicate Unserved(s: State, t: State, p: PolicyId)
    requires p in s.policies
  {
    && p in t.policies && t.policies[p].tools == s.policies[p].tools && t.policies[p].leases == s.policies[p].leases
    && t.closed == s.closed && t.home == s.home
  }

  lemma ArrivalChangesOne(s: State, p: PolicyId, provider: string, definitions: seq<Definition>)
    requires p in s.policies
    ensures ChangesOne(s, CloseLeases(Received(s, p), {s.nextId}), p) && ChangesOne(s, Leased(s, p, provider, definitions), p)
  {
    hide Accept;
  }

  predicate ChangesOne(s: State, t: State, p: PolicyId) {
    && p in s.policies && p in t.policies && t.policies[p].prepared == s.policies[p].prepared
    && t.preparing == s.preparing && t.runs == s.runs && t.providers == s.providers && OtherPoliciesStay(s, t, {p})
  }

  lemma AdvanceAwaits(s: State, m: State, p: PolicyId, rest: seq<Registration>)
    requires ChangesOne(s, m, p)
    ensures Awaiting(s, Advance(m, p, rest), p, rest)
    ensures m == s ==> Unserved(s, Advance(m, p, rest), p)
  {
  }

  /** A preparation of a run that is gone ends. */
  lemma PreparationEnds(s: State, p: PolicyId, e: Event)
    requires Inv(s) && p in s.preparing && s.preparing[p] != [] && p in s.policies && s.policies[p].released
    requires (e.Resolved? || e.Rejected?) && e.policy == p
    ensures Step(s, e).preparing == s.preparing - {p} && Step(s, e).policies == s.policies
  {
  }

  /** A catalog that arrives too late, or that cannot be used, is closed and serves nothing. */
  lemma LateArrivalIsClosed(s: State, p: PolicyId, executable: bool, definitions: seq<Definition>)
    requires Inv(s) && p in s.preparing && s.preparing[p] != [] && p in s.policies
    requires s.policies[p].released || s.preparing[p][0].id in s.aborted || !executable
    ensures var t := Step(s, Resolved(p, executable, definitions));
      && NowClosed(s, t, {s.nextId}) && s.nextId in t.home && t.home[s.nextId] == p
      && p in t.policies && t.policies[p].tools == s.policies[p].tools && t.policies[p].leases == s.policies[p].leases
  {
    assert Sound(s, p, s.nextId, "", "");
  }
}
