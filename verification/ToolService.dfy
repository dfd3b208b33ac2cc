/** The tool service's bookkeeping of catalogs, changed in place by the sections between its awaits. */
module ToolService {
  import opened Wrappers
  import opened ToolCatalogs

  /** The catalogs that some policies lease from a provider. */
  function LeasedBy(s: State, provider: string, ids: set<PolicyId>): set<Catalog> {
    set p <- s.policies, c <- s.policies[p].leases | p in ids && s.policies[p].leases[c] == provider :: c
  }

  /** Some policies lose what they have from a provider. */
  function Stripped(s: State, provider: string, ids: set<PolicyId>): State {
    CloseLeases(s, LeasedBy(s, provider, ids)).(
      policies := map p <- s.policies :: if p in ids then Without(s.policies[p], provider) else s.policies[p])
  }

  lemma CloseNone(s: State)
    ensures CloseLeases(s, {}) == s
  {
    assert CloseLeases(s, {}).closeCalls == s.closeCalls;
  }

  lemma CloseMore(s: State, a: set<Catalog>, b: set<Catalog>)
    ensures CloseLeases(CloseLeases(s, a), b) == CloseLeases(s, a + b)
  {
    assert CloseLeases(CloseLeases(s, a), b).closeCalls == CloseLeases(s, a + b).closeCalls;
  }

  lemma StripNone(s: State, provider: string)
    ensures Stripped(s, provider, {}) == s
  {
    assert LeasedBy(s, provider, {}) == {};
    CloseNone(s);
    assert Stripped(s, provider, {}).policies == s.policies;
  }

  lemma StripMore(s: State, provider: string, ids: set<PolicyId>, p: PolicyId)
    requires p in s.policies && p !in ids
    ensures var t := Stripped(s, provider, ids);
      && p in t.policies && t.policies[p] == s.policies[p]
      && CloseLeases(t.(policies := t.policies[p := Without(s.policies[p], provider)]), LeasedBy(s, provider, {p}))
           == Stripped(s, provider, ids + {p})
  {
    var t, u := Stripped(s, provider, ids), Stripped(s, provider, ids + {p});
    assert LeasedBy(s, provider, ids) + LeasedBy(s, provider, {p}) == LeasedBy(s, provider, ids + {p});
    CloseMore(s, LeasedBy(s, provider, ids), LeasedBy(s, provider, {p}));
    assert t.policies[p := Without(s.policies[p], provider)] == u.policies;
  }

  /** The policies of all runs but some. */
  function PoliciesOf(runs: map<string, PolicyId>, except: set<string>): set<PolicyId> {
    set run <- runs | run !in except :: runs[run]
  }

  lemma NoPolicies(runs: map<string, PolicyId>)
    ensures PoliciesOf(runs, runs.Keys) == {}
  {
  }

  lemma OneMorePolicy(runs: map<string, PolicyId>, rest: set<string>, run: string)
    requires run in rest && run in runs && forall other <- runs :: runs[other] == runs[run] ==> other == run
    ensures runs[run] !in PoliciesOf(runs, rest)
    ensures PoliciesOf(runs, rest - {run}) == PoliciesOf(runs, rest) + {runs[run]}
  {
  }

  lemma LeasesOfOne(s: State, provider: string, p: PolicyId)
    requires p in s.policies
    ensures LeasedBy(s, provider, {p}) == set c <- s.policies[p].leases | s.policies[p].leases[c] == provider
  {
  }

  /** The policies of the live runs are the ones that were not released. */
  lemma LivePolicies(s: State, provider: string, registration: nat)
    requires Inv(s) && provider in s.providers && s.providers[provider] == registration
    ensures Remove(s, provider, registration) ==
        Stripped(s, provider, PoliciesOf(s.runs, {})).(providers := s.providers - {provider}, aborted := s.aborted + {registration})
  {
    var ids := PoliciesOf(s.runs, {});
    forall p | p in s.policies
      ensures p in ids <==> !s.policies[p].released
    {
      assert Sound(s, p, 0, "", s.policies[p].run);
      forall run | run in s.runs && s.runs[run] == p
        ensures !s.policies[p].released
      {
        assert Sound(s, p, 0, "", run);
      }
    }
    assert LeasedBy(s, provider, ids) == LeasedFrom(s, provider);
  }

  class ToolService {
    var providers: map<string, nat>
    var aborted: set<nat>
    var runs: map<string, PolicyId>
    var policies: map<PolicyId, Policy>
    var preparing: map<PolicyId, seq<Registration>>
    var closed: set<Catalog>
    var nextId: nat
    ghost var home: map<Catalog, PolicyId>
    ghost var closeCalls: map<Catalog, nat>

    ghost function Now(): State
      reads this
    {
      State(providers, aborted, runs, policies, preparing, closed, nextId, home, closeCalls)
    }

    constructor ()
      ensures Now() == EMPTY
    {
      providers, aborted, runs, policies, preparing, closed, nextId := map[], {}, map[], map[], map[], {}, 0;
      home, closeCalls := map[], map[];
    }

    /** Closes a catalog unless it was closed before. */
    method CloseLease(c: Catalog)
      modifies this`closed, this`closeCalls
      ensures Now() == CloseLeases(old(Now()), {c})
    {
      if c in closed {
        assert CloseLeases(Now(), {c}).closeCalls == closeCalls;
        assert closed + {c} == closed;
        return;
      }
      closed := closed + {c};
      closeCalls := map d <- closeCalls :: closeCalls[d] + if d == c then 1 else 0;
    }

    method CloseAll(catalogs: set<Catalog>)
      modifies this`closed, this`closeCalls
      ensures Now() == CloseLeases(old(Now()), catalogs)
    {
      hide CloseLeases;
      CloseNone(Now());
      var rest := catalogs;
      assert catalogs - rest == {};
      while rest != {}
        invariant rest <= catalogs && Now() == CloseLeases(old(Now()), catalogs - rest)
      {
        ghost var some := AnyMember(rest);
        var c :| c in rest;
        CloseMore(old(Now()), catalogs - rest, {c});
        CloseLease(c);
        assert catalogs - (rest - {c}) == (catalogs - rest) + {c};
        rest := rest - {c};
      }
      assert catalogs - rest == catalogs;
    }

    method StripRun(run: string, provider: string, ghost before: State, ghost done: set<PolicyId>)
      requires run in runs && runs[run] in before.policies && runs[run] !in done
      requires Now() == Stripped(before, provider, done)
      modifies this`policies, this`closed, this`closeCalls
      ensures Now() == Stripped(before, provider, done + {runs[run]})
    {
      hide CloseLeases, Without, Stripped, LeasedBy;
      var p := runs[run];
      StripMore(before, provider, done, p);
      LeasesOfOne(before, provider, p);
      var policy := policies[p];
      var mine := set c <- policy.leases | policy.leases[c] == provider;
      assert mine == LeasedBy(before, provider, {p});
      policies := policies[p := Without(policy, provider)];
      CloseAll(mine);
    }

    method StripAll(provider: string)
      requires Inv(Now())
      modifies this`policies, this`closed, this`closeCalls
      ensures Now() == Stripped(old(Now()), provider, PoliciesOf(runs, {}))
    {
      hide Inv, Stripped, PoliciesOf;
      ghost var before := Now();
      StripNone(before, provider);
      var rest := runs.Keys;
      NoPolicies(runs);
      while rest != {}
        invariant rest <= runs.Keys
        invariant Now() == Stripped(before, provider, PoliciesOf(runs, rest))
      {
        ghost var some := AnyMember(rest);
        var run :| run in rest;
        RunsHaveOwnPolicies(before, run);
        OneMorePolicy(runs, rest, run);
        StripRun(run, provider, before, PoliciesOf(runs, rest));
        rest := rest - {run};
      }
    }

    /** Every live run loses the provider's tools, and the catalogs it leases from it are closed. */
    method RemoveProvider(provider: string, registration: nat)
      requires Inv(Now())
      modifies this`providers, this`aborted, this`policies, this`closed, this`closeCalls
      ensures Inv(Now()) && Now() == Step(old(Now()), Event.RemoveProvider(provider, registration))
    {
      hide Inv, Stripped;
      StepKeepsInv(Now(), Event.RemoveProvider(provider, registration));
      if provider !in providers || providers[provider] != registration {
        return;
      }
      hide Remove;
      LivePolicies(Now(), provider, registration);
      StripAll(provider);
      providers := providers - {provider};
      aborted := aborted + {registration};
    }

    /** The run is gone: its leases end and its tools with them. */
    method DisposePolicy(run: string, p: PolicyId)
      requires Inv(Now())
      modifies this`runs, this`policies, this`closed, this`closeCalls
      ensures Inv(Now()) && Now() == Step(old(Now()), DisposeRun(run, p))
    {
      hide Inv;
      StepKeepsInv(Now(), DisposeRun(run, p));
      if run !in runs || runs[run] != p || p !in policies {
        return;
      }
      runs := runs - {run};
      CloseAll(policies[p].leases.Keys);
      policies := policies[p := policies[p].(released := true, leases := map[], tools := map[])];
    }

    /** The tools of a catalog that are acceptable and not yet taken, in their order. */
    method AcceptCatalog(p: PolicyId, provider: string, catalog: Catalog, definitions: seq<Definition>)
      requires p in policies
      modifies this`policies
      ensures Now() == old(Now()).(policies := old(policies)[p := old(policies[p]).(
                tools := Accept(old(policies[p].tools), Binding(catalog, provider), definitions))])
    {
      var tools := policies[p].tools;
      var binding := Binding(catalog, provider);
      for i := 0 to |definitions|
        invariant Accept(tools, binding, definitions[i..]) == Accept(policies[p].tools, binding, definitions)
      {
        var d := definitions[i];
        assert definitions[i..][1..] == definitions[i + 1..];
        if d.acceptable && d.tool !in tools {
          tools := tools[d.tool := binding];
        }
      }
      policies := policies[p := policies[p].(tools := tools)];
    }

    method Continue(p: PolicyId, rest: seq<Registration>)
      requires p in policies
      modifies this`policies, this`preparing
      ensures Now() == Advance(old(Now()), p, rest)
    {
      if rest == [] {
        preparing := preparing - {p};
        policies := policies[p := policies[p].(prepared := true)];
      } else {
        preparing := preparing[p := rest];
      }
    }

    method Receive(p: PolicyId) returns (catalog: Catalog)
      modifies this`closeCalls, this`home, this`nextId
      ensures catalog == old(nextId) && Now() == Received(old(Now()), p)
    {
      catalog := nextId;
      nextId, home, closeCalls := nextId + 1, home[catalog := p], closeCalls[catalog := 0];
    }

    method Lease(p: PolicyId, provider: string, definitions: seq<Definition>)
      requires p in policies
      modifies this`policies, this`closeCalls, this`home, this`nextId
      ensures Now() == Leased(old(Now()), p, provider, definitions)
    {
      hide Accept;
      var catalog := Receive(p);
      AcceptCatalog(p, provider, catalog, definitions);
      policies := policies[p := policies[p].(leases := policies[p].leases[catalog := provider])];
    }

    /** A provider has prepared a catalog: it is leased, unless the run or the provider has gone, or it cannot be used. */
    method CatalogArrived(p: PolicyId, executable: bool, definitions: seq<Definition>)
      requires Inv(Now())
      modifies this`policies, this`preparing, this`closed, this`closeCalls, this`home, this`nextId
      ensures Inv(Now()) && Now() == Step(old(Now()), Resolved(p, executable, definitions))
    {
      hide Inv, Advance;
      StepKeepsInv(Now(), Resolved(p, executable, definitions));
      if p !in preparing || preparing[p] == [] || p !in policies {
        return;
      }
      var registration, rest := preparing[p][0], preparing[p][1..];
      if policies[p].released || registration.id in aborted || !executable {
        var gone := policies[p].released;
        var catalog := Receive(p);
        CloseLease(catalog);
        if gone {
          preparing := preparing - {p};
        } else {
          Continue(p, rest);
        }
        return;
      }
      hide CloseLeases, Received;
      Lease(p, registration.provider, definitions);
      assert p in policies;
      Continue(p, rest);
    }
  }

  lemma RunsHaveOwnPolicies(s: State, run: string)
    requires Inv(s) && run in s.runs
    ensures s.runs[run] in s.policies
    ensures forall other <- s.runs :: s.runs[other] == s.runs[run] ==> other == run
  {
    assert Sound(s, s.runs[run], 0, "", run);
    forall other | other in s.runs && s.runs[other] == s.runs[run]
      ensures other == run
    {
      assert Sound(s, s.runs[run], 0, "", other);
    }
  }
}
