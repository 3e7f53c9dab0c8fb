/** What ResetDomains gives back: a claimant as if it had never been customised
    (bin/orckerd/src/mutate.rs:781-802 together with bin/orckerd/src/site_domains.rs). */
module DomainReset {
  import opened Text
  import opened Domains
  import opened Config
  import opened Router
  import opened Claims
  import opened Insertion
  import opened SiteDomains
  import opened RouterBuild
  import opened Ownership
  import opened Mutate
  import opened DomainRequests

  lemma DefaultSet(n: Name)
    ensures EffectiveOf(n, NO_DELTA) == [n] && PrimaryOf(n, NO_DELTA) == n
  {
    ApexOfName(n);
    assert AppendNew([n], []) == [n];
    assert !IsWildcard([n][0]);
  }

  /** Claimant `i` gives up everything but its own apex: whatever another claimant owned, it keeps. */
  lemma OthersKeep(cs: seq<Claimant>, cs': seq<Claimant>, i: nat, x: Domain, k: nat)
    requires DiffersAt(cs, cs', i) && cs'[i].effective == [cs[i].apex]
    requires k != i && Owner(cs, x) == Some(k) && cs[k].apex != cs[i].apex
    ensures Owner(cs', x) == Some(k)
  {
    assert IsOwner(cs, x, k);
    assert !WantsExplicitly(cs'[i], x);
    assert IsOwner(cs', x, k);
  }

  /** The claimant of a reset edit wins its apex or nothing. */
  lemma ResetWins(p: Plan, i: nat, n: Name)
    requires i < Count(p) && EffectiveAt(p, i) == [n] && NameAt(p, i) == n && PlannedPrimaryAt(p, i) == n
    ensures Won(p, i) == if Owner(Claimants(p), n) == Some(i) then [n] else []
    ensures PrimaryAt(p, i) == n
  {
    ApexOfName(n);
    assert [n][..0] == [];
    assert OwnedBy(Claimants(p), i, []) == [];
  }

  /** An edit that stores nothing. */
  ghost predicate IsReset(e: Edit) { e.Valid() && e.d == NO_DELTA }

  lemma ResetPlan(e: Edit)
    requires IsReset(e)
    ensures var n, p' := NameAt(e.Before(), e.i), e.After();
            && GoodPlan(p') && e.i < Count(p') && NameAt(p', e.i) == n && EligibleAt(p', e.i)
            && EffectiveAt(p', e.i) == [n] && PlannedPrimaryAt(p', e.i) == n
  {
    EditDiffers(e);
    SameShapeNames(e.Before(), e.After(), e.i);
    DefaultSet(NameAt(e.Before(), e.i));
  }

  /** A claimant offered its apex alone is routed with that, or with nothing where another claims it. */
  lemma ApexAloneIsRouted(c: Cfg, p: Plan, i: nat, n: Name)
    requires GoodPlan(p) && i < Count(p) && NameAt(p, i) == n && EligibleAt(p, i)
    requires EffectiveAt(p, i) == [n] && PlannedPrimaryAt(p, i) == n
    ensures var r := RoutesOf(c, p);
            && n in r.domains && r.domains[n] == (if DomainOwner(r, n) == Some(n) then [n] else [])
            && n in r.primaries && r.primaries[n] == n
  {
    PlanHolds(c, p);
    assert Holds(RoutesOf(c, p), EntryFor(p, i)) by { assert EntriesOf(p)[i] == EntryFor(p, i); }
    ResetWins(p, i, n);
    PlanOwner(c, p, n);
    OwnerNameIs(p, i, n);
  }

  lemma ApexAloneIsOwned(c: Cfg, p: Plan, i: nat, n: Name, x: Domain)
    requires GoodPlan(p) && i < Count(p) && NameAt(p, i) == n && EligibleAt(p, i) && EffectiveAt(p, i) == [n]
    ensures DomainOwner(RoutesOf(c, p), x) == Some(n) ==> x == n
  {
    PlanOwner(c, p, x);
    OwnerNameIs(p, i, x);
    if Owner(Claimants(p), x) == Some(i) { assert IsOwner(Claimants(p), x, i); }
  }

  lemma ResetRoutes(e: Edit)
    requires IsReset(e)
    ensures var n, r' := NameAt(e.Before(), e.i), Build(e.c', e.sites);
            && n in r'.domains && r'.domains[n] == (if DomainOwner(r', n) == Some(n) then [n] else [])
            && n in r'.primaries && r'.primaries[n] == n
            && (forall x :: DomainOwner(r', x) == Some(n) ==> x == n)
  {
    var n := NameAt(e.Before(), e.i);
    ResetPlan(e);
    ApexAloneIsRouted(e.c', e.After(), e.i, n);
    forall x ensures DomainOwner(Build(e.c', e.sites), x) == Some(n) ==> x == n {
      ApexAloneIsOwned(e.c', e.After(), e.i, n, x);
    }
  }

  lemma ResetSparesOthers(e: Edit, x: Domain)
    requires IsReset(e)
    ensures var n, r, r' := NameAt(e.Before(), e.i), Build(e.c, e.sites), Build(e.c', e.sites);
            DomainOwner(r, x).Some? && DomainOwner(r, x) != Some(n) ==> DomainOwner(r', x) == DomainOwner(r, x)
  {
    var n, p, p' := NameAt(e.Before(), e.i), e.Before(), e.After();
    EditDiffers(e);
    ResetPlan(e);
    OwnerNames(e, x);
    if Owner(Claimants(p), x).Some? && Owner(Claimants(p), x) != Some(e.i) {
      var k := Owner(Claimants(p), x).value;
      assert IsOwner(Claimants(p), x, k);
      ApexOfName(NameAt(p, k));
      ApexOfName(n);
      if NameAt(p, k) == n { EligibleNamesAreDistinct(p, k, e.i); }
      OthersKeep(Claimants(p), Claimants(p'), e.i, x, k);
    }
  }

  /** The stored deltas after a reset: the one of the claimant that `name` resolves to is gone, no other moved. */
  ghost predicate ForgetsOnly(c: Cfg, r: Routes, name: string, c': Cfg) {
    && c' == c.(domains := c'.domains)
    && (if IsLinked(c, name) then
          c'.domains == DomainsSection(c.domains.linked - {name}, c.domains.parked, c.domains.proxy)
        else if name in r.sites then
          c'.domains == DomainsSection(c.domains.linked, c.domains.parked - {r.sites[name].root}, c.domains.proxy)
        else c'.domains == DomainsSection(c.domains.linked, c.domains.parked, c.domains.proxy - {name}))
  }

  /** ResetDomains is accepted exactly for a linked site, a routed site or a configured proxy. Its delta is
      then gone and no other touched; once the router is rebuilt the claimant is offered its apex alone, owns
      no other domain, shows its apex, and whatever anyone else owned they still do. */
  lemma ResetRestoresDefault(c: Cfg, sites: seq<Site>, raw: string)
    requires ScanOf(c, sites) && DistinctRoots(sites)
    ensures var r, n := Build(c, sites), ToAsciiLower(raw);
            var o := DoResetDomains(c, r, raw);
            && (o.error.None? <==> IsLinked(c, n) || n in r.sites || IsProxy(c, n))
            && (o.error.None? ==>
                  var r', p' := Build(o.cfg, sites), MakePlan(o.cfg, sites);
                  && ForgetsOnly(c, r, n, o.cfg)
                  && (exists i: nat :: i < Count(p') && EligibleAt(p', i) && NameAt(p', i) == n
                                       && EffectiveAt(p', i) == [n])
                  && n in r'.domains && r'.domains[n] == (if DomainOwner(r', n) == Some(n) then [n] else [])
                  && n in r'.primaries && r'.primaries[n] == n
                  && (forall x :: DomainOwner(r', x) == Some(n) ==> x == n)
                  && (forall x :: DomainOwner(r, x).Some? && DomainOwner(r, x) != Some(n) ==>
                        DomainOwner(r', x) == DomainOwner(r, x)))
  {
    var r, n := Build(c, sites), ToAsciiLower(raw);
    if ResolveTarget(c, r, n).Some? {
      var e := ResolvedEdit(c, sites, n, NO_DELTA);
      assert e.c' == DoResetDomains(c, r, raw).cfg;
      ResetPlan(e);
      ResetRoutes(e);
      forall x ensures DomainOwner(r, x).Some? && DomainOwner(r, x) != Some(n) ==>
                         DomainOwner(Build(e.c', sites), x) == DomainOwner(r, x) {
        ResetSparesOthers(e, x);
      }
    }
  }
}
