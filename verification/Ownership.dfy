/** What the built router guarantees: which claimant owns a domain, and that every eligible claimant is
    routed (bin/orckerd/src/site_domains.rs, `build`). */
module Ownership {
  import opened Text
  import opened Domains
  import opened Config
  import opened Router
  import opened Claims
  import opened SiteDomains
  import opened Insertion
  import opened RouterBuild

  /** The name of the claimant that owns `d` under the claim rules. */
  ghost function OwnerName(p: Plan, d: Domain): Option<string> {
    match Owner(Claimants(p), d)
    case Some(i) => Some(NameAt(p, i))
    case None => None
  }

  /** Claimant `i` of the plan may win and lists `d`. */
  predicate Stakes(p: Plan, i: nat, d: Domain) {
    i < Count(p) && EligibleAt(p, i) && d in EffectiveAt(p, i)
  }

  predicate StakesExplicitly(p: Plan, i: nat, d: Domain) {
    Stakes(p, i, d) && d != NameAt(p, i)
  }

  lemma StakesAreWants(p: Plan, i: nat, d: Domain)
    requires i < Count(p)
    ensures Stakes(p, i, d) == Wants(Claimants(p)[i], d)
    ensures StakesExplicitly(p, i, d) == WantsExplicitly(Claimants(p)[i], d)
  {
    ApexOfName(NameAt(p, i));
  }

  /** The whole plan is in the router, claimant by claimant. */
  lemma PlanHolds(c: Cfg, p: Plan)
    requires GoodPlan(p)
    ensures HoldsExactly(RoutesOf(c, p), EntriesOf(p), Count(p))
  {
    EntriesAreDeconflicted(p);
    RoutesHoldEntries(c.tld, EntriesOf(p), Count(p));
  }

  /** The router's index sends every domain to its declarative owner. */
  lemma PlanOwner(c: Cfg, p: Plan, d: Domain)
    requires GoodPlan(p)
    ensures DomainOwner(RoutesOf(c, p), d) == OwnerName(p, d)
  {
    var es := EntriesOf(p);
    PlanHolds(c, p);
    EntryOwner(RoutesOf(c, p), es, d);
    if Owner(Claimants(p), d).Some? {
      var i := Owner(Claimants(p), d).value;
      StakesAreWants(p, i, d);
      assert es[i] == EntryFor(p, i) && d in es[i].won;
    }
  }

  lemma BuildOwner(c: Cfg, sites: seq<Site>, d: Domain)
    ensures DomainOwner(Build(c, sites), d) == OwnerName(MakePlan(c, sites), d)
  {
    MakePlanIsGood(c, sites);
    PlanOwner(c, MakePlan(c, sites), d);
  }

  /** Nobody has a better claim: an explicit stake only yields to earlier explicit ones, an apex to any. */
  ghost predicate Unbeaten(p: Plan, i: nat, d: Domain)
    requires i < Count(p)
  {
    forall j: nat :: StakesExplicitly(p, j, d) ==> d != NameAt(p, i) && i <= j
  }

  /** Explicit beats implicit, earlier beats later, and nobody owns what no eligible claimant lists. */
  lemma OwnershipRule(c: Cfg, sites: seq<Site>, d: Domain)
    ensures var p, owner := MakePlan(c, sites), DomainOwner(Build(c, sites), d);
            match owner
            case None => forall i: nat :: !Stakes(p, i, d)
            case Some(n) =>
              exists i: nat :: Stakes(p, i, d) && NameAt(p, i) == n && Unbeaten(p, i, d)
  {
    var p, cs := MakePlan(c, sites), Claimants(MakePlan(c, sites));
    BuildOwner(c, sites, d);
    if Owner(cs, d).Some? {
      var i := Owner(cs, d).value;
      assert IsOwner(cs, d, i);
      StakesAreWants(p, i, d);
      forall j: nat | StakesExplicitly(p, j, d) ensures d != NameAt(p, i) && i <= j {
        StakesAreWants(p, j, d);
        assert j != i ==> Beats(cs, d, i, j);
      }
    } else {
      forall i: nat ensures !Stakes(p, i, d) {
        if Stakes(p, i, d) {
          StakesAreWants(p, i, d);
          WantedHasOwner(cs, d);
        }
      }
    }
  }

  /** An implicit tie cannot happen: at most one eligible claimant has a given apex. */
  lemma ApexClaimIsUnique(c: Cfg, sites: seq<Site>, d: Domain, i: nat, j: nat)
    requires var p := MakePlan(c, sites);
             Stakes(p, i, d) && Stakes(p, j, d) && !StakesExplicitly(p, i, d) && !StakesExplicitly(p, j, d)
    ensures i == j
  {
    MakePlanIsGood(c, sites);
    EligibleNamesAreDistinct(MakePlan(c, sites), i, j);
  }

  /** Names are pairwise distinct across sites and proxies; every domain an eligible claimant lists is
      in exactly one claimant's routed set, and that claimant is the indexed owner. */
  lemma EveryClaimIsRoutedOnce(c: Cfg, sites: seq<Site>, i: nat, d: Domain)
    requires Stakes(MakePlan(c, sites), i, d)
    ensures var r := Build(c, sites);
            && r.sites.Keys !! r.proxies.Keys
            && (exists n :: DomainOwner(r, d) == Some(n) && Lists(r.domains, n, d) && NameTaken(r, n)
                  && forall m :: Lists(r.domains, m, d) ==> m == n)
  {
    var p, r := MakePlan(c, sites), Build(c, sites);
    MakePlanIsGood(c, sites);
    PlanHolds(c, p);
    OwnershipRule(c, sites, d);
    var n := DomainOwner(r, d).value;
    assert Lists(r.domains, n, d);
    forall m | Lists(r.domains, m, d) ensures m == n {
      CoherentSetsAreDisjoint(r, m, n, d);
    }
  }

  /** Every planned site, and every proxy no site shadows, is routed under its own name with its own record. */
  lemma EveryEligibleClaimantIsRouted(c: Cfg, sites: seq<Site>, i: nat)
    requires i < Count(MakePlan(c, sites)) && EligibleAt(MakePlan(c, sites), i)
    ensures var p, r := MakePlan(c, sites), Build(c, sites);
            var n := NameAt(p, i);
            && n in r.domains && r.domains[n] == Won(p, i)
            && n in r.primaries && r.primaries[n] == PrimaryAt(p, i)
            && (if i < |p.sites| then n in r.sites && r.sites[n] == p.sites[i].site
                else n in r.proxies && r.proxies[n] == p.proxies[i - |p.sites|].proxy)
  {
    var p := MakePlan(c, sites);
    MakePlanIsGood(c, sites);
    PlanHolds(c, p);
    assert Holds(Build(c, sites), EntriesOf(p)[i]);
  }

  /** The routed sites are exactly the first site of each scanned name. */
  lemma KeptSiteIsRouted(c: Cfg, sites: seq<Site>, s: Site)
    requires s in KeepFirst(sites, SiteName)
    ensures s.name in Build(c, sites).sites && Build(c, sites).sites[s.name] == s
  {
    var kept := KeepFirst(sites, SiteName);
    var i :| 0 <= i < |kept| && kept[i] == s;
    assert MakePlan(c, sites).sites[i].site == s;
    EveryEligibleClaimantIsRouted(c, sites, i);
  }

  lemma RoutedSiteIsKept(c: Cfg, sites: seq<Site>, n: string)
    requires n in Build(c, sites).sites
    ensures Build(c, sites).sites[n].name == n && Build(c, sites).sites[n] in KeepFirst(sites, SiteName)
  {
    var p, r := MakePlan(c, sites), Build(c, sites);
    MakePlanIsGood(c, sites);
    PlanHolds(c, p);
    var k := KeyHasEntry(EntriesOf(p), Count(p), n);
    assert Holds(r, EntryFor(p, k)) by { assert EntriesOf(p)[k] == EntryFor(p, k); }
    assert p.sites[k].site == KeepFirst(sites, SiteName)[k];
  }

  /** A routed site is the first scanned one of its name. */
  lemma RoutedSiteIsFirst(c: Cfg, sites: seq<Site>, n: string) returns (i: nat)
    requires n in Build(c, sites).sites
    ensures i < |sites| && sites[i] == Build(c, sites).sites[n] && sites[i].name == n
    ensures forall j :: 0 <= j < i ==> sites[j].name != n
  {
    RoutedSiteIsKept(c, sites, n);
    i := FirstOfName(sites, Build(c, sites).sites[n]);
  }

  /** What survives keeping the first of each name came before its namesakes. */
  lemma FirstOfName(sites: seq<Site>, s: Site) returns (i: nat)
    requires s in KeepFirst(sites, SiteName)
    ensures i < |sites| && sites[i] == s
    ensures forall j :: 0 <= j < i ==> sites[j].name != s.name
  {
    KeepFirstFacts(sites, SiteName);
    i := 0;
    while sites[i].name != s.name
      invariant i < |sites|
      invariant forall j :: 0 <= j < i ==> sites[j].name != s.name
      decreases |sites| - i
    {
      i := i + 1;
    }
    FirstIsKept(sites, SiteName, i);
  }

  /** Every routed claimant is shown under a concrete domain, one of its own when it holds any. */
  lemma RoutedPrimaryIsConcrete(c: Cfg, sites: seq<Site>, n: string)
    requires n in Build(c, sites).primaries
    ensures var r := Build(c, sites);
            && !IsWildcard(r.primaries[n])
            && n in r.domains
            && (HasExact(r.domains[n]) ==> r.primaries[n] in r.domains[n])
  {
    var p, r := MakePlan(c, sites), Build(c, sites);
    MakePlanIsGood(c, sites);
    PlanHolds(c, p);
    var k := KeyHasEntry(EntriesOf(p), Count(p), n);
    assert Holds(r, EntryFor(p, k)) by { assert EntriesOf(p)[k] == EntryFor(p, k); }
    PrimaryIsConcrete(n, Won(p, k), Some(PlannedPrimaryAt(p, k)));
  }
}
