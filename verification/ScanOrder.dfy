/** Directory scans come back in any order. When that can matter, and when it cannot
    (bin/orckerd/src/site_domains.rs:111-116; bin/orckerd/src/ipc_server.rs, `build_status_report`). */
module ScanOrder {
  import opened Text
  import opened Domains
  import opened Config
  import opened Router
  import opened Claims
  import opened SiteDomains
  import opened Insertion
  import opened RouterBuild
  import opened Ownership
  import opened Collisions

  /** The same plans with the sites in another order. */
  ghost predicate Shuffled(p: Plan, q: Plan) {
    && p.proxies == q.proxies
    && |p.sites| == |q.sites|
    && (forall i :: 0 <= i < |p.sites| ==> p.sites[i] in q.sites)
    && (forall i :: 0 <= i < |q.sites| ==> q.sites[i] in p.sites)
  }

  /** `d` is not wanted explicitly by two sites. */
  ghost predicate ApartAt(p: Plan, d: Domain) {
    forall i: nat, j: nat :: i < j < |p.sites| && StakesExplicitly(p, i, d) ==> !StakesExplicitly(p, j, d)
  }

  /** No domain is. */
  ghost predicate ExplicitSitesApart(p: Plan) {
    forall d :: ApartAt(p, d)
  }

  /** `j` in `q` is the claimant that `i` is in `p`. */
  predicate SameClaimant(p: Plan, i: nat, q: Plan, j: nat) {
    && i < Count(p) && j < Count(q)
    && (if i < |p.sites| then j < |q.sites| && p.sites[i] == q.sites[j]
        else j >= |q.sites| && i - |p.sites| == j - |q.sites| && p.proxies[i - |p.sites|] == q.proxies[j - |q.sites|])
  }

  lemma Counterpart(p: Plan, i: nat, q: Plan) returns (j: nat)
    requires Shuffled(p, q) && i < Count(p)
    ensures SameClaimant(p, i, q, j)
  {
    if i < |p.sites| {
      j :| 0 <= j < |q.sites| && q.sites[j] == p.sites[i];
    } else {
      j := i;
    }
  }

  lemma SameStakes(p: Plan, i: nat, q: Plan, j: nat, d: Domain)
    requires SameClaimant(p, i, q, j)
    ensures NameAt(p, i) == NameAt(q, j) && EffectiveAt(p, i) == EffectiveAt(q, j)
    ensures EligibleAt(p, i) == EligibleAt(q, j)
    ensures Stakes(p, i, d) == Stakes(q, j, d) && StakesExplicitly(p, i, d) == StakesExplicitly(q, j, d)
    ensures Wants(Claimants(p)[i], d) == Wants(Claimants(q)[j], d)
    ensures WantsExplicitly(Claimants(p)[i], d) == WantsExplicitly(Claimants(q)[j], d)
  {
    StakesAreWants(p, i, d);
    StakesAreWants(q, j, d);
  }

  /** Between two claimants of `d`, the shuffle does not change who is ahead. */
  lemma BeatsSurvives(p: Plan, i: nat, j: nat, q: Plan, i': nat, j': nat, d: Domain)
    requires GoodPlan(p) && ApartAt(p, d) && Shuffled(p, q)
    requires SameClaimant(p, i, q, i') && SameClaimant(p, j, q, j') && i != j
    requires Wants(Claimants(p)[i], d) && Wants(Claimants(p)[j], d) && Beats(Claimants(p), d, i, j)
    ensures Beats(Claimants(q), d, i', j')
  {
    StakesAreWants(p, i, d);
    StakesAreWants(p, j, d);
    SameStakes(p, i, q, i', d);
    SameStakes(p, j, q, j', d);
    if !StakesExplicitly(p, i, d) && !StakesExplicitly(p, j, d) {
      EligibleNamesAreDistinct(p, i, j);
    }
  }

  lemma OwnerSurvives(p: Plan, q: Plan, d: Domain, i: nat, j: nat)
    requires GoodPlan(p) && GoodPlan(q) && ApartAt(p, d) && Shuffled(p, q)
    requires SameClaimant(p, i, q, j) && Owner(Claimants(p), d) == Some(i)
    ensures Owner(Claimants(q), d) == Some(j)
  {
    var cs, ds := Claimants(p), Claimants(q);
    assert IsOwner(cs, d, i);
    SameStakes(p, i, q, j, d);
    forall k': nat | k' < |ds| && k' != j && Wants(ds[k'], d) ensures Beats(ds, d, j, k') {
      var k := Counterpart(q, k', p);
      SameStakes(q, k', p, k, d);
      if k != i {
        BeatsSurvives(p, i, k, q, j, k', d);
      } else {
        EligibleNamesAreDistinct(q, j, k');
      }
    }
    assert IsOwner(ds, d, j);
  }

  lemma ApartSurvives(p: Plan, q: Plan, d: Domain)
    requires GoodPlan(p) && GoodPlan(q) && Shuffled(p, q) && ApartAt(p, d)
    ensures ApartAt(q, d)
  {
    forall i': nat, j': nat | i' < j' < |q.sites| && StakesExplicitly(q, i', d) ensures !StakesExplicitly(q, j', d) {
      var i := Counterpart(q, i', p);
      var j := Counterpart(q, j', p);
      SameStakes(q, i', p, i, d);
      SameStakes(q, j', p, j, d);
      assert i != j by { assert q.sites[i'].site.name != q.sites[j'].site.name; }
      if i < j {
        assert StakesExplicitly(p, i, d) ==> !StakesExplicitly(p, j, d);
      } else {
        assert StakesExplicitly(p, j, d) ==> !StakesExplicitly(p, i, d);
      }
    }
  }

  /** Corresponding claimants win the same domains. */
  lemma SameEntry(p: Plan, i: nat, q: Plan, j: nat)
    requires GoodPlan(p) && GoodPlan(q) && ExplicitSitesApart(p) && ExplicitSitesApart(q)
    requires Shuffled(p, q) && SameClaimant(p, i, q, j)
    ensures EntryFor(p, i) == EntryFor(q, j)
  {
    forall d ensures Owner(Claimants(p), d) == Some(i) <==> Owner(Claimants(q), d) == Some(j) {
      assert ApartAt(p, d) && ApartAt(q, d);
      if Owner(Claimants(p), d) == Some(i) { OwnerSurvives(p, q, d, i, j); }
      if Owner(Claimants(q), d) == Some(j) { OwnerSurvives(q, p, d, j, i); }
    }
    SameStakes(p, i, q, j, "");
    SameOwned(Claimants(p), i, Claimants(q), j, EffectiveAt(p, i));
  }

  lemma {:induction false} SameOwned(cs: seq<Claimant>, i: nat, ds: seq<Claimant>, j: nat, e: seq<Domain>)
    requires forall d :: Owner(cs, d) == Some(i) <==> Owner(ds, d) == Some(j)
    ensures OwnedBy(cs, i, e) == OwnedBy(ds, j, e)
  {
    if e != [] { SameOwned(cs, i, ds, j, e[..|e| - 1]); }
  }

  // ---- Same entries, same router ----

  ghost predicate SameEntries(es: seq<Entry>, fs: seq<Entry>) {
    && (forall i :: 0 <= i < |es| ==> es[i] in fs)
    && (forall i :: 0 <= i < |fs| ==> fs[i] in es)
  }

  lemma EntriesShuffle(p: Plan, q: Plan)
    requires GoodPlan(p) && GoodPlan(q) && Shuffled(p, q) && ExplicitSitesApart(p)
    ensures SameEntries(EntriesOf(p), EntriesOf(q))
  {
    forall d ensures ApartAt(q, d) { ApartSurvives(p, q, d); }
    var es, fs := EntriesOf(p), EntriesOf(q);
    forall i | 0 <= i < |es| ensures es[i] in fs {
      var j := Counterpart(p, i, q);
      SameEntry(p, i, q, j);
      assert fs[j] == es[i];
    }
    forall j | 0 <= j < |fs| ensures fs[j] in es {
      var i := Counterpart(q, j, p);
      SameEntry(q, j, p, i);
      assert es[i] == fs[j];
    }
  }

  /** Whatever `r` records about `n`, `t` records as well. */
  ghost predicate RecordedIn(r: Routes, t: Routes, n: string)
    requires KeysAgree(r) && n in r.domains
  {
    && n in t.domains && r.domains[n] == t.domains[n]
    && n in t.primaries && r.primaries[n] == t.primaries[n]
    && (n in r.sites ==> n in t.sites && r.sites[n] == t.sites[n])
    && (n in r.proxies ==> n in t.proxies && r.proxies[n] == t.proxies[n])
  }

  lemma HeldInOther(r: Routes, es: seq<Entry>, t: Routes, fs: seq<Entry>, n: string)
    requires HoldsExactly(r, es, |es|) && HoldsExactly(t, fs, |fs|) && SameEntries(es, fs)
    requires n in r.domains
    ensures RecordedIn(r, t, n)
  {
    var i := KeyHasEntry(es, |es|, n);
    assert Holds(r, es[i]);
    var j :| 0 <= j < |fs| && fs[j] == es[i];
    assert Holds(t, fs[j]);
  }

  lemma SameRecords(r: Routes, t: Routes)
    requires KeysAgree(r) && KeysAgree(t)
    requires forall n :: n in r.domains ==> RecordedIn(r, t, n)
    requires forall n :: n in t.domains ==> RecordedIn(t, r, n)
    ensures r.sites == t.sites && r.proxies == t.proxies
    ensures r.domains == t.domains && r.primaries == t.primaries
  {
    forall n | n in r.sites ensures n in t.sites && r.sites[n] == t.sites[n] { assert RecordedIn(r, t, n); }
    forall n | n in t.sites ensures n in r.sites { assert RecordedIn(t, r, n); }
    forall n | n in r.proxies ensures n in t.proxies && r.proxies[n] == t.proxies[n] { assert RecordedIn(r, t, n); }
    forall n | n in t.proxies ensures n in r.proxies { assert RecordedIn(t, r, n); }
  }

  lemma IndexInOther(r: Routes, es: seq<Entry>, t: Routes, fs: seq<Entry>, d: Domain)
    requires HoldsExactly(r, es, |es|) && HoldsExactly(t, fs, |fs|) && SameEntries(es, fs)
    requires DomainOwner(r, d).Some?
    ensures DomainOwner(t, d) == DomainOwner(r, d)
  {
    var i := OwnerHasEntry(r, es, |es|, d);
    var j :| 0 <= j < |fs| && fs[j] == es[i];
    EntryOwner(t, fs, d);
  }

  lemma SameRoutes(r: Routes, es: seq<Entry>, t: Routes, fs: seq<Entry>)
    requires HoldsExactly(r, es, |es|) && HoldsExactly(t, fs, |fs|) && SameEntries(es, fs)
    ensures r.sites == t.sites && r.proxies == t.proxies
    ensures r.domains == t.domains && r.primaries == t.primaries
    ensures r.exact == t.exact && r.wildcards == t.wildcards
  {
    forall n | n in r.domains ensures RecordedIn(r, t, n) { HeldInOther(r, es, t, fs, n); }
    forall n | n in t.domains ensures RecordedIn(t, r, n) { HeldInOther(t, fs, r, es, n); }
    SameRecords(r, t);
    forall d ensures DomainOwner(r, d) == DomainOwner(t, d) {
      if DomainOwner(r, d).Some? { IndexInOther(r, es, t, fs, d); }
      if DomainOwner(t, d).Some? { IndexInOther(t, fs, r, es, d); }
    }
    SameIndex(r, t);
  }

  lemma SameIndex(r: Routes, t: Routes)
    requires Coherent(r) && Coherent(t)
    requires forall d :: DomainOwner(r, d) == DomainOwner(t, d)
    ensures r.exact == t.exact && r.wildcards == t.wildcards
  {
    forall d ensures (d in r.exact <==> d in t.exact) && (d in r.exact ==> r.exact[d] == t.exact[d]) {
      assert DomainOwner(r, d) == DomainOwner(t, d);
    }
    forall d
      ensures (d in r.wildcards <==> d in t.wildcards) && (d in r.wildcards ==> r.wildcards[d] == t.wildcards[d])
    {
      assert DomainOwner(r, d) == DomainOwner(t, d);
    }
  }

  lemma SameRules<T>(s: RulesSection<T>, p: Plan, q: Plan)
    requires GoodPlan(p) && GoodPlan(q) && Shuffled(p, q)
    ensures RulesUpTo(s, p, |p.sites|) == RulesUpTo(s, q, |q.sites|)
  {
    var m, m' := RulesUpTo(s, p, |p.sites|), RulesUpTo(s, q, |q.sites|);
    forall n | n in m ensures n in m' && m[n] == m'[n] { RuleInOther(s, p, q, n); }
    forall n | n in m' ensures n in m { RuleInOther(s, q, p, n); }
  }

  lemma RuleInOther<T>(s: RulesSection<T>, p: Plan, q: Plan, n: string)
    requires GoodPlan(p) && GoodPlan(q) && Shuffled(p, q) && n in RulesUpTo(s, p, |p.sites|)
    ensures n in RulesUpTo(s, q, |q.sites|)
    ensures RulesUpTo(s, q, |q.sites|)[n] == RulesUpTo(s, p, |p.sites|)[n]
  {
    RulesLand(s, p, |p.sites|);
    RulesLand(s, q, |q.sites|);
    var i :| 0 <= i < |p.sites| && p.sites[i].site.name == n;
    var j :| 0 <= j < |q.sites| && q.sites[j] == p.sites[i];
  }

  lemma ShuffledRoutes(c: Cfg, p: Plan, q: Plan)
    requires GoodPlan(p) && GoodPlan(q) && Shuffled(p, q) && ExplicitSitesApart(p)
    ensures RoutesOf(c, p) == RoutesOf(c, q)
  {
    PlanHolds(c, p);
    PlanHolds(c, q);
    EntriesShuffle(p, q);
    SameRoutes(RoutesOf(c, p), EntriesOf(p), RoutesOf(c, q), EntriesOf(q));
    SameRules(c.proxyRules, p, q);
    SameRules(c.routeRules, p, q);
    RulesStayEmpty(c.tld, EntriesOf(p), Count(p));
    RulesStayEmpty(c.tld, EntriesOf(q), Count(q));
  }

  // ---- Scans ----

  lemma ShuffledPlan(c: Cfg, sites: seq<Site>, other: seq<Site>)
    requires DistinctNames(sites, SiteName) && multiset(sites) == multiset(other)
    ensures DistinctNames(other, SiteName)
    ensures Shuffled(MakePlan(c, sites), MakePlan(c, other))
  {
    PermutedNames(sites, other);
    KeepFirstFacts(sites, SiteName);
    KeepFirstFacts(other, SiteName);
    var p, q := MakePlan(c, sites), MakePlan(c, other);
    assert |sites| == |other| by { assert |multiset(sites)| == |multiset(other)|; }
    forall i | 0 <= i < |sites| ensures p.sites[i] in q.sites {
      assert sites[i] in multiset(other);
      var j :| 0 <= j < |other| && other[j] == sites[i];
      assert q.sites[j] == PlanSite(c, other[j]);
    }
    forall j | 0 <= j < |other| ensures q.sites[j] in p.sites {
      assert other[j] in multiset(sites);
      var i :| 0 <= i < |sites| && sites[i] == other[j];
      assert p.sites[i] == PlanSite(c, sites[i]);
    }
  }

  /** A permutation keeps the set of names and their distinctness. */
  lemma PermutedNames(sites: seq<Site>, other: seq<Site>)
    requires DistinctNames(sites, SiteName) && multiset(sites) == multiset(other)
    ensures Names(other, SiteName) == Names(sites, SiteName)
    ensures DistinctNames(other, SiteName)
  {
    assert forall s :: s in other <==> s in multiset(other);
    assert forall s :: s in sites <==> s in multiset(sites);
    forall n ensures n in Names(other, SiteName) <==> n in Names(sites, SiteName) {
      if n in Names(other, SiteName) {
        var j :| 0 <= j < |other| && SiteName(other[j]) == n;
        assert other[j] in sites;
      }
      if n in Names(sites, SiteName) {
        var i :| 0 <= i < |sites| && SiteName(sites[i]) == n;
        assert sites[i] in other;
      }
    }
    NoDupCounts(sites);
    NoDupCounts(other);
    forall i, j | 0 <= i < j < |other| ensures SiteName(other[i]) != SiteName(other[j]) {
      assert other[i] in sites && other[j] in sites && other[i] != other[j];
    }
  }

  /** Which domains a site wants besides its apex; decided by the site and its delta alone. */
  predicate SiteStakesExplicitly(c: Cfg, s: Site, d: Domain) {
    d in PlanSite(c, s).effective && d != s.name
  }

  /** The condition a caller can check: no domain is an explicit wish of two different sites. */
  ghost predicate NoSharedExplicitDomain(c: Cfg, sites: seq<Site>) {
    forall i, j, d :: 0 <= i < j < |sites| && SiteStakesExplicitly(c, sites[i], d) ==>
      !SiteStakesExplicitly(c, sites[j], d)
  }

  lemma ScannedStakes(c: Cfg, sites: seq<Site>, i: nat, d: Domain)
    requires DistinctNames(sites, SiteName) && i < |sites|
    ensures |MakePlan(c, sites).sites| == |sites|
    ensures StakesExplicitly(MakePlan(c, sites), i, d) == SiteStakesExplicitly(c, sites[i], d)
  {
    KeepFirstFacts(sites, SiteName);
    assert MakePlan(c, sites).sites[i] == PlanSite(c, sites[i]);
  }

  /** The plan `p` has the explicit wishes of `sites`, in their order. */
  ghost predicate SameWishes(c: Cfg, sites: seq<Site>, p: Plan) {
    && |p.sites| == |sites|
    && (forall i: nat, d :: i < |sites| ==> StakesExplicitly(p, i, d) == SiteStakesExplicitly(c, sites[i], d))
  }

  lemma SameWishesApart(c: Cfg, sites: seq<Site>, p: Plan)
    requires SameWishes(c, sites, p)
    ensures NoSharedExplicitDomain(c, sites) <==> ExplicitSitesApart(p)
  {
    if ExplicitSitesApart(p) {
      forall i: nat, j: nat, d | i < j < |sites| && SiteStakesExplicitly(c, sites[i], d)
        ensures !SiteStakesExplicitly(c, sites[j], d)
      {
        assert ApartAt(p, d);
        assert StakesExplicitly(p, i, d) ==> !StakesExplicitly(p, j, d);
      }
    }
  }

  lemma ApartIsNoShared(c: Cfg, sites: seq<Site>)
    requires DistinctNames(sites, SiteName)
    ensures NoSharedExplicitDomain(c, sites) <==> ExplicitSitesApart(MakePlan(c, sites))
  {
    var p := MakePlan(c, sites);
    KeepFirstFacts(sites, SiteName);
    forall i: nat, d | i < |sites| ensures StakesExplicitly(p, i, d) == SiteStakesExplicitly(c, sites[i], d) {
      ScannedStakes(c, sites, i, d);
    }
    SameWishesApart(c, sites, p);
  }

  /** With no shared explicit domain the scan order leaves no trace in the router at all. */
  lemma ScanOrderIsIrrelevant(c: Cfg, sites: seq<Site>, other: seq<Site>)
    requires DistinctNames(sites, SiteName) && multiset(sites) == multiset(other)
    requires NoSharedExplicitDomain(c, sites)
    ensures Build(c, sites) == Build(c, other)
  {
    MakePlanIsGood(c, sites);
    MakePlanIsGood(c, other);
    ShuffledPlan(c, sites, other);
    ApartIsNoShared(c, sites);
    ShuffledRoutes(c, MakePlan(c, sites), MakePlan(c, other));
  }

  // ---- Who owns a domain when the order matters ----

  /** `i` is the earliest site that wants `d` explicitly. */
  ghost predicate FirstWisher(c: Cfg, sites: seq<Site>, d: Domain, i: nat) {
    && i < |sites| && SiteStakesExplicitly(c, sites[i], d)
    && (forall j :: 0 <= j < i ==> !SiteStakesExplicitly(c, sites[j], d))
  }

  lemma HasFirstWisher(c: Cfg, sites: seq<Site>, d: Domain, k: nat) returns (i: nat)
    requires k < |sites| && SiteStakesExplicitly(c, sites[k], d)
    ensures FirstWisher(c, sites, d, i)
  {
    i := FirstIndex(sites, (s: Site) => SiteStakesExplicitly(c, s, d));
  }

  /** The earliest explicit site of a plan owns the domain. */
  lemma FirstExplicitOwns(p: Plan, i: nat, d: Domain)
    requires i < |p.sites| && StakesExplicitly(p, i, d)
    requires forall j: nat :: j < i ==> !StakesExplicitly(p, j, d)
    ensures Owner(Claimants(p), d) == Some(i)
  {
    var cs := Claimants(p);
    StakesAreWants(p, i, d);
    forall j: nat | j < |cs| && j != i && Wants(cs[j], d) ensures Beats(cs, d, i, j) {
      StakesAreWants(p, j, d);
    }
    assert IsOwner(cs, d, i);
  }

  /** The first wisher of a scan owns the domain. */
  lemma FirstWisherOwns(c: Cfg, sites: seq<Site>, d: Domain, i: nat)
    requires DistinctNames(sites, SiteName) && FirstWisher(c, sites, d, i)
    ensures DomainOwner(Build(c, sites), d) == Some(sites[i].name)
  {
    var p := MakePlan(c, sites);
    KeepFirstFacts(sites, SiteName);
    forall j: nat | j <= i ensures StakesExplicitly(p, j, d) == SiteStakesExplicitly(c, sites[j], d) {
      ScannedStakes(c, sites, j, d);
    }
    FirstExplicitOwns(p, i, d);
    BuildOwner(c, sites, d);
    assert p.sites[i].site == sites[i];
  }

  /** Both scans have the same first wisher of `d`, or one has none. */
  ghost predicate SameFirstWisher(c: Cfg, sites: seq<Site>, other: seq<Site>, d: Domain) {
    forall i: nat, j: nat :: FirstWisher(c, sites, d, i) && FirstWisher(c, other, d, j) ==> sites[i] == other[j]
  }

  /** Without an explicit wish among the sites the shuffle leaves the owner alone. */
  lemma SameOwnerName(p: Plan, q: Plan, d: Domain)
    requires GoodPlan(p) && GoodPlan(q) && Shuffled(p, q) && Shuffled(q, p) && ApartAt(p, d)
    ensures OwnerName(p, d) == OwnerName(q, d)
  {
    ApartSurvives(p, q, d);
    if Owner(Claimants(p), d).Some? {
      var i := Owner(Claimants(p), d).value;
      assert IsOwner(Claimants(p), d, i);
      var j := Counterpart(p, i, q);
      OwnerSurvives(p, q, d, i, j);
      SameStakes(p, i, q, j, d);
    } else if Owner(Claimants(q), d).Some? {
      var j := Owner(Claimants(q), d).value;
      assert IsOwner(Claimants(q), d, j);
      var i := Counterpart(q, j, p);
      OwnerSurvives(q, p, d, j, i);
    }
  }

  lemma NoWisherSameOwner(c: Cfg, sites: seq<Site>, other: seq<Site>, d: Domain)
    requires DistinctNames(sites, SiteName) && multiset(sites) == multiset(other)
    requires forall k :: 0 <= k < |sites| ==> !SiteStakesExplicitly(c, sites[k], d)
    ensures DomainOwner(Build(c, sites), d) == DomainOwner(Build(c, other), d)
  {
    var p, q := MakePlan(c, sites), MakePlan(c, other);
    MakePlanIsGood(c, sites);
    MakePlanIsGood(c, other);
    ShuffledPlan(c, sites, other);
    KeepFirstFacts(sites, SiteName);
    forall i: nat | i < |p.sites| ensures !StakesExplicitly(p, i, d) {
      ScannedStakes(c, sites, i, d);
    }
    SameOwnerName(p, q, d);
    BuildOwner(c, sites, d);
    BuildOwner(c, other, d);
  }

  /** Among distinctly named sites the names of the first wishers tell whether they are the same. */
  lemma WishersDecide(c: Cfg, sites: seq<Site>, other: seq<Site>, d: Domain, i: nat, j: nat)
    requires DistinctNames(sites, SiteName) && multiset(sites) == multiset(other)
    requires FirstWisher(c, sites, d, i) && FirstWisher(c, other, d, j)
    ensures SameFirstWisher(c, sites, other, d) <==> sites[i].name == other[j].name
  {
    assert other[j] in multiset(sites);
    var m: nat :| m < |sites| && sites[m] == other[j];
    assert SiteName(sites[i]) == SiteName(sites[m]) <==> i == m;
    assert forall x: nat :: FirstWisher(c, sites, d, x) ==> x == i;
    assert forall x: nat :: FirstWisher(c, other, d, x) ==> x == j;
  }

  /** Two orders of a scan give a domain the same owner if and only if its first wisher is the same. */
  lemma OwnersAgreeIff(c: Cfg, sites: seq<Site>, other: seq<Site>, d: Domain)
    requires DistinctNames(sites, SiteName) && multiset(sites) == multiset(other)
    ensures DomainOwner(Build(c, sites), d) == DomainOwner(Build(c, other), d) <==> SameFirstWisher(c, sites, other, d)
  {
    PermutedNames(sites, other);
    if k: nat :| k < |sites| && SiteStakesExplicitly(c, sites[k], d) {
      assert sites[k] in multiset(other);
      var l: nat :| l < |other| && other[l] == sites[k];
      var i := HasFirstWisher(c, sites, d, k);
      var j := HasFirstWisher(c, other, d, l);
      FirstWisherOwns(c, sites, d, i);
      FirstWisherOwns(c, other, d, j);
      WishersDecide(c, sites, other, d, i, j);
    } else {
      NoWisherSameOwner(c, sites, other, d);
    }
  }

  function ToFront(sites: seq<Site>, i: nat): (r: seq<Site>)
    requires i < |sites|
    ensures |r| == |sites| && r[0] == sites[i] && multiset(r) == multiset(sites)
  {
    assert sites == sites[..i] + [sites[i]] + sites[i + 1..];
    [sites[i]] + sites[..i] + sites[i + 1..]
  }

  ghost predicate SameOwners(c: Cfg, sites: seq<Site>, other: seq<Site>) {
    forall d :: DomainOwner(Build(c, sites), d) == DomainOwner(Build(c, other), d)
  }

  /** Ownership is independent of the scan order exactly when no two sites share an explicit domain. */
  lemma ScanOrderMattersIff(c: Cfg, sites: seq<Site>)
    requires DistinctNames(sites, SiteName)
    ensures NoSharedExplicitDomain(c, sites) <==>
            forall other | multiset(other) == multiset(sites) :: SameOwners(c, sites, other)
  {
    if NoSharedExplicitDomain(c, sites) {
      forall other | multiset(other) == multiset(sites) ensures SameOwners(c, sites, other) {
        ScanOrderIsIrrelevant(c, sites, other);
      }
    } else {
      var i, j, d :|
        0 <= i < j < |sites| && SiteStakesExplicitly(c, sites[i], d) && SiteStakesExplicitly(c, sites[j], d);
      var a, b := ToFront(sites, i), ToFront(sites, j);
      PermutedNames(sites, a);
      PermutedNames(sites, b);
      FirstWisherOwns(c, a, d, 0);
      FirstWisherOwns(c, b, d, 0);
      assert SiteName(sites[i]) != SiteName(sites[j]);
      assert !SameOwners(c, sites, a) || !SameOwners(c, sites, b);
    }
  }

  // ---- The status report ----

  /** `router.iter()`: the routed sites in the order of their names. */
  ghost predicate IsSnapshot(r: Routes, snapshot: seq<Site>) {
    && DistinctNames(snapshot, SiteName)
    && Names(snapshot, SiteName) == r.sites.Keys
    && (forall i :: 0 <= i < |snapshot| ==> snapshot[i].name in r.sites && r.sites[snapshot[i].name] == snapshot[i])
    && SortedByName(snapshot)
  }

  ghost predicate SortedByName(s: seq<Site>) {
    forall i, j :: 0 <= i < j < |s| ==> LexLeq(s[i].name, s[j].name)
  }

  /** Dropping the repeated names beforehand builds the same router. */
  lemma BuildKeepsFirst(c: Cfg, sites: seq<Site>)
    ensures Build(c, KeepFirst(sites, SiteName)) == Build(c, sites)
  {
    KeepFirstFacts(sites, SiteName);
    KeepFirstFacts(KeepFirst(sites, SiteName), SiteName);
  }

  lemma SnapshotIsKept(c: Cfg, sites: seq<Site>, snapshot: seq<Site>)
    requires IsSnapshot(Build(c, sites), snapshot)
    ensures multiset(snapshot) == multiset(KeepFirst(sites, SiteName))
  {
    var kept := KeepFirst(sites, SiteName);
    KeepFirstFacts(sites, SiteName);
    forall s | s in kept ensures s in snapshot {
      KeptSiteIsRouted(c, sites, s);
      assert s.name in Names(snapshot, SiteName);
    }
    forall s | s in snapshot ensures s in kept {
      RoutedSiteIsKept(c, sites, s.name);
    }
    SameElements(snapshot, kept);
  }

  /** How a report names a claimant. */
  function Label(r: Routes, n: string): string { if n in r.sites then n else "proxy:" + n }

  lemma LabelsAreInjective(c: Cfg, sites: seq<Site>, n: string, m: string)
    ensures var r := Build(c, sites); Label(r, n) == Label(r, m) ==> n == m
  {
    var r := Build(c, sites);
    if Label(r, n) == Label(r, m) {
      SiteLabelIsNoProxy(c, sites, n, m);
      SiteLabelIsNoProxy(c, sites, m, n);
      if n !in r.sites && m !in r.sites {
        assert n == ("proxy:" + n)[6..] && m == ("proxy:" + m)[6..];
      }
    }
  }

  lemma SiteLabelIsNoProxy(c: Cfg, sites: seq<Site>, n: string, m: string)
    ensures n in Build(c, sites).sites ==> n != "proxy:" + m
  {
    if n in Build(c, sites).sites {
      RoutedSiteIsKept(c, sites, n);
      NameIsNoProxyLabel(Build(c, sites).sites[n].name, m);
    }
  }

  lemma NameIsNoProxyLabel(n: Name, m: string)
    ensures n != "proxy:" + m
  {
    assert ("proxy:" + m)[5] == ':';
    assert |n| > 5 ==> NameChar(n[5]);
  }

  lemma SnapshotRoutes(c: Cfg, sites: seq<Site>, snapshot: seq<Site>)
    requires IsSnapshot(Build(c, sites), snapshot)
    ensures Build(c, snapshot).sites.Keys == Build(c, sites).sites.Keys
  {
    RoutedSites(c, snapshot);
  }

  /** The status handler re-resolves collisions over the routed sites in name order. For a contested domain
      its report names the claimant the router serves if and only if the first site to want the domain
      explicitly is the same by scan order and by name. */
  lemma StatusReportAgreesIff(c: Cfg, sites: seq<Site>, snapshot: seq<Site>, d: Domain)
    requires IsSnapshot(Build(c, sites), snapshot) && Contested(Claimants(MakePlan(c, snapshot)), d)
    ensures var r := Build(c, sites);
            && DomainOwner(r, d).Some?
            && (Report(Claimants(MakePlan(c, snapshot)), d).winner == Label(r, DomainOwner(r, d).value) <==>
                SameFirstWisher(c, KeepFirst(sites, SiteName), snapshot, d))
  {
    var r, r', kept := Build(c, sites), Build(c, snapshot), KeepFirst(sites, SiteName);
    SnapshotIsKept(c, sites, snapshot);
    SnapshotRoutes(c, sites, snapshot);
    BuildKeepsFirst(c, sites);
    KeepFirstFacts(sites, SiteName);
    OwnersAgreeIff(c, kept, snapshot, d);
    WinnerIsRouted(c, snapshot, d);
    var n' := DomainOwner(r', d).value;
    if DomainOwner(r, d).None? {
      NoOwnerNoWisher(c, kept, d);
      assert SameFirstWisher(c, kept, snapshot, d);
    }
    LabelsAreInjective(c, sites, n', DomainOwner(r, d).value);
  }

  lemma NoOwnerNoWisher(c: Cfg, sites: seq<Site>, d: Domain)
    requires DistinctNames(sites, SiteName) && DomainOwner(Build(c, sites), d).None?
    ensures forall i: nat :: !FirstWisher(c, sites, d, i)
  {
    forall i: nat ensures !FirstWisher(c, sites, d, i) {
      if FirstWisher(c, sites, d, i) { FirstWisherOwns(c, sites, d, i); }
    }
  }

  /** Two sites that want a domain explicitly make it contested. */
  lemma TwoWishersContest(c: Cfg, sites: seq<Site>, d: Domain)
    requires DistinctNames(sites, SiteName) && |sites| >= 2
    requires SiteStakesExplicitly(c, sites[0], d) && SiteStakesExplicitly(c, sites[1], d)
    ensures Contested(Claimants(MakePlan(c, sites)), d)
  {
    ScannedStakes(c, sites, 0, d);
    ScannedStakes(c, sites, 1, d);
    TwoStakesContest(MakePlan(c, sites), d);
  }

  lemma TwoStakesContest(p: Plan, d: Domain)
    requires |p.sites| >= 2 && StakesExplicitly(p, 0, d) && StakesExplicitly(p, 1, d)
    ensures Contested(Claimants(p), d)
  {
    var cs := Claimants(p);
    FirstExplicitOwns(p, 0, d);
    WantersFacts(cs, d);
    assert d in cs[0].effective && d in cs[1].effective;
    assert 0 in Wanters(cs, d) && 1 in Wanters(cs, d);
  }

  /** They do differ: parked directories `b` and `a`, read in that order, both given `corp` by hand. The
      router serves `b`, the report calls `a` the winner. */
  lemma StatusReportExample(c: Cfg, a: Site, b: Site, sites: seq<Site>, snapshot: seq<Site>)
    requires BothGivenCorp(c, a, b) && sites == [b, a] && snapshot == [a, b]
    ensures IsSnapshot(Build(c, sites), snapshot) && DomainOwner(Build(c, sites), "corp") == Some("b")
    ensures Contested(Claimants(MakePlan(c, snapshot)), "corp")
    ensures Report(Claimants(MakePlan(c, snapshot)), "corp").winner == "a"
  {
    ExampleStakes(c, a, b);
    ExampleSnapshot(c, a, b, sites, snapshot);
    FirstWisherOwns(c, sites, "corp", 0);
    FirstWisherOwns(c, snapshot, "corp", 0);
    TwoWishersContest(c, snapshot, "corp");
    WinnerIsRouted(c, snapshot, "corp");
    RoutedSites(c, snapshot);
  }

  lemma ExampleSnapshot(c: Cfg, a: Site, b: Site, sites: seq<Site>, snapshot: seq<Site>)
    requires a.name == "a" && b.name == "b" && sites == [b, a] && snapshot == [a, b]
    ensures DistinctNames(sites, SiteName) && DistinctNames(snapshot, SiteName) && IsSnapshot(Build(c, sites), snapshot)
  {
    assert snapshot == [a] + [b] && sites == [b] + [a];
    RoutedSites(c, sites);
    SortedIsSnapshot(Build(c, sites), sites, snapshot);
  }

  ghost predicate BothGivenCorp(c: Cfg, a: Site, b: Site) {
    var corp := Delta(["corp"], [], None);
    && c.domains == DomainsSection(map[], map["/p/a" := corp, "/p/b" := corp], map[])
    && a == Site("a", "/p/a", Parked, false, None) && b == Site("b", "/p/b", Parked, false, None)
  }

  lemma ExampleStakes(c: Cfg, a: Site, b: Site)
    requires BothGivenCorp(c, a, b)
    ensures SiteStakesExplicitly(c, a, "corp") && SiteStakesExplicitly(c, b, "corp")
  {
    EffectiveSet("a", ["corp"], []);
    EffectiveSet("b", ["corp"], []);
  }

  /** Sorting the scanned sites by name gives the snapshot. */
  lemma SortedIsSnapshot(r: Routes, sites: seq<Site>, snapshot: seq<Site>)
    requires DistinctNames(sites, SiteName) && multiset(snapshot) == multiset(sites)
    requires SortedByName(snapshot)
    requires r.sites.Keys == Names(sites, SiteName)
    requires forall s :: s in sites ==> s.name in r.sites && r.sites[s.name] == s
    ensures IsSnapshot(r, snapshot)
  {
    PermutedNames(sites, snapshot);
    forall i | 0 <= i < |snapshot| ensures snapshot[i] in sites {
      assert snapshot[i] in multiset(sites);
    }
  }

  lemma RoutedSites(c: Cfg, sites: seq<Site>)
    requires DistinctNames(sites, SiteName)
    ensures Build(c, sites).sites.Keys == Names(sites, SiteName)
    ensures forall s :: s in sites ==> s.name in Build(c, sites).sites && Build(c, sites).sites[s.name] == s
  {
    KeepFirstFacts(sites, SiteName);
    RoutedNames(c, sites);
    forall s | s in sites ensures s.name in Build(c, sites).sites && Build(c, sites).sites[s.name] == s {
      KeptSiteIsRouted(c, sites, s);
    }
  }

  lemma RoutedNames(c: Cfg, sites: seq<Site>)
    ensures Build(c, sites).sites.Keys == Names(sites, SiteName)
  {
    var kept := KeepFirst(sites, SiteName);
    KeepFirstFacts(sites, SiteName);
    forall n | n in Build(c, sites).sites ensures n in Names(kept, SiteName) {
      RoutedSiteIsKept(c, sites, n);
      var i :| 0 <= i < |kept| && kept[i] == Build(c, sites).sites[n];
      assert SiteName(kept[i]) == n;
    }
    forall n | n in Names(kept, SiteName) ensures n in Build(c, sites).sites {
      var i :| 0 <= i < |kept| && SiteName(kept[i]) == n;
      KeptSiteIsRouted(c, sites, kept[i]);
    }
  }
}
