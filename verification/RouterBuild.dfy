/** The de-conflicted router build (bin/orckerd/src/site_domains.rs, `claimants` and `build`). */
module RouterBuild {
  import opened Text
  import opened Domains
  import opened Config
  import opened Router
  import opened Claims
  import opened SiteDomains
  import opened Insertion

  // ---- The claimant sequence: sites in scan order, then proxies in config order ----

  function Count(p: Plan): nat { |p.sites| + |p.proxies| }

  function NameAt(p: Plan, i: nat): Name
    requires i < Count(p)
  {
    if i < |p.sites| then p.sites[i].site.name else p.proxies[i - |p.sites|].proxy.name
  }

  function EffectiveAt(p: Plan, i: nat): seq<Domain>
    requires i < Count(p)
  {
    if i < |p.sites| then p.sites[i].effective else p.proxies[i - |p.sites|].effective
  }

  function PlannedPrimaryAt(p: Plan, i: nat): Domain
    requires i < Count(p)
  {
    if i < |p.sites| then p.sites[i].primary else p.proxies[i - |p.sites|].primary
  }

  predicate EligibleAt(p: Plan, i: nat)
    requires i < Count(p)
  {
    i < |p.sites| || !p.proxies[i - |p.sites|].shadowed
  }

  function DisplayAt(p: Plan, i: nat): string
    requires i < Count(p)
  {
    if i < |p.sites| then NameAt(p, i) else "proxy:" + NameAt(p, i)
  }

  function Claimants(p: Plan): seq<Claimant> {
    seq(Count(p), i requires 0 <= i < Count(p) =>
      Claimant(DisplayAt(p, i), Apex(NameAt(p, i)), EffectiveAt(p, i), EligibleAt(p, i)))
  }

  /** What planning guarantees: one plan per name and kind, shadowing marked, no repeated domain. */
  ghost predicate GoodPlan(p: Plan) {
    && (forall i, j :: 0 <= i < j < |p.sites| ==> p.sites[i].site.name != p.sites[j].site.name)
    && (forall i, j :: 0 <= i < j < |p.proxies| ==> p.proxies[i].proxy.name != p.proxies[j].proxy.name)
    && (forall i, j :: 0 <= i < |p.sites| && 0 <= j < |p.proxies| && p.sites[i].site.name == p.proxies[j].proxy.name ==>
          p.proxies[j].shadowed)
    && (forall i: nat :: i < Count(p) ==> NoDup(EffectiveAt(p, i)))
  }

  lemma MakePlanIsGood(c: Cfg, sites: seq<Site>)
    ensures GoodPlan(MakePlan(c, sites))
  {
    var p := MakePlan(c, sites);
    var ks, kp := KeepFirst(sites, SiteName), KeepFirst(AllProxies(c), ProxyName);
    KeepFirstFacts(sites, SiteName);
    KeepFirstFacts(AllProxies(c), ProxyName);
    forall i, j | 0 <= i < j < |p.sites| ensures p.sites[i].site.name != p.sites[j].site.name {
      assert SiteName(ks[i]) != SiteName(ks[j]);
    }
    forall i, j | 0 <= i < j < |p.proxies| ensures p.proxies[i].proxy.name != p.proxies[j].proxy.name {
      assert ProxyName(kp[i]) != ProxyName(kp[j]);
    }
    forall i, j | 0 <= i < |p.sites| && 0 <= j < |p.proxies| && p.sites[i].site.name == p.proxies[j].proxy.name
      ensures p.proxies[j].shadowed
    {
      assert SiteName(ks[i]) in Names(ks, SiteName);
    }
    forall i: nat | i < Count(p) ensures NoDup(EffectiveAt(p, i)) {
      var n := NameAt(p, i);
      var d := if i < |p.sites| then SiteDelta(c, ks[i]) else StoredDelta(c.domains.proxy, n);
      EffectiveSet(n, d.added, d.suppressed);
    }
  }

  /** Every planned claimant is offered an exact domain, and only a scanned namesake shadows a proxy. */
  lemma PlanIsTruthful(c: Cfg, sites: seq<Site>)
    ensures var p := MakePlan(c, sites);
            && (forall i: nat :: i < Count(p) ==> HasExact(EffectiveAt(p, i)))
            && (forall j :: 0 <= j < |p.proxies| ==>
                  (p.proxies[j].shadowed <==> exists s :: s in sites && s.name == p.proxies[j].proxy.name))
  {
    var p := MakePlan(c, sites);
    var ks := KeepFirst(sites, SiteName);
    forall i: nat | i < Count(p) ensures HasExact(EffectiveAt(p, i)) {
      var n := NameAt(p, i);
      var d := if i < |p.sites| then SiteDelta(c, ks[i]) else StoredDelta(c.domains.proxy, n);
      EffectiveSet(n, d.added, d.suppressed);
    }
  }

  /** No two claimants that may win bear the same name. */
  lemma EligibleNamesAreDistinct(p: Plan, i: nat, j: nat)
    requires GoodPlan(p) && i < Count(p) && j < Count(p)
    requires EligibleAt(p, i) && EligibleAt(p, j) && NameAt(p, i) == NameAt(p, j)
    ensures i == j
  {
  }

  // ---- The domains each claimant won ----

  /** The domains of `ds` that claimant `i` owns, in order. */
  ghost function OwnedBy(cs: seq<Claimant>, i: nat, ds: seq<Domain>): (r: seq<Domain>)
    ensures forall d :: d in r <==> d in ds && Owner(cs, d) == Some(i)
    ensures NoDup(ds) ==> NoDup(r)
  {
    if ds == [] then []
    else
      var front, d := ds[..|ds| - 1], ds[|ds| - 1];
      assert ds == front + [d];
      var r := OwnedBy(cs, i, front);
      if Owner(cs, d) == Some(i) then r + [d] else r
  }

  ghost function Won(p: Plan, i: nat): seq<Domain>
    requires i < Count(p)
  {
    OwnedBy(Claimants(p), i, EffectiveAt(p, i))
  }

  ghost function PrimaryAt(p: Plan, i: nat): Domain
    requires i < Count(p)
  {
    ChoosePrimary(NameAt(p, i), Won(p, i), Some(PlannedPrimaryAt(p, i)))
  }

  /** `claims` maps each owned domain to its owner's index. */
  ghost predicate OwnersAre(cs: seq<Claimant>, claims: map<Domain, nat>) {
    forall d :: Owner(cs, d) == if d in claims then Some(claims[d]) else None
  }

  method CollectWon(ghost cs: seq<Claimant>, claims: map<Domain, nat>, i: nat, effective: seq<Domain>)
    returns (won: seq<Domain>)
    requires OwnersAre(cs, claims)
    ensures won == OwnedBy(cs, i, effective)
  {
    won := [];
    for k := 0 to |effective|
      invariant won == OwnedBy(cs, i, effective[..k])
    {
      assert effective[..k + 1][..k] == effective[..k];
      if effective[k] in claims && claims[effective[k]] == i {
        won := won + [effective[k]];
      }
    }
    assert effective[..|effective|] == effective;
  }

  /** What the router is given for claimant `i`. */
  ghost function EntryFor(p: Plan, i: nat): Entry
    requires i < Count(p)
  {
    if !EligibleAt(p, i) then Skipped
    else if i < |p.sites| then SiteEntry(p.sites[i].site, Won(p, i), PrimaryAt(p, i))
    else ProxyEntry(p.proxies[i - |p.sites|].proxy, Won(p, i), PrimaryAt(p, i))
  }

  ghost function EntriesOf(p: Plan): seq<Entry> {
    seq(Count(p), i requires 0 <= i < Count(p) => EntryFor(p, i))
  }

  /** The claim pass de-conflicts every entry before insertion. */
  lemma EntriesAreDeconflicted(p: Plan)
    requires GoodPlan(p)
    ensures Deconflicted(EntriesOf(p))
  {
    var es := EntriesOf(p);
    forall i, j | 0 <= i < j < |es| && !es[i].Skipped? && !es[j].Skipped? ensures es[i].Key() != es[j].Key() {
      if NameAt(p, i) == NameAt(p, j) { EligibleNamesAreDistinct(p, i, j); }
    }
    forall i, j, d | 0 <= i < j < |es| && !es[i].Skipped? && !es[j].Skipped? && d in es[i].won ensures d !in es[j].won {
      assert Owner(Claimants(p), d) == Some(i);
    }
  }

  // ---- Rules ----

  function SiteRules<T>(s: RulesSection<T>, site: Site): Option<seq<Rule<T>>> {
    match site.kind
    case Linked => if site.name in s.linked then Some(s.linked[site.name]) else None
    case Parked => if site.root in s.parked then Some(s.parked[site.root]) else None
  }

  /** The rule map after the first `k` sites had their rules attached. */
  ghost function RulesUpTo<T>(s: RulesSection<T>, p: Plan, k: nat): map<string, seq<Rule<T>>>
    requires k <= |p.sites|
  {
    if k == 0 then map[]
    else
      var m, site := RulesUpTo(s, p, k - 1), p.sites[k - 1].site;
      match SiteRules(s, site)
      case Some(rules) => PutRules(m, site.name, rules)
      case None => m
  }

  /** A site's rules land under its name, whatever key stored them; nothing else is attached. */
  lemma {:induction false} RulesLand<T>(s: RulesSection<T>, p: Plan, k: nat)
    requires GoodPlan(p) && k <= |p.sites|
    ensures forall i :: 0 <= i < k ==>
              (var n, rules := p.sites[i].site.name, SiteRules(s, p.sites[i].site);
               && (n in RulesUpTo(s, p, k) <==> rules.Some? && rules.value != [])
               && (n in RulesUpTo(s, p, k) ==> RulesUpTo(s, p, k)[n] == rules.value))
    ensures forall n :: n in RulesUpTo(s, p, k) ==> exists i :: 0 <= i < k && p.sites[i].site.name == n
  {
    if k != 0 {
      RulesLand(s, p, k - 1);
    }
  }

  // ---- The build ----

  ghost function RoutesOf(c: Cfg, p: Plan): Routes {
    RoutesUpTo(c.tld, EntriesOf(p), Count(p)).(
      proxyRules := RulesUpTo(c.proxyRules, p, |p.sites|),
      routeRules := RulesUpTo(c.routeRules, p, |p.sites|))
  }

  /** The router `build` produces. */
  ghost function Build(c: Cfg, sites: seq<Site>): Routes {
    RoutesOf(c, MakePlan(c, sites))
  }

  /** What a claimant contributes: the domains it won and the primary among them. */
  method MakeEntry(p: Plan, claims: map<Domain, nat>, i: nat) returns (e: Entry)
    requires i < Count(p) && OwnersAre(Claimants(p), claims)
    ensures e == EntryFor(p, i)
  {
    if !EligibleAt(p, i) {
      return Skipped;
    }
    var won := CollectWon(Claimants(p), claims, i, EffectiveAt(p, i));
    var primary := ChoosePrimary(NameAt(p, i), won, Some(PlannedPrimaryAt(p, i)));
    e := if i < |p.sites| then SiteEntry(p.sites[i].site, won, primary)
         else ProxyEntry(p.proxies[i - |p.sites|].proxy, won, primary);
  }

  method CollectEntries(p: Plan, claims: map<Domain, nat>) returns (es: seq<Entry>)
    requires OwnersAre(Claimants(p), claims)
    ensures es == EntriesOf(p)
  {
    es := [];
    for i := 0 to Count(p)
      invariant |es| == i
      invariant forall j :: 0 <= j < i ==> es[j] == EntryFor(p, j)
    {
      var e := MakeEntry(p, claims, i);
      es := es + [e];
    }
  }

  method AttachRules(router: SiteRouter, c: Cfg, p: Plan)
    requires router.proxyRules == map[] && router.routeRules == map[]
    modifies router
    ensures router.View() == old(router.View()).(
                               proxyRules := RulesUpTo(c.proxyRules, p, |p.sites|),
                               routeRules := RulesUpTo(c.routeRules, p, |p.sites|))
  {
    for idx := 0 to |p.sites|
      invariant router.View() == old(router.View()).(
                                   proxyRules := RulesUpTo(c.proxyRules, p, idx),
                                   routeRules := RulesUpTo(c.routeRules, p, idx))
    {
      var site := p.sites[idx].site;
      var rules := SiteRules(c.proxyRules, site);
      if rules.Some? {
        router.SetProxyRules(site.name, rules.value);
      }
      var routeRules := SiteRules(c.routeRules, site);
      if routeRules.Some? {
        router.SetRouteRules(site.name, routeRules.value);
      }
    }
  }

  method BuildRouter(c: Cfg, sites: seq<Site>) returns (router: SiteRouter)
    ensures fresh(router)
    ensures router.View() == Build(c, sites)
  {
    var plans := PlanSites(c, sites);
    var proxyPlans := PlanProxies(c, plans);
    PlanNamesAgree(c, sites);
    MakePlanIsGood(c, sites);
    var p := Plan(plans, proxyPlans);
    var claims := BuildClaims(Claimants(p));
    ClaimsAreOwners(Claimants(p), claims);

    router := new SiteRouter(c.tld);
    var es := CollectEntries(p, claims);
    EntriesAreDeconflicted(p);
    InsertEntries(router, es);
    RulesStayEmpty(c.tld, es, |es|);
    AttachRules(router, c, p);
  }

  lemma PlanNamesAgree(c: Cfg, sites: seq<Site>)
    ensures Names(PlannedSites(c, sites), PlanName) == Names(sites, SiteName)
  {
    var kept, plans := KeepFirst(sites, SiteName), PlannedSites(c, sites);
    KeepFirstFacts(sites, SiteName);
    forall n ensures n in Names(plans, PlanName) <==> n in Names(kept, SiteName) {
      if n in Names(plans, PlanName) {
        var i :| 0 <= i < |plans| && PlanName(plans[i]) == n;
        assert SiteName(kept[i]) == n;
      }
      if n in Names(kept, SiteName) {
        var i :| 0 <= i < |kept| && SiteName(kept[i]) == n;
        assert PlanName(plans[i]) == n;
      }
    }
  }

  lemma ClaimsAreOwners(cs: seq<Claimant>, claims: map<Domain, nat>)
    requires forall d :: d in claims <==> Wanted(cs, d)
    requires forall d :: d in claims ==> IsOwner(cs, d, claims[d])
    ensures OwnersAre(cs, claims)
  {
    forall d ensures Owner(cs, d) == if d in claims then Some(claims[d]) else None {
      if d in claims { assert IsOwner(cs, d, claims[d]); }
      if Owner(cs, d).Some? { assert IsOwner(cs, d, Owner(cs, d).value); }
    }
  }
}
