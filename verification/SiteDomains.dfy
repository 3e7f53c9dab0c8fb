/** From a scan and a configuration to a router (bin/orckerd/src/site_domains.rs). */
module SiteDomains {
  import opened Text
  import opened Domains
  import opened Config
  import opened Router
  import opened Claims

  // ---- Identity collisions: the first of a name wins ----

  function SiteName(s: Site): string { s.name }
  function ProxyName(p: Proxy): string { p.name }

  ghost function Names<T>(s: seq<T>, name: T -> string): set<string> {
    set i | 0 <= i < |s| :: name(s[i])
  }

  ghost predicate DistinctNames<T>(s: seq<T>, name: T -> string) {
    forall i, j :: 0 <= i < j < |s| ==> name(s[i]) != name(s[j])
  }

  /** Drop every element whose name occurred earlier. */
  ghost function KeepFirst<T>(s: seq<T>, name: T -> string): seq<T> {
    if s == [] then []
    else
      var r := KeepFirst(s[..|s| - 1], name);
      if name(s[|s| - 1]) in Names(s[..|s| - 1], name) then r else r + [s[|s| - 1]]
  }

  /** Exactly one element per name is kept, and a list without repeated names is kept whole. */
  lemma {:induction false} KeepFirstFacts<T>(s: seq<T>, name: T -> string)
    ensures DistinctNames(KeepFirst(s, name), name)
    ensures Names(KeepFirst(s, name), name) == Names(s, name)
    ensures forall x :: x in KeepFirst(s, name) ==> x in s
    ensures DistinctNames(s, name) ==> KeepFirst(s, name) == s
  {
    if s != [] {
      var front, x := s[..|s| - 1], s[|s| - 1];
      var r := KeepFirst(front, name);
      KeepFirstFacts(front, name);
      assert s == front + [x];
      NamesGrow(front, x, name);
      NamesGrow(r, x, name);
      forall i | 0 <= i < |r| && name(x) !in Names(front, name) ensures name(r[i]) != name(x) {
        assert name(r[i]) in Names(r, name);
      }
    }
  }

  lemma NamesGrow<T>(s: seq<T>, x: T, name: T -> string)
    ensures Names(s + [x], name) == Names(s, name) + {name(x)}
  {
    var t := s + [x];
    forall n | n in Names(s, name) + {name(x)} ensures n in Names(t, name) {
      if n == name(x) {
        assert t[|s|] == x;
      } else {
        var i :| 0 <= i < |s| && name(s[i]) == n;
        assert t[i] == s[i];
      }
    }
  }

  lemma KeepFirstGrow<T>(s: seq<T>, x: T, name: T -> string)
    ensures KeepFirst(s + [x], name) ==
            if name(x) in Names(s, name) then KeepFirst(s, name) else KeepFirst(s, name) + [x]
  {
    assert (s + [x])[..|s|] == s;
  }

  /** The element kept for a name is the earliest one bearing it. */
  lemma {:induction false} FirstIsKept<T>(s: seq<T>, name: T -> string, i: nat)
    requires i < |s| && forall j :: 0 <= j < i ==> name(s[j]) != name(s[i])
    ensures s[i] in KeepFirst(s, name)
  {
    var front := s[..|s| - 1];
    if i < |front| {
      FirstIsKept(front, name, i);
    }
  }

  // ---- Plans ----

  datatype SitePlan = SitePlan(site: Site, effective: seq<Domain>, primary: Domain)
  datatype ProxyPlan = ProxyPlan(proxy: Proxy, effective: seq<Domain>, primary: Domain, shadowed: bool)
  datatype Plan = Plan(sites: seq<SitePlan>, proxies: seq<ProxyPlan>)

  function StoredDelta(m: map<string, Delta>, key: string): Delta {
    if key in m then m[key] else NO_DELTA
  }

  /** Linked sites key their delta by name, parked ones by document root. */
  function SiteDelta(c: Cfg, s: Site): Delta {
    match s.kind
    case Linked => StoredDelta(c.domains.linked, s.name)
    case Parked => StoredDelta(c.domains.parked, s.root)
  }

  function PlanSite(c: Cfg, s: Site): SitePlan {
    var d := SiteDelta(c, s);
    var effective := EffectiveDomains(s.name, d.added, d.suppressed);
    SitePlan(s, effective, ChoosePrimary(s.name, effective, d.primary))
  }

  function PlanProxy(c: Cfg, p: Proxy, shadowed: bool): ProxyPlan {
    var d := StoredDelta(c.domains.proxy, p.name);
    var effective := EffectiveDomains(p.name, d.added, d.suppressed);
    ProxyPlan(p, effective, ChoosePrimary(p.name, effective, d.primary), shadowed)
  }

  /** The proxy a container project contributes; a zero port is not a usable upstream. */
  function ProjectProxy(p: Project): Option<Proxy> {
    if p.port == 0 then None else Some(Proxy(p.name, Target("127.0.0.1", p.port), p.secure))
  }

  function ProjectProxies(ps: seq<Project>): seq<Proxy> {
    if ps == [] then []
    else match ProjectProxy(ps[0])
      case Some(p) => [p] + ProjectProxies(ps[1..])
      case None => ProjectProxies(ps[1..])
  }

  function AllProxies(c: Cfg): seq<Proxy> {
    c.proxies + ProjectProxies(c.projects)
  }

  ghost function PlannedSites(c: Cfg, sites: seq<Site>): seq<SitePlan> {
    var kept := KeepFirst(sites, SiteName);
    seq(|kept|, i requires 0 <= i < |kept| => PlanSite(c, kept[i]))
  }

  ghost function PlannedProxies(c: Cfg, proxies: seq<Proxy>, siteNames: set<string>): seq<ProxyPlan> {
    var kept := KeepFirst(proxies, ProxyName);
    seq(|kept|, i requires 0 <= i < |kept| => PlanProxy(c, kept[i], kept[i].name in siteNames))
  }

  lemma PlannedSitesGrow(c: Cfg, sites: seq<Site>, s: Site)
    ensures PlannedSites(c, sites + [s]) ==
            if s.name in Names(sites, SiteName) then PlannedSites(c, sites)
            else PlannedSites(c, sites) + [PlanSite(c, s)]
  {
    KeepFirstGrow(sites, s, SiteName);
  }

  lemma PlannedProxiesGrow(c: Cfg, proxies: seq<Proxy>, p: Proxy, siteNames: set<string>)
    ensures PlannedProxies(c, proxies + [p], siteNames) ==
            if p.name in Names(proxies, ProxyName) then PlannedProxies(c, proxies, siteNames)
            else PlannedProxies(c, proxies, siteNames) + [PlanProxy(c, p, p.name in siteNames)]
  {
    KeepFirstGrow(proxies, p, ProxyName);
  }

  ghost function MakePlan(c: Cfg, sites: seq<Site>): Plan {
    Plan(PlannedSites(c, sites), PlannedProxies(c, AllProxies(c), Names(sites, SiteName)))
  }

  method PlanSites(c: Cfg, sites: seq<Site>) returns (plans: seq<SitePlan>)
    ensures plans == PlannedSites(c, sites)
  {
    var seen: set<string> := {};
    plans := [];
    for n := 0 to |sites|
      invariant seen == Names(sites[..n], SiteName)
      invariant plans == PlannedSites(c, sites[..n])
    {
      var site := sites[n];
      assert sites[..n + 1] == sites[..n] + [site];
      NamesGrow(sites[..n], site, SiteName);
      PlannedSitesGrow(c, sites[..n], site);
      if site.name in seen {
        continue;
      }
      seen := seen + {site.name};
      var d := SiteDelta(c, site);
      var effective := ComputeEffective(site.name, d.added, d.suppressed);
      plans := plans + [SitePlan(site, effective, ChoosePrimary(site.name, effective, d.primary))];
    }
    assert sites[..|sites|] == sites;
  }

  function PlanName(p: SitePlan): string { p.site.name }

  method CollectNames(plans: seq<SitePlan>) returns (names: set<string>)
    ensures names == Names(plans, PlanName)
  {
    names := {};
    for n := 0 to |plans|
      invariant names == Names(plans[..n], PlanName)
    {
      assert plans[..n + 1] == plans[..n] + [plans[n]];
      NamesGrow(plans[..n], plans[n], PlanName);
      names := names + {plans[n].site.name};
    }
    assert plans[..|plans|] == plans;
  }

  /** The planning loop over configured proxies and then project proxies. */
  method PlanProxyList(c: Cfg, all: seq<Proxy>, siteNames: set<string>) returns (plans: seq<ProxyPlan>)
    ensures plans == PlannedProxies(c, all, siteNames)
  {
    var seen: set<string> := {};
    plans := [];
    for n := 0 to |all|
      invariant seen == Names(all[..n], ProxyName)
      invariant plans == PlannedProxies(c, all[..n], siteNames)
    {
      var proxy := all[n];
      assert all[..n + 1] == all[..n] + [proxy];
      NamesGrow(all[..n], proxy, ProxyName);
      PlannedProxiesGrow(c, all[..n], proxy, siteNames);
      if proxy.name in seen {
        continue;
      }
      seen := seen + {proxy.name};
      var d := StoredDelta(c.domains.proxy, proxy.name);
      var effective := ComputeEffective(proxy.name, d.added, d.suppressed);
      var primary := ChoosePrimary(proxy.name, effective, d.primary);
      plans := plans + [ProxyPlan(proxy, effective, primary, proxy.name in siteNames)];
    }
    assert all[..|all|] == all;
  }

  method PlanProxies(c: Cfg, sitePlans: seq<SitePlan>) returns (plans: seq<ProxyPlan>)
    ensures plans == PlannedProxies(c, AllProxies(c), Names(sitePlans, PlanName))
  {
    var siteNames := CollectNames(sitePlans);
    plans := PlanProxyList(c, AllProxies(c), siteNames);
  }
}
