/** The host router: identity maps plus the two domain indices (crates/orcker-core/src/router.rs). */
module Router {
  import opened Text
  import opened Domains
  import opened Config

  /** The router's contents. Claimant names share one namespace across sites and proxies. */
  datatype Routes = Routes(
    tld: string,
    sites: map<string, Site>,
    proxies: map<string, Proxy>,
    domains: map<string, seq<Domain>>,
    primaries: map<string, Domain>,
    exact: map<Domain, string>,
    wildcards: map<Domain, string>,
    proxyRules: map<string, seq<Rule<Target>>>,
    routeRules: map<string, seq<Rule<string>>>)

  function EmptyRoutes(tld: string): Routes {
    Routes(tld, map[], map[], map[], map[], map[], map[], map[], map[])
  }

  /** Look a domain up in the index of its sort. */
  function OwnerIn(exact: map<Domain, string>, wildcards: map<Domain, string>, d: Domain): Option<string> {
    var index := if IsWildcard(d) then wildcards else exact;
    if d in index then Some(index[d]) else None
  }

  /** The claimant a domain routes to. */
  function DomainOwner(r: Routes, d: Domain): Option<string> {
    OwnerIn(r.exact, r.wildcards, d)
  }

  predicate NameTaken(r: Routes, name: string) {
    name in r.sites || name in r.proxies
  }

  predicate AnyClaimed(r: Routes, ds: seq<Domain>) {
    exists i :: 0 <= i < |ds| && DomainOwner(r, ds[i]).Some?
  }

  datatype InsertError = DuplicateSite | DuplicateDomain

  function InsertFault(r: Routes, name: string, ds: seq<Domain>): Option<InsertError> {
    if NameTaken(r, name) then Some(DuplicateSite)
    else if AnyClaimed(r, ds) then Some(DuplicateDomain)
    else None
  }

  /** The index entries `ds` contributes: its wildcard keys or its exact ones. */
  function Entries(ds: seq<Domain>, wild: bool, name: string): map<Domain, string> {
    map d | d in ds && IsWildcard(d) == wild :: name
  }

  lemma EntriesGrow(m: map<Domain, string>, ds: seq<Domain>, d: Domain, wild: bool, name: string)
    ensures m + Entries(ds + [d], wild, name) ==
            if IsWildcard(d) == wild then (m + Entries(ds, wild, name))[d := name] else m + Entries(ds, wild, name)
  {
  }

  /** Enter a claimant's domains and primary into the shared maps. */
  function Indexed(r: Routes, name: string, ds: seq<Domain>, primary: Domain): Routes {
    r.(exact := r.exact + Entries(ds, false, name),
       wildcards := r.wildcards + Entries(ds, true, name),
       primaries := r.primaries[name := primary],
       domains := r.domains[name := ds])
  }

  function InsertedSite(r: Routes, site: Site, ds: seq<Domain>, primary: Domain): Routes {
    var r' := Indexed(r, site.name, ds, primary);
    r'.(sites := r.sites[site.name := site])
  }

  function InsertedProxy(r: Routes, proxy: Proxy, ds: seq<Domain>, primary: Domain): Routes {
    var r' := Indexed(r, proxy.name, ds, primary);
    r'.(proxies := r.proxies[proxy.name := proxy])
  }

  /** `set_proxy_rules` / `set_route_rules` on one of the rule maps: an empty list clears the entry. */
  function PutRules<T>(m: map<string, seq<Rule<T>>>, site: string, rules: seq<Rule<T>>): map<string, seq<Rule<T>>> {
    if rules == [] then m - {site} else m[site := rules]
  }

  class SiteRouter {
    const tld: string
    var sites: map<string, Site>
    var proxies: map<string, Proxy>
    var domains: map<string, seq<Domain>>
    var primaries: map<string, Domain>
    var exact: map<Domain, string>
    var wildcards: map<Domain, string>
    var proxyRules: map<string, seq<Rule<Target>>>
    var routeRules: map<string, seq<Rule<string>>>

    ghost function View(): Routes
      reads this
    {
      Routes(tld, sites, proxies, domains, primaries, exact, wildcards, proxyRules, routeRules)
    }

    constructor (tld: string)
      ensures View() == EmptyRoutes(tld)
    {
      this.tld := tld;
      sites, proxies, domains, primaries := map[], map[], map[], map[];
      exact, wildcards, proxyRules, routeRules := map[], map[], map[], map[];
    }

    /** The safety nets both insert paths share; nothing is written when one fires. */
    method Check(name: string, effective: seq<Domain>) returns (fault: Option<InsertError>)
      ensures fault == InsertFault(View(), name, effective)
    {
      if name in sites || name in proxies {
        return Some(DuplicateSite);
      }
      for i := 0 to |effective|
        invariant forall j :: 0 <= j < i ==> DomainOwner(View(), effective[j]).None?
      {
        var claimed := if IsWildcard(effective[i]) then effective[i] in wildcards else effective[i] in exact;
        if claimed {
          assert DomainOwner(View(), effective[i]).Some?;
          return Some(DuplicateDomain);
        }
      }
      fault := None;
    }

    method Index(name: string, effective: seq<Domain>, primary: Domain)
      modifies this
      ensures View() == Indexed(old(View()), name, effective, primary)
    {
      for i := 0 to |effective|
        invariant exact == old(exact) + Entries(effective[..i], false, name)
        invariant wildcards == old(wildcards) + Entries(effective[..i], true, name)
        invariant View() == old(View()).(exact := exact, wildcards := wildcards)
      {
        assert effective[..i + 1] == effective[..i] + [effective[i]];
        EntriesGrow(old(exact), effective[..i], effective[i], false, name);
        EntriesGrow(old(wildcards), effective[..i], effective[i], true, name);
        if IsWildcard(effective[i]) {
          wildcards := wildcards[effective[i] := name];
        } else {
          exact := exact[effective[i] := name];
        }
      }
      assert effective[..|effective|] == effective;
      primaries := primaries[name := primary];
      domains := domains[name := effective];
    }

    method InsertWithDomains(site: Site, effective: seq<Domain>, primary: Domain) returns (r: Result<(), InsertError>)
      modifies this
      ensures r == match InsertFault(old(View()), site.name, effective) case None => Ok(()) case Some(e) => Err(e)
      ensures View() == if r.Ok? then InsertedSite(old(View()), site, effective, primary) else old(View())
    {
      var fault := Check(site.name, effective);
      if fault.Some? { return Err(fault.value); }
      Index(site.name, effective, primary);
      sites := sites[site.name := site];
      r := Ok(());
    }

    method InsertProxyWithDomains(proxy: Proxy, effective: seq<Domain>, primary: Domain)
      returns (r: Result<(), InsertError>)
      modifies this
      ensures r == match InsertFault(old(View()), proxy.name, effective) case None => Ok(()) case Some(e) => Err(e)
      ensures View() == if r.Ok? then InsertedProxy(old(View()), proxy, effective, primary) else old(View())
    {
      var fault := Check(proxy.name, effective);
      if fault.Some? { return Err(fault.value); }
      Index(proxy.name, effective, primary);
      proxies := proxies[proxy.name := proxy];
      r := Ok(());
    }

    method SetProxyRules(site: string, rules: seq<Rule<Target>>)
      modifies this
      ensures View() == old(View()).(proxyRules := PutRules(old(proxyRules), site, rules))
    {
      proxyRules := if rules == [] then proxyRules - {site} else proxyRules[site := rules];
    }

    method SetRouteRules(site: string, rules: seq<Rule<string>>)
      modifies this
      ensures View() == old(View()).(routeRules := PutRules(old(routeRules), site, rules))
    {
      routeRules := if rules == [] then routeRules - {site} else routeRules[site := rules];
    }
  }

  // ---- What a coherent router looks like ----

  /** `n` is a known claimant and `d` is among its domains. */
  predicate Lists(domains: map<string, seq<Domain>>, n: string, d: Domain) {
    n in domains && d in domains[n]
  }

  /** The index and the per-claimant domain sets say the same thing, so those sets are disjoint. */
  ghost predicate IndexAgrees(exact: map<Domain, string>, wildcards: map<Domain, string>,
                              domains: map<string, seq<Domain>>)
  {
    && (forall d :: d in exact ==> !IsWildcard(d))
    && (forall d :: d in wildcards ==> IsWildcard(d))
    && (forall d :: OwnerIn(exact, wildcards, d).Some? ==> Lists(domains, OwnerIn(exact, wildcards, d).value, d))
    && (forall d, n :: Lists(domains, n, d) ==> OwnerIn(exact, wildcards, d) == Some(n))
  }

  /** One namespace: no name is both a site and a proxy, and every claimant has domains and a primary. */
  ghost predicate KeysAgree(r: Routes) {
    && r.sites.Keys !! r.proxies.Keys
    && r.domains.Keys == r.primaries.Keys == r.sites.Keys + r.proxies.Keys
  }

  ghost predicate Coherent(r: Routes) {
    && KeysAgree(r)
    && IndexAgrees(r.exact, r.wildcards, r.domains)
  }

  /** In a coherent router no domain is listed by two claimants. */
  lemma CoherentSetsAreDisjoint(r: Routes, m: string, n: string, d: Domain)
    requires Coherent(r) && Lists(r.domains, m, d) && Lists(r.domains, n, d)
    ensures m == n
  {
  }

  lemma IndexedOwner(r: Routes, name: string, ds: seq<Domain>, d: Domain)
    ensures OwnerIn(r.exact + Entries(ds, false, name), r.wildcards + Entries(ds, true, name), d) ==
            if d in ds then Some(name) else DomainOwner(r, d)
  {
  }

  /** A successful insertion keeps index and domain sets in agreement. */
  lemma InsertKeepsIndex(r: Routes, name: string, ds: seq<Domain>)
    requires Coherent(r) && InsertFault(r, name, ds).None?
    ensures IndexAgrees(r.exact + Entries(ds, false, name), r.wildcards + Entries(ds, true, name),
                        r.domains[name := ds])
  {
    var exact, wildcards := r.exact + Entries(ds, false, name), r.wildcards + Entries(ds, true, name);
    var domains := r.domains[name := ds];
    forall d | OwnerIn(exact, wildcards, d).Some? ensures Lists(domains, OwnerIn(exact, wildcards, d).value, d) {
      IndexedOwner(r, name, ds, d);
      assert d !in ds ==> Lists(r.domains, DomainOwner(r, d).value, d);
    }
    forall d, n | Lists(domains, n, d) ensures OwnerIn(exact, wildcards, d) == Some(n) {
      IndexedOwner(r, name, ds, d);
      assert n != name ==> Lists(r.domains, n, d);
      assert d in ds ==> exists i :: 0 <= i < |ds| && ds[i] == d;
    }
  }
}
