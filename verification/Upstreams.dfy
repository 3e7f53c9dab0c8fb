/** Which upstream every whole-host name is routed to (bin/orckerd/src/site_domains.rs:221-287,
    crates/orcker-core/src/project.rs:83-97). */
module Upstreams {
  import opened Text
  import opened Config
  import opened Router
  import opened SiteDomains
  import opened RouterBuild
  import opened Insertion
  import opened Ownership
  import opened Mutate

  // ---- The first of a name in a list of proxies ----

  /** A planned proxy that no site shadows is routed as it is. */
  lemma UnshadowedIsRouted(c: Cfg, p: Plan, x: Proxy, j: nat)
    requires GoodPlan(p) && j < |p.proxies| && !p.proxies[j].shadowed && p.proxies[j].proxy == x
    ensures x.name in RoutesOf(c, p).proxies && RoutesOf(c, p).proxies[x.name] == x
  {
    var i, r := |p.sites| + j, RoutesOf(c, p);
    PlanHolds(c, p);
    assert Holds(r, EntryFor(p, i)) by { assert EntriesOf(p)[i] == EntryFor(p, i); }
  }

  lemma PlannedIsRouted(c: Cfg, sites: seq<Site>, kept: seq<Proxy>, j: nat)
    requires kept == KeepFirst(AllProxies(c), ProxyName) && j < |kept| && kept[j].name !in Names(sites, SiteName)
    ensures var r := Build(c, sites); kept[j].name in r.proxies && r.proxies[kept[j].name] == kept[j]
  {
    MakePlanIsGood(c, sites);
    UnshadowedIsRouted(c, MakePlan(c, sites), kept[j], j);
  }

  lemma FirstIsRouted(c: Cfg, sites: seq<Site>, all: seq<Proxy>, k: nat)
    requires all == AllProxies(c) && k < |all| && all[k].name !in Names(sites, SiteName)
    requires forall j :: 0 <= j < k ==> all[j].name != all[k].name
    ensures var r := Build(c, sites); all[k].name in r.proxies && r.proxies[all[k].name] == all[k]
  {
    FirstIsKept(all, ProxyName, k);
    var kept := KeepFirst(all, ProxyName);
    var j :| 0 <= j < |kept| && kept[j] == all[k];
    PlannedIsRouted(c, sites, kept, j);
  }

  lemma RoutedIsPlanned(c: Cfg, p: Plan, n: string) returns (j: nat)
    requires GoodPlan(p) && n in RoutesOf(c, p).proxies
    ensures j < |p.proxies| && !p.proxies[j].shadowed && p.proxies[j].proxy.name == n
  {
    var r := RoutesOf(c, p);
    PlanHolds(c, p);
    var i := KeyHasEntry(EntriesOf(p), Count(p), n);
    assert Holds(r, EntryFor(p, i)) by { assert EntriesOf(p)[i] == EntryFor(p, i); }
    assert n !in r.sites;
    j := i - |p.sites|;
  }

  lemma RoutedIsListed(c: Cfg, sites: seq<Site>, n: string)
    requires n in Build(c, sites).proxies
    ensures n !in Names(sites, SiteName) && exists k :: 0 <= k < |AllProxies(c)| && AllProxies(c)[k].name == n
  {
    MakePlanIsGood(c, sites);
    var j := RoutedIsPlanned(c, MakePlan(c, sites), n);
    var kept := KeepFirst(AllProxies(c), ProxyName);
    KeepFirstFacts(AllProxies(c), ProxyName);
    assert kept[j] in AllProxies(c);
  }

  // ---- The proxies that container projects contribute ----

  function UsableNamed(n: string): Project -> bool { (p: Project) => p.name == n && p.port != 0 }

  lemma FirstIndexOfCons<T>(x: T, s: seq<T>, p: T -> bool)
    ensures FirstIndex([x] + s, p) == if p(x) then 0 else 1 + FirstIndex(s, p)
  {
    assert ([x] + s)[1..] == s;
  }

  lemma {:induction false} FirstProjectProxy(ps: seq<Project>, n: string)
    ensures var all, i := ProjectProxies(ps), FirstIndex(ps, UsableNamed(n));
            var k := FirstIndex(all, ProxyNamed(n));
            && (k < |all| <==> i < |ps|)
            && (i < |ps| ==> all[k] == Proxy(n, Target("127.0.0.1", ps[i].port), ps[i].secure))
  {
    if ps != [] {
      var x, rest := ps[0], ps[1..];
      FirstProjectProxy(rest, n);
      assert ps == [x] + rest;
      FirstIndexOfCons(x, rest, UsableNamed(n));
      if x.port != 0 {
        FirstIndexOfCons(Proxy(x.name, Target("127.0.0.1", x.port), x.secure), ProjectProxies(rest), ProxyNamed(n));
      }
    }
  }

  lemma {:induction false} FirstIndexOfConcat<T>(a: seq<T>, b: seq<T>, p: T -> bool)
    ensures FirstIndex(a + b, p) == if FirstIndex(a, p) < |a| then FirstIndex(a, p) else |a| + FirstIndex(b, p)
  {
    if a == [] {
      assert a + b == b;
    } else {
      assert (a + b)[1..] == a[1..] + b;
      FirstIndexOfConcat(a[1..], b, p);
    }
  }

  // ---- What is routed ----

  /** The first configured proxy of a name. */
  ghost predicate FirstProxyAt(c: Cfg, n: string, i: nat) {
    i < |c.proxies| && c.proxies[i].name == n && forall j :: 0 <= j < i ==> c.proxies[j].name != n
  }

  /** The first project of a name that has a port. */
  ghost predicate FirstProjectAt(c: Cfg, n: string, i: nat) {
    && i < |c.projects| && c.projects[i].name == n && c.projects[i].port != 0
    && forall j :: 0 <= j < i ==> c.projects[j].name != n || c.projects[j].port == 0
  }

  /** Some proxy, or some project with a port, bears the name. */
  ghost predicate Proxied(c: Cfg, n: string) {
    (exists i: nat :: FirstProxyAt(c, n, i)) || exists i: nat :: FirstProjectAt(c, n, i)
  }

  /** Where the proxy of a name is found among all of them. */
  lemma FirstOfAll(c: Cfg, n: string, all: seq<Proxy>) returns (k: nat)
    requires all == AllProxies(c)
    ensures k == FirstIndex(all, ProxyNamed(n)) && (k < |all| <==> Proxied(c, n))
    ensures forall i: nat :: FirstProxyAt(c, n, i) ==> k < |all| && all[k] == c.proxies[i]
    ensures !IsProxy(c, n) ==>
              forall i: nat :: FirstProjectAt(c, n, i) ==>
                k < |all| && all[k] == Proxy(n, Target("127.0.0.1", c.projects[i].port), c.projects[i].secure)
  {
    var more := ProjectProxies(c.projects);
    k := FirstIndex(c.proxies + more, ProxyNamed(n));
    FirstIndexOfConcat(c.proxies, more, ProxyNamed(n));
    FirstProjectProxy(c.projects, n);
    var i, j := FirstIndex(c.proxies, ProxyNamed(n)), FirstIndex(c.projects, UsableNamed(n));
    assert forall l: nat :: FirstProxyAt(c, n, l) ==> l == i;
    assert forall l: nat :: FirstProjectAt(c, n, l) ==> l == j;
    assert i < |c.proxies| <==> FirstProxyAt(c, n, i);
    assert j < |c.projects| <==> FirstProjectAt(c, n, j);
  }

  ghost predicate Scanned(sites: seq<Site>, n: string) {
    exists s :: s in sites && s.name == n
  }

  lemma ScannedNames(sites: seq<Site>, n: string)
    ensures n in Names(sites, SiteName) <==> Scanned(sites, n)
  {
    if Scanned(sites, n) {
      var s :| s in sites && s.name == n;
      var i :| 0 <= i < |sites| && sites[i] == s;
      assert SiteName(sites[i]) == n;
    }
    if n in Names(sites, SiteName) {
      var i :| 0 <= i < |sites| && SiteName(sites[i]) == n;
      assert sites[i] in sites;
    }
  }

  /** The routed proxies, exactly: a name no scanned site bears goes to its first configured proxy, and
      without one to the loopback port of its first project that has a port; no other name is proxied. */
  lemma RoutedProxies(c: Cfg, sites: seq<Site>, n: string)
    ensures var r := Build(c, sites);
            && (n in r.proxies <==> !Scanned(sites, n) && Proxied(c, n))
            && (forall i: nat :: n in r.proxies && FirstProxyAt(c, n, i) ==> r.proxies[n] == c.proxies[i])
            && (forall i: nat :: n in r.proxies && !IsProxy(c, n) && FirstProjectAt(c, n, i) ==>
                  r.proxies[n] == Proxy(n, Target("127.0.0.1", c.projects[i].port), c.projects[i].secure))
  {
    var all := AllProxies(c);
    var k := FirstOfAll(c, n, all);
    ScannedNames(sites, n);
    if n in Build(c, sites).proxies { RoutedIsListed(c, sites, n); }
    if !Scanned(sites, n) && k < |all| { FirstIsRouted(c, sites, all, k); }
  }

  /** In a valid configuration every proxy and every project whose name no scanned site bears is routed, the proxy
      to its own target, the project to its own loopback port. */
  lemma ValidUpstreamsAreRouted(c: Cfg, sites: seq<Site>, i: nat)
    requires Validate(c)
    ensures i < |c.proxies| && !Scanned(sites, c.proxies[i].name) ==>
              var n, r := c.proxies[i].name, Build(c, sites); n in r.proxies && r.proxies[n] == c.proxies[i]
    ensures i < |c.projects| && !Scanned(sites, c.projects[i].name) ==>
              var p, r := c.projects[i], Build(c, sites);
              p.name in r.proxies && r.proxies[p.name] == Proxy(p.name, Target("127.0.0.1", p.port), p.secure)
  {
    if i < |c.proxies| {
      assert FirstProxyAt(c, c.proxies[i].name, i);
      RoutedProxies(c, sites, c.proxies[i].name);
    }
    if i < |c.projects| {
      assert FirstProjectAt(c, c.projects[i].name, i);
      RoutedProxies(c, sites, c.projects[i].name);
    }
  }
}
