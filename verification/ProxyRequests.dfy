/** What an accepted AddProxy does to the routes (bin/orckerd/src/mutate.rs:338-370). */
module ProxyRequests {
  import opened Text
  import opened Domains
  import opened Config
  import opened Router
  import opened Claims
  import opened SiteDomains
  import opened RouterBuild
  import opened Ownership
  import opened Mutate
  import opened DomainRequests

  // ---- One more claimant ----

  /** Where claimant `i` stands once another has been put in at `m`. */
  function Shift(i: nat, m: nat): nat { if i < m then i else i + 1 }

  /** `cs'` is `cs` with one more claimant at `m`. */
  ghost predicate Widened(cs: seq<Claimant>, cs': seq<Claimant>, m: nat) {
    |cs'| == |cs| + 1 && m <= |cs| && forall i: nat :: i < |cs| ==> cs'[Shift(i, m)] == cs[i]
  }

  lemma BeatsShifted(cs: seq<Claimant>, cs': seq<Claimant>, m: nat, d: Domain, i: nat, j: nat)
    requires Widened(cs, cs', m) && i < |cs| && j < |cs|
    ensures Beats(cs', d, Shift(i, m), Shift(j, m)) == Beats(cs, d, i, j)
  {
    assert cs'[Shift(i, m)] == cs[i] && cs'[Shift(j, m)] == cs[j];
  }

  lemma OwnerShifts(cs: seq<Claimant>, cs': seq<Claimant>, m: nat, d: Domain, i: nat)
    requires Widened(cs, cs', m) && !Wants(cs'[m], d) && IsOwner(cs, d, i)
    ensures Owner(cs', d) == Some(Shift(i, m))
  {
    var i' := Shift(i, m);
    assert cs'[i'] == cs[i];
    forall j': nat | j' < |cs'| && j' != i' && Wants(cs'[j'], d) ensures Beats(cs', d, i', j') {
      var j := if j' < m then j' else j' - 1;
      assert Shift(j, m) == j' && cs'[j'] == cs[j];
      BeatsShifted(cs, cs', m, d, i, j);
    }
    assert IsOwner(cs', d, i');
  }

  /** A newcomer that does not want `d` changes nobody's hold on it. */
  lemma OwnerWidened(cs: seq<Claimant>, cs': seq<Claimant>, m: nat, d: Domain)
    requires Widened(cs, cs', m) && !Wants(cs'[m], d)
    ensures Owner(cs, d).None? ==> Owner(cs', d).None?
    ensures Owner(cs, d).Some? ==> Owner(cs', d) == Some(Shift(Owner(cs, d).value, m))
  {
    if Owner(cs, d).Some? {
      assert IsOwner(cs, d, Owner(cs, d).value);
      OwnerShifts(cs, cs', m, d, Owner(cs, d).value);
    } else if Owner(cs', d).Some? {
      var k' := Owner(cs', d).value;
      assert IsOwner(cs', d, k');
      var k := if k' < m then k' else k' - 1;
      assert Shift(k, m) == k' && Wants(cs[k], d);
      WantedHasOwner(cs, d);
    }
  }

  /** A newcomer that wants what nobody had owns it. */
  lemma NewcomerOwns(cs: seq<Claimant>, cs': seq<Claimant>, m: nat, d: Domain)
    requires Widened(cs, cs', m) && Wants(cs'[m], d) && Owner(cs, d).None?
    ensures Owner(cs', d) == Some(m)
  {
    forall j': nat | j' < |cs'| && j' != m ensures !Wants(cs'[j'], d) {
      var j := if j' < m then j' else j' - 1;
      assert Shift(j, m) == j' && cs'[j'] == cs[j];
      if Wants(cs[j], d) { WantedHasOwner(cs, d); }
    }
    assert IsOwner(cs', d, m);
  }

  // ---- One more proxy in the plan ----

  /** `s'` is `s` with `x` put in at `k`. */
  ghost predicate InsertedAt<T>(s: seq<T>, s': seq<T>, k: nat, x: T) {
    k <= |s| && s' == s[..k] + [x] + s[k..]
  }

  lemma InsertedGrow<T>(s: seq<T>, s': seq<T>, k: nat, x: T, y: T)
    requires InsertedAt(s, s', k, x)
    ensures InsertedAt(s + [y], s' + [y], k, x)
  {
    assert (s + [y])[..k] == s[..k] && (s + [y])[k..] == s[k..] + [y];
  }

  lemma {:induction false} NamesInsert<T>(a: seq<T>, x: T, b: seq<T>, name: T -> string)
    ensures Names(a + [x] + b, name) == Names(a + b, name) + {name(x)}
    decreases |b|
  {
    if b == [] {
      assert a + b == a && a + [x] + b == a + [x];
      NamesGrow(a, x, name);
    } else {
      var front, y := b[..|b| - 1], b[|b| - 1];
      NamesInsert(a, x, front, name);
      assert a + b == (a + front) + [y] && a + [x] + b == (a + [x] + front) + [y];
      NamesGrow(a + front, y, name);
      NamesGrow(a + [x] + front, y, name);
    }
  }

  /** An element of a new name put in the middle is kept there, and nothing else changes. */
  lemma {:induction false} KeepFirstInsert<T>(a: seq<T>, x: T, b: seq<T>, name: T -> string)
    requires name(x) !in Names(a, name) && name(x) !in Names(b, name)
    ensures InsertedAt(KeepFirst(a + b, name), KeepFirst(a + [x] + b, name), |KeepFirst(a, name)|, x)
    decreases |b|
  {
    if b == [] {
      assert a + b == a && a + [x] + b == a + [x];
      KeepFirstGrow(a, x, name);
    } else {
      var front, y := b[..|b| - 1], b[|b| - 1];
      assert b == front + [y];
      NamesGrow(front, y, name);
      KeepFirstInsert(a, x, front, name);
      NamesInsert(a, x, front, name);
      assert a + b == (a + front) + [y] && a + [x] + b == (a + [x] + front) + [y];
      KeepFirstGrow(a + front, y, name);
      KeepFirstGrow(a + [x] + front, y, name);
      InsertedGrow(KeepFirst(a + front, name), KeepFirst(a + [x] + front, name), |KeepFirst(a, name)|, x, y);
    }
  }

  /** `p'` is `p` with one more proxy plan at `k`. */
  ghost predicate OneMoreProxy(p: Plan, p': Plan, k: nat, x: ProxyPlan) {
    p'.sites == p.sites && InsertedAt(p.proxies, p'.proxies, k, x)
  }

  lemma ShiftedClaimant(p: Plan, p': Plan, k: nat, x: ProxyPlan, i: nat)
    requires OneMoreProxy(p, p', k, x) && i < Count(p)
    ensures var i' := Shift(i, |p.sites| + k);
            i' < Count(p') && NameAt(p', i') == NameAt(p, i) && Claimants(p')[i'] == Claimants(p)[i]
  {
    var i' := Shift(i, |p.sites| + k);
    if i >= |p.sites| {
      assert p'.proxies[i' - |p.sites|] == p.proxies[i - |p.sites|];
    }
  }

  lemma WidenedByProxy(p: Plan, p': Plan, k: nat, x: ProxyPlan)
    requires OneMoreProxy(p, p', k, x)
    ensures var m := |p.sites| + k;
            && Widened(Claimants(p), Claimants(p'), m) && NameAt(p', m) == x.proxy.name
            && Claimants(p')[m].effective == x.effective && Claimants(p')[m].eligible == !x.shadowed
            && (forall i: nat :: i < Count(p) ==> NameAt(p', Shift(i, m)) == NameAt(p, i))
  {
    var m := |p.sites| + k;
    forall i: nat | i < Count(p)
      ensures NameAt(p', Shift(i, m)) == NameAt(p, i) && Claimants(p')[Shift(i, m)] == Claimants(p)[i]
    {
      ShiftedClaimant(p, p', k, x, i);
    }
    assert p'.proxies[k] == x;
  }

  lemma {:induction false} ProjectProxyNames(ps: seq<Project>, name: string)
    requires forall i :: 0 <= i < |ps| ==> ps[i].name != name
    ensures name !in Names(ProjectProxies(ps), ProxyName)
  {
    if ps != [] {
      ProjectProxyNames(ps[1..], name);
      var rest := ProjectProxies(ps[1..]);
      match ProjectProxy(ps[0]) {
        case Some(p) =>
          forall i | 0 <= i < |[p] + rest| ensures ProxyName(([p] + rest)[i]) != name {
            if i > 0 { assert ProxyName(rest[i - 1]) in Names(rest, ProxyName); }
          }
        case None =>
      }
    }
  }

  lemma AddedProxyIsPlanned(c: Cfg, c': Cfg, sites: seq<Site>, x: Proxy) returns (k: nat)
    requires c' == c.(proxies := c.proxies + [x]) && !IsProxy(c, x.name) && !IsProject(c, x.name)
    ensures OneMoreProxy(MakePlan(c, sites), MakePlan(c', sites), k, PlanProxy(c, x, x.name in Names(sites, SiteName)))
  {
    var a, b, names := c.proxies, ProjectProxies(c.projects), Names(sites, SiteName);
    assert x.name !in Names(a, ProxyName) by { assert forall i :: 0 <= i < |a| ==> a[i].name != x.name; }
    ProjectProxyNames(c.projects, x.name);
    KeepFirstInsert(a, x, b, ProxyName);
    assert AllProxies(c') == a + [x] + b && AllProxies(c) == a + b;
    k := |KeepFirst(a, ProxyName)|;
    var kept, kept' := KeepFirst(a + b, ProxyName), KeepFirst(a + [x] + b, ProxyName);
    assert PlannedSites(c', sites) == PlannedSites(c, sites);
    PlansInsert(c, c', kept, kept', x, k, names);
  }

  lemma MapInsert<S, T>(s: seq<S>, s': seq<S>, k: nat, x: S, f: S -> T)
    requires InsertedAt(s, s', k, x)
    ensures InsertedAt(seq(|s|, i requires 0 <= i < |s| => f(s[i])),
                       seq(|s'|, i requires 0 <= i < |s'| => f(s'[i])), k, f(x))
  {
    var a, b := seq(|s|, i requires 0 <= i < |s| => f(s[i])), seq(|s'|, i requires 0 <= i < |s'| => f(s'[i]));
    forall i | 0 <= i < |b| ensures b[i] == (a[..k] + [f(x)] + a[k..])[i] {
      if i > k { assert s'[i] == s[i - 1]; }
    }
    assert b == a[..k] + [f(x)] + a[k..];
  }

  lemma PlansInsert(c: Cfg, c': Cfg, kept: seq<Proxy>, kept': seq<Proxy>, x: Proxy, k: nat, names: set<string>)
    requires c'.domains == c.domains && InsertedAt(kept, kept', k, x)
    ensures InsertedAt(
              seq(|kept|, i requires 0 <= i < |kept| => PlanProxy(c, kept[i], kept[i].name in names)),
              seq(|kept'|, i requires 0 <= i < |kept'| => PlanProxy(c', kept'[i], kept'[i].name in names)),
              k, PlanProxy(c, x, x.name in names))
  {
    var f := (p: Proxy) => PlanProxy(c, p, p.name in names);
    MapInsert(kept, kept', k, x, f);
    assert seq(|kept|, i requires 0 <= i < |kept| => PlanProxy(c, kept[i], kept[i].name in names)) ==
           seq(|kept|, i requires 0 <= i < |kept| => f(kept[i]));
    assert seq(|kept'|, i requires 0 <= i < |kept'| => PlanProxy(c', kept'[i], kept'[i].name in names)) ==
           seq(|kept'|, i requires 0 <= i < |kept'| => f(kept'[i]));
  }

  // ---- The request ----

  lemma UnroutedIsUnscanned(c: Cfg, sites: seq<Site>, name: string)
    requires name !in Build(c, sites).sites
    ensures name !in Names(sites, SiteName)
  {
    KeepFirstFacts(sites, SiteName);
    var kept := KeepFirst(sites, SiteName);
    if name in Names(sites, SiteName) {
      assert name in Names(kept, SiteName);
      var i :| 0 <= i < |kept| && SiteName(kept[i]) == name;
      KeptSiteIsRouted(c, sites, kept[i]);
    }
  }

  lemma AddedProxyOwners(c: Cfg, c': Cfg, sites: seq<Site>, x: Proxy, d: Domain)
    requires c' == c.(proxies := c.proxies + [x]) && !IsProxy(c, x.name) && !IsProject(c, x.name)
    requires x.name !in c.domains.proxy
    requires x.name !in Build(c, sites).sites && DomainOwner(Build(c, sites), x.name).None?
    ensures DomainOwner(Build(c', sites), d) == if d == x.name then Some(x.name) else DomainOwner(Build(c, sites), d)
  {
    var p, p' := MakePlan(c, sites), MakePlan(c', sites);
    UnroutedIsUnscanned(c, sites, x.name);
    var plan := PlanProxy(c, x, false);
    var k := AddedProxyIsPlanned(c, c', sites, x);
    WidenedByProxy(p, p', k, plan);
    BuildOwner(c, sites, d);
    BuildOwner(c', sites, d);
    BuildOwner(c, sites, x.name);
    ApexOfName(x.name);
    EffectiveSet(x.name, [], []);
    var cs, cs', m := Claimants(p), Claimants(p'), |p.sites| + k;
    assert plan.effective == EffectiveDomains(x.name, [], []);
    assert Wants(cs'[m], d) <==> d == x.name;
    if d == x.name {
      NewcomerOwns(cs, cs', m, d);
    } else {
      OwnerWidened(cs, cs', m, d);
    }
  }

  /** An accepted AddProxy, under a name no project bears and with no delta waiting for it, routes the
      proxy's apex to it and moves no other domain. */
  lemma AddProxyGrants(c: Cfg, sites: seq<Site>, name: Name, target: Target)
    requires DoAddProxy(c, Build(c, sites), Some(name), Some(target)).error.None?
    requires !IsProject(c, name) && name !in c.domains.proxy
    ensures var r, r' := Build(c, sites), Build(DoAddProxy(c, Build(c, sites), Some(name), Some(target)).cfg, sites);
            GrantsOnly(r, r', name, name)
  {
    var r, x := Build(c, sites), Proxy(name, target, false);
    var c' := c.(proxies := c.proxies + [x]);
    ApexOfName(name);
    forall d ensures DomainOwner(Build(c', sites), d) == if d == name then Some(name) else DomainOwner(r, d) {
      AddedProxyOwners(c, c', sites, x, d);
    }
  }
}
