/** What an accepted domain request does to routing
    (bin/orckerd/src/mutate.rs:578-802 together with bin/orckerd/src/site_domains.rs). */
module DomainRequests {
  import opened Text
  import opened Domains
  import opened Config
  import opened Router
  import opened Claims
  import opened SiteDomains
  import opened RouterBuild
  import opened Ownership
  import opened ScanOrder
  import opened Mutate
  import opened Frames

  /** What a scan of `c` returns: every linked site, and parked sites under names that are not linked. */
  ghost predicate ScanOf(c: Cfg, sites: seq<Site>) {
    && (forall i :: 0 <= i < |c.linked| ==> c.linked[i] in sites)
    && (forall s :: s in sites ==> (s.kind.Linked? <==> IsLinked(c, s.name)))
  }

  /** Two different parked sites never share a document root. */
  ghost predicate DistinctRoots(sites: seq<Site>) {
    forall s, t :: s in sites && t in sites && s.kind.Parked? && t.kind.Parked? && s.root == t.root ==> s.name == t.name
  }

  // ---- Where a claimant's delta acts ----

  /** Claimant `i` of the plan is the one whose delta is stored at `t`. */
  predicate StoredAt(p: Plan, i: nat, t: DomainTarget) {
    && i < Count(p)
    && match t
       case LinkedTarget(k) => i < |p.sites| && p.sites[i].site.kind.Linked? && p.sites[i].site.name == k
       case ParkedTarget(k) => i < |p.sites| && p.sites[i].site.kind.Parked? && p.sites[i].site.root == k
       case ProxyTarget(k) => |p.sites| <= i && NameAt(p, i) == k
  }

  function DeltaAt(c: Cfg, p: Plan, i: nat): Delta
    requires i < Count(p)
  {
    if i < |p.sites| then SiteDelta(c, p.sites[i].site) else StoredDelta(c.domains.proxy, NameAt(p, i))
  }

  function EffectiveOf(name: string, d: Delta): seq<Domain> {
    EffectiveDomains(name, d.added, d.suppressed)
  }

  function PrimaryOf(name: string, d: Delta): Domain {
    ChoosePrimary(name, EffectiveOf(name, d), d.primary)
  }

  /** Claimant `i` is planned from the delta it stores. */
  ghost predicate PlannedAt(c: Cfg, p: Plan, i: nat)
    requires i < Count(p)
  {
    && EffectiveAt(p, i) == EffectiveOf(NameAt(p, i), DeltaAt(c, p, i))
    && PlannedPrimaryAt(p, i) == PrimaryOf(NameAt(p, i), DeltaAt(c, p, i))
  }

  lemma MakePlanFrom(c: Cfg, sites: seq<Site>, i: nat)
    requires i < Count(MakePlan(c, sites))
    ensures PlannedAt(c, MakePlan(c, sites), i)
  {
  }

  lemma StoredAtIsDelta(c: Cfg, p: Plan, i: nat, t: DomainTarget)
    requires StoredAt(p, i, t)
    ensures DeltaAt(c, p, i) == GetDelta(c.domains, t)
  {
  }

  /** At most one claimant reads the delta stored at `t`. */
  lemma StoredAtIsUnique(c: Cfg, sites: seq<Site>, t: DomainTarget, i: nat, j: nat)
    requires DistinctRoots(sites)
    requires StoredAt(MakePlan(c, sites), i, t) && StoredAt(MakePlan(c, sites), j, t)
    ensures i == j
  {
    var p := MakePlan(c, sites);
    MakePlanIsGood(c, sites);
    if t.ParkedTarget? {
      KeepFirstFacts(sites, SiteName);
      var kept := KeepFirst(sites, SiteName);
      assert kept[i] in sites && kept[j] in sites;
      assert p.sites[i].site.name == p.sites[j].site.name;
    }
  }

  /** Deltas do not decide who is planned, in which order, or who is shadowed. */
  ghost predicate SameShape(p: Plan, q: Plan) {
    && |p.sites| == |q.sites| && |p.proxies| == |q.proxies|
    && (forall j :: 0 <= j < |p.sites| ==> p.sites[j].site == q.sites[j].site)
    && (forall j :: 0 <= j < |p.proxies| ==>
          p.proxies[j].proxy == q.proxies[j].proxy && p.proxies[j].shadowed == q.proxies[j].shadowed)
  }

  lemma DeltasKeepShape(c: Cfg, doms: DomainsSection, sites: seq<Site>)
    ensures SameShape(MakePlan(c, sites), MakePlan(c.(domains := doms), sites))
  {
  }

  lemma StoreElsewhere(c: Cfg, p: Plan, p': Plan, t: DomainTarget, d: Delta, j: nat)
    requires SameShape(p, p') && j < Count(p) && !StoredAt(p, j, t)
    ensures DeltaAt(c.(domains := StoreDelta(c.domains, t, d)), p', j) == DeltaAt(c, p, j)
  {
  }

  lemma SameShapeNames(p: Plan, p': Plan, j: nat)
    requires SameShape(p, p') && j < Count(p)
    ensures NameAt(p', j) == NameAt(p, j) && EligibleAt(p', j) == EligibleAt(p, j)
  {
  }

  /** Rewriting one stored delta re-plans one claimant. */
  lemma StoreReplans(c: Cfg, p: Plan, c': Cfg, p': Plan, t: DomainTarget, i: nat, d: Delta, j: nat)
    requires c' == c.(domains := StoreDelta(c.domains, t, d)) && SameShape(p, p')
    requires j < Count(p) && PlannedAt(c, p, j) && PlannedAt(c', p', j)
    requires StoredAt(p, i, t) && (StoredAt(p, j, t) ==> j == i)
    ensures j == i ==>
              && EffectiveAt(p', i) == EffectiveOf(NameAt(p, i), d)
              && PlannedPrimaryAt(p', i) == PrimaryOf(NameAt(p, i), d)
    ensures j != i ==> EffectiveAt(p', j) == EffectiveAt(p, j)
  {
    SameShapeNames(p, p', j);
    if j == i {
      assert DeltaAt(c', p', i) == d by { StoredAtIsDelta(c', p', i, t); }
    } else {
      StoreElsewhere(c, p, p', t, d, j);
    }
  }

  /** The claimant a request resolves to is planned, may win, and reads the delta the request edits. */
  lemma TargetIsPlanned(c: Cfg, sites: seq<Site>, name: string) returns (i: nat)
    requires ScanOf(c, sites) && ResolveTarget(c, Build(c, sites), name).Some?
    ensures var p := MakePlan(c, sites);
            && StoredAt(p, i, ResolveTarget(c, Build(c, sites), name).value)
            && EligibleAt(p, i) && NameAt(p, i) == name
  {
    var p, kept := MakePlan(c, sites), KeepFirst(sites, SiteName);
    KeepFirstFacts(sites, SiteName);
    RoutedNames(c, sites);
    if IsLinked(c, name) || name in Build(c, sites).sites {
      if IsLinked(c, name) {
        var k :| 0 <= k < |c.linked| && c.linked[k].name == name;
        assert name in Names(sites, SiteName) by { assert c.linked[k] in sites; NamesContain(sites, c.linked[k]); }
      }
      i :| 0 <= i < |kept| && SiteName(kept[i]) == name;
      assert p.sites[i].site == kept[i] && kept[i] in sites;
      KeptSiteIsRouted(c, sites, kept[i]);
    } else {
      i := ProxyIsPlanned(c, sites, name);
    }
  }

  lemma NamesContain(sites: seq<Site>, s: Site)
    requires s in sites
    ensures s.name in Names(sites, SiteName)
  {
    var i :| 0 <= i < |sites| && sites[i] == s;
    assert SiteName(sites[i]) == s.name;
  }

  lemma ProxyIsPlanned(c: Cfg, sites: seq<Site>, name: string) returns (i: nat)
    requires IsProxy(c, name) && name !in Names(sites, SiteName)
    ensures var p := MakePlan(c, sites); StoredAt(p, i, ProxyTarget(name)) && EligibleAt(p, i) && NameAt(p, i) == name
  {
    var p, all := MakePlan(c, sites), AllProxies(c);
    var kept := KeepFirst(all, ProxyName);
    KeepFirstFacts(all, ProxyName);
    var k :| 0 <= k < |c.proxies| && c.proxies[k].name == name;
    assert ProxyName(all[k]) == name;
    assert name in Names(kept, ProxyName);
    var j :| 0 <= j < |kept| && ProxyName(kept[j]) == name;
    i := |p.sites| + j;
  }

  // ---- Ownership when one claimant's wishes change ----

  /** `cs'` differs from `cs` only in what claimant `i`, which may win, wants. */
  ghost predicate DiffersAt(cs: seq<Claimant>, cs': seq<Claimant>, i: nat) {
    && |cs| == |cs'| && i < |cs|
    && cs[i].eligible && cs'[i].eligible && cs[i].apex == cs'[i].apex
    && (forall j :: 0 <= j < |cs| && j != i ==> cs'[j] == cs[j])
  }

  lemma OwnerUnaffected(cs: seq<Claimant>, cs': seq<Claimant>, i: nat, d: Domain)
    requires DiffersAt(cs, cs', i) && (d in cs[i].effective <==> d in cs'[i].effective)
    ensures Owner(cs', d) == Owner(cs, d)
  {
    AgreeingOwners(cs, cs', d);
  }

  lemma OwnerGained(cs: seq<Claimant>, cs': seq<Claimant>, i: nat, d: Domain)
    requires DiffersAt(cs, cs', i) && d in cs'[i].effective
    requires Owner(cs, d).None? || Owner(cs, d) == Some(i)
    ensures Owner(cs', d) == Some(i)
  {
    if Owner(cs, d) == Some(i) {
      assert IsOwner(cs, d, i);
      AgreeingOwners(cs, cs', d);
    } else {
      if Wanted(cs, d) { WantedHasOwner(cs, d); }
      assert IsOwner(cs', d, i);
    }
  }

  lemma OwnerLost(cs: seq<Claimant>, cs': seq<Claimant>, i: nat, d: Domain)
    requires DiffersAt(cs, cs', i) && d in cs[i].effective && d !in cs'[i].effective
    ensures Owner(cs', d) != Some(i)
    ensures Owner(cs, d) != Some(i) ==> Owner(cs', d) == Owner(cs, d)
  {
    assert !IsOwner(cs', d, i);
    assert Wants(cs[i], d);
    WantedHasOwner(cs, d);
    var k := Owner(cs, d).value;
    assert IsOwner(cs, d, k);
    if k != i {
      assert forall j: nat :: j < |cs| ==> (WantsExplicitly(cs'[j], d) ==> WantsExplicitly(cs[j], d));
      assert IsOwner(cs', d, k);
    }
  }

  // ---- Accepted requests ----

  /** The apex is only there because nothing exact is left. */
  predicate ApexRestored(name: string, d: Delta) {
    Apex(name) in d.suppressed && !HasExact(d.added)
  }

  lemma HasExactGrows(ds: seq<Domain>, d: Domain)
    ensures HasExact(ds + [d]) <==> HasExact(ds) || !IsWildcard(d)
  {
    if HasExact(ds) {
      var i :| 0 <= i < |ds| && !IsWildcard(ds[i]);
      assert (ds + [d])[i] == ds[i];
    }
    if !IsWildcard(d) { assert (ds + [d])[|ds|] == d; }
    if HasExact(ds + [d]) {
      var i :| 0 <= i < |ds + [d]| && !IsWildcard((ds + [d])[i]);
      assert i < |ds| ==> ds[i] == (ds + [d])[i];
    }
  }

  lemma ExactMemberIsExact(ds: seq<Domain>, d: Domain)
    requires d in ds && !IsWildcard(d)
    ensures HasExact(ds)
  {
    var i :| 0 <= i < |ds| && ds[i] == d;
  }

  lemma EffectiveAfterUnsuppress(n: Name, d: Delta, e: Domain)
    ensures e in EffectiveOf(n, d.(suppressed := Without(d.suppressed, n))) <==> e == n || e in EffectiveOf(n, d)
  {
    ApexOfName(n);
    WithoutFacts(d.suppressed, n);
    EffectiveSet(n, d.added, d.suppressed);
    EffectiveSet(n, d.added, Without(d.suppressed, n));
  }

  lemma EffectiveAfterAppend(n: Name, d: Delta, dom: Domain, e: Domain)
    requires dom != n
    ensures e in EffectiveOf(n, d.(added := d.added + [dom])) <==>
              e == dom || (e in EffectiveOf(n, d) && !(e == n && ApexRestored(n, d) && !IsWildcard(dom)))
  {
    ApexOfName(n);
    EffectiveSet(n, d.added, d.suppressed);
    EffectiveSet(n, d.added + [dom], d.suppressed);
    HasExactGrows(d.added, dom);
    if n in d.added { ExactMemberIsExact(d.added, n); }
  }

  /** Adding a domain adds just that to the effective set, except that a restored apex goes once an
      exact domain joins. */
  lemma EffectiveAfterAdd(n: Name, d: Delta, dom: Domain, e: Domain)
    ensures var d' := WithDomain(d, n, dom);
            e in EffectiveOf(n, d') <==>
              e == dom || (e in EffectiveOf(n, d) && !(e == n && ApexRestored(n, d) && dom != n && !IsWildcard(dom)))
  {
    if dom == n {
      EffectiveAfterUnsuppress(n, d, e);
    } else if dom in d.added {
      EffectiveSet(n, d.added, d.suppressed);
      if !IsWildcard(dom) { ExactMemberIsExact(d.added, dom); }
    } else {
      EffectiveAfterAppend(n, d, dom, e);
    }
  }

  /** The routing effect of an edit at `t`: `d'` replaces the stored delta and the router is rebuilt. */
  datatype Edit = Edit(c: Cfg, c': Cfg, sites: seq<Site>, t: DomainTarget, i: nat, d: Delta)
  {
    ghost function Before(): Plan { MakePlan(c, sites) }
    ghost function After(): Plan { MakePlan(c', sites) }

    ghost predicate Valid() {
      && DistinctRoots(sites)
      && c' == c.(domains := StoreDelta(c.domains, t, d))
      && StoredAt(Before(), i, t) && EligibleAt(Before(), i)
    }
  }

  /** An edit keeps every claimant in its place and changes one claimant's wishes. */
  lemma EditDiffers(e: Edit)
    requires e.Valid()
    ensures GoodPlan(e.Before()) && GoodPlan(e.After()) && SameShape(e.Before(), e.After())
    ensures DiffersAt(Claimants(e.Before()), Claimants(e.After()), e.i)
    ensures EffectiveAt(e.After(), e.i) == EffectiveOf(NameAt(e.Before(), e.i), e.d)
    ensures PlannedPrimaryAt(e.After(), e.i) == PrimaryOf(NameAt(e.Before(), e.i), e.d)
    ensures EffectiveAt(e.Before(), e.i) == EffectiveOf(NameAt(e.Before(), e.i), GetDelta(e.c.domains, e.t))
  {
    var p, p' := e.Before(), e.After();
    MakePlanIsGood(e.c, e.sites);
    MakePlanIsGood(e.c', e.sites);
    DeltasKeepShape(e.c, e.c'.domains, e.sites);
    MakePlanFrom(e.c, e.sites, e.i);
    StoredAtIsDelta(e.c, p, e.i, e.t);
    EditReplans(e, e.i);
    forall j: nat | j < Count(p) && j != e.i ensures Claimants(p)[j] == Claimants(p')[j] {
      EditReplans(e, j);
      SameShapeNames(p, p', j);
    }
    SameShapeNames(p, p', e.i);
  }

  lemma EditReplans(e: Edit, j: nat)
    requires e.Valid() && j < Count(e.Before())
    ensures SameShape(e.Before(), e.After())
    ensures j == e.i ==> EffectiveAt(e.After(), j) == EffectiveOf(NameAt(e.Before(), j), e.d)
    ensures j == e.i ==> PlannedPrimaryAt(e.After(), j) == PrimaryOf(NameAt(e.Before(), j), e.d)
    ensures j != e.i ==> EffectiveAt(e.After(), j) == EffectiveAt(e.Before(), j)
  {
    DeltasKeepShape(e.c, e.c'.domains, e.sites);
    MakePlanFrom(e.c, e.sites, j);
    MakePlanFrom(e.c', e.sites, j);
    if StoredAt(e.Before(), j, e.t) { StoredAtIsUnique(e.c, e.sites, e.t, e.i, j); }
    StoreReplans(e.c, e.Before(), e.c', e.After(), e.t, e.i, e.d, j);
  }

  /** The exact circumstance in which adding `dom` takes a domain away: the claimant owns its apex only
      because nothing exact is left, and `dom` is exact. */
  ghost predicate LosesApex(r: Routes, name: string, d: Delta, dom: Domain) {
    ApexRestored(name, d) && dom != Apex(name) && !IsWildcard(dom) && DomainOwner(r, Apex(name)) == Some(name)
  }

  lemma OwnerNames(e: Edit, x: Domain)
    requires e.Valid()
    ensures DomainOwner(Build(e.c, e.sites), x) == OwnerName(e.Before(), x)
    ensures DomainOwner(Build(e.c', e.sites), x) == OwnerName(e.After(), x)
    ensures Owner(Claimants(e.Before()), x) == Owner(Claimants(e.After()), x) ==>
              OwnerName(e.Before(), x) == OwnerName(e.After(), x)
    ensures OwnerName(e.Before(), x) == Some(NameAt(e.Before(), e.i)) <==> Owner(Claimants(e.Before()), x) == Some(e.i)
    ensures OwnerName(e.After(), x) == Some(NameAt(e.Before(), e.i)) <==> Owner(Claimants(e.After()), x) == Some(e.i)
  {
    EditDiffers(e);
    BuildOwner(e.c, e.sites, x);
    BuildOwner(e.c', e.sites, x);
    SameShapeNames(e.Before(), e.After(), e.i);
    OwnerNameIs(e.Before(), e.i, x);
    OwnerNameIs(e.After(), e.i, x);
    if Owner(Claimants(e.Before()), x).Some? {
      SameShapeNames(e.Before(), e.After(), Owner(Claimants(e.Before()), x).value);
    }
  }

  lemma OwnerNameIs(p: Plan, i: nat, x: Domain)
    requires GoodPlan(p) && i < Count(p) && EligibleAt(p, i)
    ensures OwnerName(p, x) == Some(NameAt(p, i)) <==> Owner(Claimants(p), x) == Some(i)
  {
    if OwnerName(p, x) == Some(NameAt(p, i)) {
      var k := Owner(Claimants(p), x).value;
      assert IsOwner(Claimants(p), x, k);
      EligibleNamesAreDistinct(p, i, k);
    }
  }

  /** What an edit that adds `dom` to the wishes of its claimant does to the owner of `x`. */
  lemma EditOwners(e: Edit, dom: Domain, x: Domain)
    requires e.Valid()
    requires var n, stored := NameAt(e.Before(), e.i), GetDelta(e.c.domains, e.t);
             && e.d.added == WithDomain(stored, n, dom).added && e.d.suppressed == WithDomain(stored, n, dom).suppressed
             && !ClaimedElsewhere(Build(e.c, e.sites), n, dom)
    ensures var n, r, r' := NameAt(e.Before(), e.i), Build(e.c, e.sites), Build(e.c', e.sites);
            var loses := LosesApex(r, n, GetDelta(e.c.domains, e.t), dom);
            && (x == dom ==> DomainOwner(r', x) == Some(n))
            && (x != dom && !(loses && x == n) ==> DomainOwner(r', x) == DomainOwner(r, x))
            && (loses && x == n ==> DomainOwner(r', x) != Some(n))
  {
    var n, stored := NameAt(e.Before(), e.i), GetDelta(e.c.domains, e.t);
    var cs, cs' := Claimants(e.Before()), Claimants(e.After());
    EditDiffers(e);
    OwnerNames(e, x);
    ApexOfName(n);
    EffectiveAfterAdd(n, stored, dom, x);
    assert x in cs'[e.i].effective <==> x in EffectiveOf(n, WithDomain(stored, n, dom));
    assert x in cs[e.i].effective <==> x in EffectiveOf(n, stored);
    if x == dom {
      OwnerGained(cs, cs', e.i, x);
    } else if x in cs[e.i].effective && x !in cs'[e.i].effective {
      OwnerLost(cs, cs', e.i, x);
    } else {
      OwnerUnaffected(cs, cs', e.i, x);
    }
  }

  /** The claimant of a resolved target, as an edit of its delta. */
  lemma ResolvedEdit(c: Cfg, sites: seq<Site>, name: string, d: Delta) returns (e: Edit)
    requires ScanOf(c, sites) && DistinctRoots(sites) && ResolveTarget(c, Build(c, sites), name).Some?
    ensures e.Valid() && e.c == c && e.sites == sites && e.d == d
    ensures e.t == ResolveTarget(c, Build(c, sites), name).value && NameAt(e.Before(), e.i) == name
  {
    var t := ResolveTarget(c, Build(c, sites), name).value;
    var i := TargetIsPlanned(c, sites, name);
    e := Edit(c, c.(domains := StoreDelta(c.domains, t, d)), sites, t, i, d);
  }

  /** Every other domain keeps its owner and `dom` belongs to `name`. */
  ghost predicate GrantsOnly(r: Routes, r': Routes, name: string, dom: Domain) {
    && DomainOwner(r', dom) == Some(name)
    && (forall x :: x != dom ==> DomainOwner(r', x) == DomainOwner(r, x))
  }

  /** An accepted AddDomain, once the router is rebuilt, routes the domain to the named claimant; it
      leaves every other owner alone exactly when it does not displace a restored apex. */
  lemma AddDomainGrants(c: Cfg, sites: seq<Site>, raw: string, dom: Domain)
    requires ScanOf(c, sites) && DistinctRoots(sites)
    requires DoAddDomain(c, Build(c, sites), raw, Some(dom)).error.None?
    ensures var r, name := Build(c, sites), ToAsciiLower(raw);
            var r' := Build(DoAddDomain(c, r, raw, Some(dom)).cfg, sites);
            var d := GetDelta(c.domains, ResolveTarget(c, r, name).value);
            && DomainOwner(r', dom) == Some(name)
            && (GrantsOnly(r, r', name, dom) <==> !LosesApex(r, name, d, dom))
  {
    var r, name := Build(c, sites), ToAsciiLower(raw);
    var d := GetDelta(c.domains, ResolveTarget(c, r, name).value);
    var e := ResolvedEdit(c, sites, name, WithDomain(d, Apex(name), dom));
    assert e.c' == DoAddDomain(c, r, raw, Some(dom)).cfg;
    ApexOfName(NameAt(e.Before(), e.i));
    var r' := Build(e.c', sites);
    EditOwners(e, dom, dom);
    EditOwners(e, dom, name);
    forall x | x != dom && !LosesApex(r, name, d, dom) ensures DomainOwner(r', x) == DomainOwner(r, x) {
      EditOwners(e, dom, x);
    }
  }

  /** The same for SetPrimaryDomain, whose domain also becomes the claimant's displayed one. */
  lemma SetPrimaryGrants(c: Cfg, sites: seq<Site>, raw: string, dom: Domain)
    requires ScanOf(c, sites) && DistinctRoots(sites)
    requires DoSetPrimary(c, Build(c, sites), raw, Some(dom)).error.None?
    ensures var r, name := Build(c, sites), ToAsciiLower(raw);
            var r' := Build(DoSetPrimary(c, r, raw, Some(dom)).cfg, sites);
            var d := GetDelta(c.domains, ResolveTarget(c, r, name).value);
            && DomainOwner(r', dom) == Some(name)
            && name in r'.primaries && r'.primaries[name] == dom
            && (GrantsOnly(r, r', name, dom) <==> !LosesApex(r, name, d, dom))
  {
    var r, name := Build(c, sites), ToAsciiLower(raw);
    var d := GetDelta(c.domains, ResolveTarget(c, r, name).value);
    var e := ResolvedEdit(c, sites, name, WithPrimary(d, Apex(name), dom));
    assert e.c' == DoSetPrimary(c, r, raw, Some(dom)).cfg;
    ApexOfName(NameAt(e.Before(), e.i));
    var r' := Build(e.c', sites);
    EditOwners(e, dom, dom);
    EditOwners(e, dom, name);
    forall x | x != dom && !LosesApex(r, name, d, dom) ensures DomainOwner(r', x) == DomainOwner(r, x) {
      EditOwners(e, dom, x);
    }
    EditPrimary(e, dom);
  }

  lemma EditPrimary(e: Edit, dom: Domain)
    requires e.Valid() && !IsWildcard(dom)
    requires var n := NameAt(e.Before(), e.i); e.d == WithPrimary(GetDelta(e.c.domains, e.t), n, dom)
    requires DomainOwner(Build(e.c', e.sites), dom) == Some(NameAt(e.Before(), e.i))
    ensures var r', n := Build(e.c', e.sites), NameAt(e.Before(), e.i); n in r'.primaries && r'.primaries[n] == dom
  {
    var p', n := e.After(), NameAt(e.Before(), e.i);
    EditDiffers(e);
    OwnerNames(e, dom);
    SameShapeNames(e.Before(), p', e.i);
    EveryEligibleClaimantIsRouted(e.c', e.sites, e.i);
    ApexOfName(n);
    EffectiveAfterAdd(n, GetDelta(e.c.domains, e.t), dom, dom);
    assert EffectiveOf(n, e.d) == EffectiveOf(n, WithDomain(GetDelta(e.c.domains, e.t), n, dom));
    assert dom in EffectiveAt(p', e.i) && dom in Won(p', e.i);
    assert PlannedPrimaryAt(p', e.i) == dom;
  }
}
