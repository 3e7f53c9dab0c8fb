/** Requests alone can take a claimant's apex away, once a directory is linked under another name
    (bin/orckerd/src/mutate.rs:151-277, 673-741). */
module LostApex {
  import opened Text
  import opened Domains
  import opened Config
  import opened Router
  import opened Claims
  import opened SiteDomains
  import opened RouterBuild
  import opened Ownership
  import opened ScanOrder
  import opened Mutate
  import opened Frames
  import opened DomainRequests
  import opened DomainRelease
  import opened Commit
  import opened Runs

  /** A directory `blog` below a parked root, a second name for it, and an extra domain. */
  datatype Scene = Scene(c: Cfg, blog: Name, shop: Name, root: string, www: Domain)
  {
    /** Nothing is configured but the parked root. */
    ghost predicate Valid() {
      && Bare(c) && c.linked == [] && c.domains == DomainsSection(map[], map[], map[])
      && ParentIsParkedRoot(c, root) && SiteNameOf(shop) == Some(shop)
      && blog != shop && www != blog && www != shop && !IsWildcard(www)
    }

    function Directory(): Site { Site(blog, root, Parked, false, None) }
    function Shop(): Site { Site(shop, root, Linked, false, None) }

    function OfDirectory(d: Delta): Cfg { c.(domains := DomainsSection(map[], map[root := d], map[])) }
    function OfShop(d: Delta): Cfg { c.(linked := [Shop()], domains := DomainsSection(map[shop := d], map[], map[])) }

    /** The configuration after the first `n` requests. */
    function After(n: nat): Cfg {
      if n == 0 then c
      else if n == 1 then OfDirectory(Delta([www], [], None))
      else if n == 2 then OfDirectory(Delta([www], [blog], None))
      else if n == 3 then OfShop(Delta([www], [blog], None))
      else if n == 4 then OfShop(Delta([], [blog], None))
      else OfDirectory(Delta([], [blog], None))
    }

    function Asked(n: nat): Request {
      if n == 0 then AddDomain(blog, Some(www))
      else if n == 1 then RemoveDomain(blog, Some(blog))
      else if n == 2 then Link(shop, Some(root))
      else if n == 3 then RemoveDomain(shop, Some(www))
      else Unlink(shop)
    }

    function Scan(n: nat): seq<Site> { if n == 3 || n == 4 then [Directory(), Shop()] else [Directory()] }

    ghost function State(n: nat): Live {
      Live(After(n), After(n), Build(After(n), Scan(n)), Scan(n), true)
    }

    ghost function Step(n: nat): Event { Committed(Mutation(Asked(n)), After(n + 1), Scan(n + 1)) }
  }

  ghost predicate Bare(c: Cfg) {
    && ValidSettings(c.settings) && "" !in c.parkedPaths && c.proxies == [] && c.projects == [] && c.overrides == map[]
    && c.groups == GroupsSection([], map[])
    && c.proxyRules == RulesSection(map[], map[]) && c.routeRules == RulesSection(map[], map[])
  }

  lemma BareIsValid(c: Cfg)
    requires Bare(c) && |c.linked| <= 1 && ValidDomains(c.domains)
    ensures Validate(c)
  {
  }

  // ---- A scan of one directory ----

  lemma OnlyClaimantOwns(p: Plan, n: string, d: Domain)
    requires GoodPlan(p) && Count(p) == 1 && NameAt(p, 0) == n
    ensures OwnerName(p, d).None? || OwnerName(p, d) == Some(n)
    ensures Stakes(p, 0, d) ==> OwnerName(p, d) == Some(n)
  {
    if Stakes(p, 0, d) {
      StakesAreWants(p, 0, d);
      assert IsOwner(Claimants(p), d, 0);
    }
  }

  lemma OneSitePlan(c: Cfg, s: Site)
    requires c.proxies == [] && c.projects == []
    ensures var p := MakePlan(c, [s]); Count(p) == 1 && p.sites == [PlanSite(c, s)]
    ensures KeepFirst([s], SiteName) == [s]
  {
    var sites: seq<Site> := [s];
    assert sites[..0] == [];
    assert KeepFirst(sites, SiteName) == sites;
  }

  lemma OnlySiteClaims(c: Cfg, sites: seq<Site>, n: string, d: Domain)
    requires var p := MakePlan(c, sites); Count(p) == 1 && NameAt(p, 0) == n
    ensures !ClaimedElsewhere(Build(c, sites), n, d)
    ensures Stakes(MakePlan(c, sites), 0, d) ==> DomainOwner(Build(c, sites), d) == Some(n)
  {
    MakePlanIsGood(c, sites);
    BuildOwner(c, sites, d);
    OnlyClaimantOwns(MakePlan(c, sites), n, d);
  }

  /** The only site scanned is routed, and nobody else claims anything. */
  lemma OneSiteRoutes(c: Cfg, s: Site, d: Domain)
    requires c.proxies == [] && c.projects == []
    ensures s.name in Build(c, [s]).sites && Build(c, [s]).sites[s.name] == s
    ensures !ClaimedElsewhere(Build(c, [s]), s.name, d)
    ensures d in PlanSite(c, s).effective ==> DomainOwner(Build(c, [s]), d) == Some(s.name)
  {
    OneSitePlan(c, s);
    KeptSiteIsRouted(c, [s], s);
    OnlySiteClaims(c, [s], s.name, d);
  }

  // ---- The requests ----

  lemma AddHappens(x: Scene, r: Routes)
    requires x.Valid() && x.blog in r.sites && r.sites[x.blog] == x.Directory() && !ClaimedElsewhere(r, x.blog, x.www)
    ensures Apply(x.After(0), r, x.Asked(0)) == Done(x.After(1))
  {
    ApexOfName(x.blog);
    assert NO_DELTA.added + [x.www] == [x.www];
    assert WithDomain(NO_DELTA, x.blog, x.www) == Delta([x.www], [], None);
    assert StoreDelta(x.c.domains, ParkedTarget(x.root), Delta([x.www], [], None)) == x.After(1).domains;
  }

  lemma SuppressHappens(x: Scene, r: Routes)
    requires x.Valid() && x.blog in r.sites && r.sites[x.blog] == x.Directory()
    ensures Apply(x.After(1), r, x.Asked(1)) == Done(x.After(2))
  {
    ApexOfName(x.blog);
    var d, d' := Delta([x.www], [], None), Delta([x.www], [x.blog], None);
    assert d.suppressed + [x.blog] == [x.blog];
    assert WithoutDomain(d, x.blog, x.blog) == d';
    assert ExactIn([x.www]) == 1;
    assert StoreDelta(x.After(1).domains, ParkedTarget(x.root), d') == x.After(2).domains;
  }

  lemma LinkHappens(x: Scene, r: Routes)
    requires x.Valid()
    ensures Apply(x.After(2), r, x.Asked(2)) == Done(x.After(3))
  {
    LowerOfName(x.shop);
    var c := x.After(2);
    assert Linking(c, x.shop, x.root).domains == x.After(3).domains;
  }

  /** A linked site may strike off its only extra: its own apex counts as exact, whatever it suppresses. */
  lemma LastExtraGoes(c: Cfg, r: Routes, shop: Name, www: Domain, blog: Domain)
    requires IsLinked(c, shop) && blog != shop
    requires shop in c.domains.linked && c.domains.linked[shop] == Delta([www], [blog], None)
    ensures DoRemoveDomain(c, r, shop, Some(www)) ==
            Done(c.(domains := c.domains.(linked := c.domains.linked[shop := Delta([], [blog], None)])))
  {
    ApexOfName(shop);
    ExtraIsGone(shop, www, blog);
  }

  lemma ExtraIsGone(shop: Name, www: Domain, blog: Domain)
    requires blog != shop
    ensures WithoutDomain(Delta([www], [blog], None), shop, www) == Delta([], [blog], None)
    ensures ExactCount(shop, Delta([], [blog], None)) == 1
  {
    ApexOfName(shop);
    assert [www] == [] + [www];
    FilterGrow([], www, OtherThan(www));
  }

  lemma StrikeHappens(x: Scene, r: Routes)
    requires x.Valid()
    ensures Apply(x.After(3), r, x.Asked(3)) == Done(x.After(4))
  {
    var c := x.After(3);
    assert c.linked[0].name == x.shop;
    LastExtraGoes(c, r, x.shop, x.www, x.blog);
    assert c.domains.linked[x.shop := Delta([], [x.blog], None)] == x.After(4).domains.linked;
  }

  lemma OnlySiteUnlinks(c: Cfg, s: Site)
    requires c.linked == [s] && !IsProject(c, s.name) && ParentIsParkedRoot(c, s.root)
    ensures DoUnlink(c, s.name) == Done(Unlinking(c, s.name, s.root, true)) && WithoutSite(c.linked, s.name) == []
  {
    LowerOfName(s.name);
    assert c.linked[0] == s;
    assert FirstLinked(c.linked, s.name) == Some(s);
    assert c.linked == [] + [s];
    FilterGrow([], s, Not(SiteNamed(s.name)));
  }

  lemma UnlinkHappens(x: Scene, r: Routes)
    requires x.Valid()
    ensures Apply(x.After(4), r, x.Asked(4)) == Done(x.After(5))
  {
    var c := x.After(4);
    OnlySiteUnlinks(c, x.Shop());
    BackToDirectory(x);
  }

  lemma BackToDirectory(x: Scene)
    requires x.Valid() && WithoutSite([x.Shop()], x.shop) == []
    ensures Unlinking(x.After(4), x.shop, x.root, true) == x.After(5)
  {
    var c := x.After(4);
    assert c.domains.linked - {x.shop} == map[];
    assert c.proxyRules.linked - {x.shop} == map[] && c.routeRules.linked - {x.shop} == map[];
  }

  lemma StagesAreScanned(x: Scene, n: nat)
    requires x.Valid() && n <= 5
    ensures ScanOf(x.After(n), x.Scan(n))
  {
    if n == 3 || n == 4 { assert x.After(n).linked[0] == x.Shop() && x.Shop() in x.Scan(n); }
  }

  lemma StagesAreValid(x: Scene, n: nat)
    requires x.Valid() && n <= 5
    ensures Validate(x.After(n)) && ScanOf(x.After(n), x.Scan(n))
  {
    BareIsValid(x.After(n));
    StagesAreScanned(x, n);
  }

  lemma FirstStages(x: Scene, n: nat)
    requires x.Valid() && n < 2
    ensures Apply(x.After(n), Build(x.After(n), [x.Directory()]), x.Asked(n)) == Done(x.After(n + 1))
  {
    var r := Build(x.After(n), [x.Directory()]);
    OneSiteRoutes(x.After(n), x.Directory(), x.www);
    if n == 0 { AddHappens(x, r); } else { SuppressHappens(x, r); }
  }

  lemma LaterStages(x: Scene, n: nat, r: Routes)
    requires x.Valid() && 2 <= n < 5
    ensures Apply(x.After(n), r, x.Asked(n)) == Done(x.After(n + 1))
  {
    if n == 2 { LinkHappens(x, r); } else if n == 3 { StrikeHappens(x, r); } else { UnlinkHappens(x, r); }
  }

  lemma StageHappens(x: Scene, n: nat)
    requires x.Valid() && n < 5
    ensures Apply(x.After(n), x.State(n).router, x.Asked(n)) == Done(x.After(n + 1))
  {
    if n < 2 { FirstStages(x, n); } else { LaterStages(x, n, x.State(n).router); }
  }

  lemma StageCommits(x: Scene, n: nat)
    requires x.Valid() && n < 5
    ensures Atomic(Daemon(), x.State(n), x.Step(n), x.State(n + 1))
  {
    assert !IsGroupRequest(x.Asked(n));
    StageHappens(x, n);
    StagesAreValid(x, n + 1);
    AcceptedCommits(x.State(n), x.Asked(n), x.After(n + 1), x.Scan(n + 1));
  }

  lemma {:induction false} CommitsUpTo(x: Scene, n: nat) returns (run: seq<Live>, events: seq<Event>)
    requires x.Valid() && n <= 5
    ensures |events| == n && AtomicRun(Daemon(), run, events)
    ensures run[0] == x.State(0) && run[n] == x.State(n)
  {
    if n == 0 {
      run, events := [x.State(0)], [];
    } else {
      run, events := CommitsUpTo(x, n - 1);
      StageCommits(x, n - 1);
      ExtendRun(Daemon(), run, events, x.Step(n - 1), x.State(n));
      run, events := run + [x.State(n)], events + [x.Step(n - 1)];
    }
  }

  lemma OneSiteOwnsApex(c: Cfg, s: Site)
    requires c.proxies == [] && c.projects == [] && ApexRestored(s.name, SiteDelta(c, s))
    ensures DomainOwner(Build(c, [s]), s.name) == Some(s.name)
  {
    var d := SiteDelta(c, s);
    ApexOfName(s.name);
    EffectiveSet(s.name, d.added, d.suppressed);
    OneSiteRoutes(c, s, s.name);
  }

  lemma LastStage(c: Cfg, s: Site, dom: Domain)
    requires c.linked == [] && c.proxies == [] && c.projects == [] && s.kind.Parked?
    requires ApexRestored(s.name, StoredDelta(c.domains.parked, s.root)) && dom != s.name && !IsWildcard(dom)
    ensures ApexIsLost(c, [s], s, dom)
  {
    OneSiteOwnsApex(c, s);
    OneSiteRoutes(c, s, dom);
    RestoredApexIsDisplaced(c, [s], s.name, dom);
  }

  /** The parked site `s` owns its apex only because nothing exact is left, and an accepted AddDomain of
      `dom` takes it away. */
  ghost predicate ApexIsLost(c: Cfg, sites: seq<Site>, s: Site, dom: Domain) {
    var r := Build(c, sites);
    && ApexRestored(s.name, StoredDelta(c.domains.parked, s.root)) && DomainOwner(r, s.name) == Some(s.name)
    && DoAddDomain(c, r, s.name, Some(dom)).error.None?
    && !GrantsOnly(r, Build(DoAddDomain(c, r, s.name, Some(dom)).cfg, sites), s.name, dom)
  }

  /** Five committed requests, from a configuration without a single delta, leave the directory with a
      delta that suppresses its apex and lists nothing: the apex is restored, and the next exact domain
      added takes it away. */
  lemma RequestsCanLoseAnApex(x: Scene, dom: Domain) returns (run: seq<Live>, events: seq<Event>)
    requires x.Valid() && dom != x.blog && !IsWildcard(dom)
    ensures AtomicRun(Daemon(), run, events) && |events| == 5
    ensures run[0] == x.State(0) && run[0].mem.domains == DomainsSection(map[], map[], map[])
    ensures run[5] == x.State(5) && ApexIsLost(x.After(5), x.Scan(5), x.Directory(), dom)
  {
    run, events := CommitsUpTo(x, 5);
    EndIsLost(x, dom);
  }

  lemma EndIsLost(x: Scene, dom: Domain)
    requires x.Valid() && dom != x.blog && !IsWildcard(dom)
    ensures ApexIsLost(x.After(5), x.Scan(5), x.Directory(), dom)
  {
    ApexOfName(x.blog);
    LastStage(x.After(5), x.Directory(), dom);
  }
}
