/** The shape of stored domain deltas, and which requests keep it (bin/orckerd/src/mutate.rs:135-277, 566-802). */
module DeltaInvariant {
  import opened Text
  import opened Domains
  import opened Config
  import opened Router
  import opened SiteDomains
  import opened RouterBuild
  import opened Ownership
  import opened ScanOrder
  import opened Mutate
  import opened Frames
  import opened DomainRequests

  /** A stored delta of the claimant called `n`: never empty, never about its own apex except to suppress
      it, its primary one of its own exact domains, and never without an exact domain. */
  ghost predicate WellFormed(n: string, d: Delta) {
    && d != NO_DELTA
    && NoDup(d.added) && Apex(n) !in d.added
    && (d.suppressed == [] || d.suppressed == [Apex(n)])
    && (d.primary.Some? ==> d.primary.value in d.added && !IsWildcard(d.primary.value))
    && ExactCount(n, d) >= 1
  }

  ghost predicate Fine(n: string, d: Delta) {
    d == NO_DELTA || WellFormed(n, d)
  }

  // ---- One edit ----

  lemma ExactInGrow(ds: seq<Domain>, x: Domain)
    ensures ExactIn(ds + [x]) == ExactIn(ds) + if IsWildcard(x) then 0 else 1
  {
    assert (ds + [x])[..|ds|] == ds;
  }

  /** Counting exact domains and asking whether one exists agree. */
  lemma {:induction false} ExactInPositive(ds: seq<Domain>)
    ensures ExactIn(ds) >= 1 <==> HasExact(ds)
  {
    if ds != [] {
      var front, x := ds[..|ds| - 1], ds[|ds| - 1];
      ExactInPositive(front);
      assert ds == front + [x];
      HasExactGrows(front, x);
    }
  }

  lemma UnsuppressedIsEmpty(n: string, d: Delta)
    requires Fine(n, d)
    ensures Without(d.suppressed, Apex(n)) == []
  {
    if d.suppressed != [] {
      assert d.suppressed == [] + [Apex(n)];
      FilterGrow([], Apex(n), OtherThan(Apex(n)));
    }
  }

  lemma WithDomainIsFine(n: string, d: Delta, dom: Domain)
    requires Fine(n, d)
    ensures Fine(n, WithDomain(d, Apex(n), dom))
  {
    if dom == Apex(n) {
      UnsuppressedIsEmpty(n, d);
    } else if dom !in d.added {
      ExactInGrow(d.added, dom);
    }
  }

  lemma WithPrimaryIsFine(n: string, d: Delta, dom: Domain)
    requires Fine(n, d) && !IsWildcard(dom)
    ensures Fine(n, WithPrimary(d, Apex(n), dom))
  {
    WithDomainIsFine(n, d, dom);
    if dom == Apex(n) {
      UnsuppressedIsEmpty(n, d);
    }
  }

  lemma WithoutDomainIsFine(n: string, d: Delta, dom: Domain)
    requires Fine(n, d) && (dom in d.added || dom == Apex(n))
    requires ExactCount(n, WithoutDomain(d, Apex(n), dom)) >= 1
    ensures Fine(n, WithoutDomain(d, Apex(n), dom))
  {
    WithoutFacts(d.added, dom);
  }

  // ---- The whole section ----

  /** Directory-derived names: a parked site's name is a function of its document root. */
  type Naming = string -> Name

  function TargetName(nameOf: Naming, t: DomainTarget): string {
    match t
    case LinkedTarget(k) => k
    case ParkedTarget(k) => nameOf(k)
    case ProxyTarget(k) => k
  }

  ghost predicate DeltasAreWellFormed(nameOf: Naming, s: DomainsSection) {
    && (forall k :: k in s.linked ==> WellFormed(k, s.linked[k]))
    && (forall k :: k in s.parked ==> WellFormed(nameOf(k), s.parked[k]))
    && (forall k :: k in s.proxy ==> WellFormed(k, s.proxy[k]))
  }

  lemma StoredIsFine(nameOf: Naming, s: DomainsSection, t: DomainTarget)
    requires DeltasAreWellFormed(nameOf, s)
    ensures Fine(TargetName(nameOf, t), GetDelta(s, t))
  {
  }

  lemma StoreKeepsWellFormed(nameOf: Naming, s: DomainsSection, t: DomainTarget, d: Delta)
    requires DeltasAreWellFormed(nameOf, s) && Fine(TargetName(nameOf, t), d)
    ensures DeltasAreWellFormed(nameOf, StoreDelta(s, t, d))
  {
  }

  /** Well-formed deltas pass the config validator. */
  lemma WellFormedValidates(nameOf: Naming, s: DomainsSection)
    requires DeltasAreWellFormed(nameOf, s)
    ensures ValidDomains(s)
  {
  }

  /** In a well-formed configuration no accepted AddDomain can displace an apex. */
  lemma FineNeverLosesApex(r: Routes, n: string, d: Delta, dom: Domain)
    requires Fine(n, d)
    ensures !LosesApex(r, n, d, dom)
  {
    ExactInPositive(d.added);
  }

  // ---- Scans with directory-derived names ----

  ghost predicate NamedScan(nameOf: Naming, c: Cfg, sites: seq<Site>) {
    && ScanOf(c, sites)
    && (forall s :: s in sites && s.kind.Parked? ==> s.name == nameOf(s.root))
  }

  lemma NamedScanHasDistinctRoots(nameOf: Naming, c: Cfg, sites: seq<Site>)
    requires NamedScan(nameOf, c, sites)
    ensures DistinctRoots(sites)
  {
  }

  lemma RoutedSiteIsScanned(nameOf: Naming, c: Cfg, sites: seq<Site>, name: string)
    requires NamedScan(nameOf, c, sites) && name in Build(c, sites).sites
    ensures var s := Build(c, sites).sites[name];
            && (s.kind.Linked? <==> IsLinked(c, name))
            && (s.kind.Parked? ==> nameOf(s.root) == name)
  {
    RoutedSiteIsKept(c, sites, name);
    KeepFirstFacts(sites, SiteName);
  }

  /** Every routed site that is not linked goes by its directory's name. */
  ghost predicate RoutesAreNamed(nameOf: Naming, c: Cfg, r: Routes) {
    forall n :: n in r.sites && !IsLinked(c, n) ==> nameOf(r.sites[n].root) == n
  }

  lemma BuildIsNamed(nameOf: Naming, c: Cfg, sites: seq<Site>)
    requires NamedScan(nameOf, c, sites)
    ensures RoutesAreNamed(nameOf, c, Build(c, sites))
  {
    forall n | n in Build(c, sites).sites && !IsLinked(c, n) ensures nameOf(Build(c, sites).sites[n].root) == n {
      RoutedSiteIsScanned(nameOf, c, sites, n);
    }
  }

  /** Every accepted domain request keeps every stored delta well-formed. */
  lemma DomainRequestKeepsWellFormed(nameOf: Naming, c: Cfg, r: Routes, req: Request)
    requires RoutesAreNamed(nameOf, c, r) && DeltasAreWellFormed(nameOf, c.domains)
    requires IsDomainRequest(req) && Apply(c, r, req).error.None?
    ensures DeltasAreWellFormed(nameOf, Apply(c, r, req).cfg.domains)
  {
    var name := ToAsciiLower(req.name);
    var t := ResolveTarget(c, r, name).value;
    assert TargetName(nameOf, t) == name;
    StoredIsFine(nameOf, c.domains, t);
    var d := GetDelta(c.domains, t);
    match req {
      case AddDomain(_, dom) =>
        WithDomainIsFine(name, d, dom.value);
        StoreKeepsWellFormed(nameOf, c.domains, t, WithDomain(d, Apex(name), dom.value));
      case RemoveDomain(_, dom) =>
        WithoutDomainIsFine(name, d, dom.value);
        StoreKeepsWellFormed(nameOf, c.domains, t, WithoutDomain(d, Apex(name), dom.value));
      case SetPrimaryDomain(_, dom) =>
        WithPrimaryIsFine(name, d, dom.value);
        StoreKeepsWellFormed(nameOf, c.domains, t, WithPrimary(d, Apex(name), dom.value));
      case ResetDomains(_) =>
        StoreKeepsWellFormed(nameOf, c.domains, t, NO_DELTA);
    }
  }

  // ---- Linking and unlinking ----

  /** Moving a well-formed delta to another name keeps it well-formed exactly when the name is the same,
      or the delta neither suppresses the old apex nor lists the new one. */
  lemma RenamedWellFormed(n: string, m: string, d: Delta)
    requires WellFormed(n, d)
    ensures WellFormed(m, d) <==> Apex(m) == Apex(n) || (d.suppressed == [] && Apex(m) !in d.added)
  {
  }

  /** A Link keeps the deltas well-formed exactly when the promoted delta suits the new name. */
  lemma LinkKeepsWellFormedIff(nameOf: Naming, c: Cfg, name: Name, root: string)
    requires DeltasAreWellFormed(nameOf, c.domains)
    ensures DeltasAreWellFormed(nameOf, Linking(c, name, root).domains) <==>
            (root in c.domains.parked && name != nameOf(root) ==>
               c.domains.parked[root].suppressed == [] && name !in c.domains.parked[root].added)
  {
    var s, s' := c.domains, Linking(c, name, root).domains;
    ApexOfName(name);
    ApexOfName(nameOf(root));
    if root in s.parked {
      RenamedWellFormed(nameOf(root), name, s.parked[root]);
      assert s'.linked[name] == s.parked[root];
    }
  }

  /** The failing case is real: a directory parked as `blog` with its apex suppressed, linked as `shop`. */
  lemma LinkUnderAnotherName(nameOf: Naming, c: Cfg)
    requires nameOf("/p/blog") == "blog"
    requires c.domains == DomainsSection(map[], map["/p/blog" := Delta(["www"], ["blog"], None)], map[])
    ensures DeltasAreWellFormed(nameOf, c.domains)
    ensures !DeltasAreWellFormed(nameOf, Linking(c, "shop", "/p/blog").domains)
  {
    ApexOfName("blog");
    ExactInPositive(["www"]);
    assert WellFormed("blog", Delta(["www"], ["blog"], None));
    LinkKeepsWellFormedIff(nameOf, c, "shop", "/p/blog");
  }

  /** Linked sites are called what their directories would be called. */
  ghost predicate LinkedKeepNames(nameOf: Naming, c: Cfg) {
    forall i :: 0 <= i < |c.linked| ==> c.linked[i].name == nameOf(c.linked[i].root)
  }

  /** The claimants of the run keep their names: a Link uses the directory's own name. */
  ghost predicate KeepsNames(nameOf: Naming, req: Request) {
    req.Link? && req.path.Some? ==> ToAsciiLower(req.name) == nameOf(req.path.value)
  }

  lemma UnlinkKeepsWellFormed(nameOf: Naming, c: Cfg, raw: string)
    requires DeltasAreWellFormed(nameOf, c.domains) && LinkedKeepNames(nameOf, c)
    requires DoUnlink(c, raw).error.None?
    ensures DeltasAreWellFormed(nameOf, DoUnlink(c, raw).cfg.domains) && LinkedKeepNames(nameOf, DoUnlink(c, raw).cfg)
  {
    var name := ToAsciiLower(raw);
    if !IsProject(c, name) {
      var site := FirstLinked(c.linked, name).value;
      var i :| 0 <= i < |c.linked| && c.linked[i] == site;
      var c' := DoUnlink(c, raw).cfg;
      WithoutSiteFacts(c.linked, name);
      forall j | 0 <= j < |c'.linked| ensures c'.linked[j].name == nameOf(c'.linked[j].root) {
        assert c'.linked[j] in c.linked;
      }
    }
  }

  lemma LinkKeepsWellFormed(nameOf: Naming, c: Cfg, raw: string, path: Option<string>)
    requires DeltasAreWellFormed(nameOf, c.domains) && LinkedKeepNames(nameOf, c)
    requires DoLink(c, raw, path).error.None? && ToAsciiLower(raw) == nameOf(path.value)
    ensures var c' := DoLink(c, raw, path).cfg;
            DeltasAreWellFormed(nameOf, c'.domains) && LinkedKeepNames(nameOf, c')
  {
    LinkKeepsWellFormedIff(nameOf, c, SiteNameOf(raw).value, path.value);
  }

  /** The sections a stored delta may come from only lose entries. */
  ghost predicate OnlyDrops(s: DomainsSection, s': DomainsSection) {
    && (forall k :: k in s'.linked ==> k in s.linked && s'.linked[k] == s.linked[k])
    && (forall k :: k in s'.parked ==> k in s.parked && s'.parked[k] == s.parked[k])
    && (forall k :: k in s'.proxy ==> k in s.proxy && s'.proxy[k] == s.proxy[k])
  }

  lemma OtherRequestsOnlyDrop(c: Cfg, r: Routes, req: Request)
    requires !IsDomainRequest(req) && !req.Link? && !req.Unlink?
    ensures var c' := Apply(c, r, req).cfg; OnlyDrops(c.domains, c'.domains) && SameSites(c'.linked, c.linked)
  {
    if IsFlagRequest(req) {
      FlagFrame(c, r, req);
    } else if IsRuleRequest(req) {
      RuleFrame(c, r, req);
    } else if IsGroupRequest(req) {
      GroupFrame(c, r, req);
    }
  }

  /** Every accepted request of a run whose claimants keep their names keeps every stored delta well-formed. */
  lemma RequestKeepsWellFormed(nameOf: Naming, c: Cfg, r: Routes, req: Request)
    requires RoutesAreNamed(nameOf, c, r) && KeepsNames(nameOf, req)
    requires DeltasAreWellFormed(nameOf, c.domains) && LinkedKeepNames(nameOf, c)
    requires Apply(c, r, req).error.None?
    ensures var c' := Apply(c, r, req).cfg;
            DeltasAreWellFormed(nameOf, c'.domains) && LinkedKeepNames(nameOf, c')
  {
    if IsDomainRequest(req) {
      DomainFrame(c, r, req);
      DomainRequestKeepsWellFormed(nameOf, c, r, req);
    } else if req.Link? {
      LinkKeepsWellFormed(nameOf, c, req.name, req.path);
    } else if req.Unlink? {
      UnlinkKeepsWellFormed(nameOf, c, req.name);
    } else {
      OtherRequestsOnlyDrop(c, r, req);
    }
  }
}
