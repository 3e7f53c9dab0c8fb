/** The records that Link, AddProxy and the flag requests leave, and that the next rebuild serves
    (bin/orckerd/src/mutate.rs:151-180, 226-311, 338-387, 543-562; bin/orckerd/src/startup.rs:512-557, 603-640). */
module SiteRecords {
  import opened Text
  import opened Domains
  import opened Config
  import opened Router
  import opened SiteDomains
  import opened RouterBuild
  import opened Ownership
  import opened Mutate
  import opened Frames
  import opened DomainRequests
  import opened Upstreams

  // ---- Scans ----

  /** What a scan returns: the parked directories under names that are not linked, each with the flags its
      override gives, and then every linked site as configured. */
  ghost predicate Scans(c: Cfg, parked: seq<Site>, sites: seq<Site>) {
    && sites == parked + c.linked
    && (forall s :: s in c.linked ==> s.kind.Linked?)
    && (forall s :: s in parked ==>
          && s.kind.Parked? && !IsLinked(c, s.name)
          && s.secure == (OverrideOf(c, s.root).secure == Some(true))
          && s.frontController == OverrideOf(c, s.root).frontController)
  }

  lemma ScansAreScans(c: Cfg, parked: seq<Site>, sites: seq<Site>)
    requires Scans(c, parked, sites)
    ensures ScanOf(c, sites)
  {
    assert forall s :: s in sites <==> s in parked || s in c.linked;
    forall s | s in c.linked ensures IsLinked(c, s.name) {
      var i :| 0 <= i < |c.linked| && c.linked[i] == s;
    }
  }

  /** The first configured site of a name. */
  ghost predicate FirstLinkedAt(c: Cfg, n: string, i: nat) {
    i < |c.linked| && c.linked[i].name == n && forall j :: 0 <= j < i ==> c.linked[j].name != n
  }

  lemma FirstIsServed(c: Cfg, sites: seq<Site>, k: nat)
    requires k < |sites| && forall j :: 0 <= j < k ==> sites[j].name != sites[k].name
    ensures var r := Build(c, sites); sites[k].name in r.sites && r.sites[sites[k].name] == sites[k]
  {
    FirstIsKept(sites, SiteName, k);
    KeptSiteIsRouted(c, sites, sites[k]);
  }

  /** A linked name is served from its first configured site. */
  lemma LinkedIsServed(c: Cfg, parked: seq<Site>, sites: seq<Site>, n: string, i: nat)
    requires Scans(c, parked, sites) && FirstLinkedAt(c, n, i)
    ensures n in Build(c, sites).sites && Build(c, sites).sites[n] == c.linked[i]
  {
    var k := |parked| + i;
    assert IsLinked(c, n);
    forall j | 0 <= j < k ensures sites[j].name != n {
      if j < |parked| { assert parked[j] in parked; }
    }
    FirstIsServed(c, sites, k);
  }

  /** In a valid configuration every linked site is served as it is configured. */
  lemma ValidLinkedIsServed(c: Cfg, parked: seq<Site>, sites: seq<Site>, i: nat)
    requires Validate(c) && Scans(c, parked, sites) && i < |c.linked|
    ensures c.linked[i].name in Build(c, sites).sites && Build(c, sites).sites[c.linked[i].name] == c.linked[i]
  {
    LinkedIsServed(c, parked, sites, c.linked[i].name, i);
  }

  /** A name that is not linked is served with the flags of its directory's override. */
  lemma ParkedIsServed(c: Cfg, parked: seq<Site>, sites: seq<Site>, n: string)
    requires Scans(c, parked, sites) && !IsLinked(c, n) && n in Build(c, sites).sites
    ensures var s := Build(c, sites).sites[n];
            && s.kind.Parked? && s.secure == (OverrideOf(c, s.root).secure == Some(true))
            && s.frontController == OverrideOf(c, s.root).frontController
  {
    var i := RoutedSiteIsFirst(c, sites, n);
    assert forall j :: 0 <= j < |c.linked| ==> c.linked[j].name != n && sites[|parked| + j] == c.linked[j];
    assert i < |parked| && sites[i] in parked;
  }

  // ---- Link ----

  /** After an accepted Link the next scan serves the new site: linked, at the path given, not secure, without a
      front controller setting. */
  lemma LinkIsServed(c: Cfg, raw: string, path: string, parked: seq<Site>, sites: seq<Site>)
    requires DoLink(c, raw, Some(path)).error.None? && Scans(DoLink(c, raw, Some(path)).cfg, parked, sites)
    ensures var r', n := Build(DoLink(c, raw, Some(path)).cfg, sites), ToAsciiLower(raw);
            ValidName(n) && n in r'.sites && r'.sites[n] == Site(n, path, Linked, false, None)
  {
    var c', n := DoLink(c, raw, Some(path)).cfg, ToAsciiLower(raw);
    assert FirstLinkedAt(c', n, |c.linked|);
    LinkedIsServed(c', parked, sites, n, |c.linked|);
  }

  // ---- Flags ----

  lemma SetFirstSiteIs(sites: seq<Site>, name: string, secure: Option<bool>, fc: Option<bool>, i: nat)
    requires i < |sites| && sites[i].name == name && forall j :: 0 <= j < i ==> sites[j].name != name
    ensures secure.Some? && fc.None? ==>
              SetFirstSite(sites, name, secure, fc) == sites[i := sites[i].(secure := secure.value)]
    ensures secure.None? && fc.Some? ==>
              SetFirstSite(sites, name, secure, fc) == sites[i := sites[i].(frontController := fc)]
  {
    FirstIndexIs(sites, SiteNamed(name), i);
  }

  /** The secure flag of a linked site: stored with the first one of the name alone, and served. */
  lemma LinkedSecureIsServed(c: Cfg, r: Routes, raw: string, on: bool, i: nat, parked: seq<Site>, sites: seq<Site>)
    requires FirstLinkedAt(c, ToAsciiLower(raw), i)
    ensures var o := DoSetSecure(c, r, raw, on);
            && o.error.None?
            && o.cfg == c.(linked := c.linked[i := c.linked[i].(secure := on)])
            && (Scans(o.cfg, parked, sites) ==>
                  var r' := Build(o.cfg, sites);
                  ToAsciiLower(raw) in r'.sites && r'.sites[ToAsciiLower(raw)].secure == on)
  {
    var o, n := DoSetSecure(c, r, raw, on), ToAsciiLower(raw);
    assert IsLinked(c, n);
    SetFirstSiteIs(c.linked, n, Some(on), None, i);
    if Scans(o.cfg, parked, sites) {
      assert FirstLinkedAt(o.cfg, n, i);
      LinkedIsServed(o.cfg, parked, sites, n, i);
    }
  }

  lemma LinkedFrontControllerIsServed(c: Cfg, r: Routes, raw: string, on: bool, i: nat, parked: seq<Site>,
                                      sites: seq<Site>)
    requires FirstLinkedAt(c, ToAsciiLower(raw), i)
    ensures var o := DoSetFrontController(c, r, raw, on);
            && o.error.None?
            && o.cfg == c.(linked := c.linked[i := c.linked[i].(frontController := Some(on))])
            && (Scans(o.cfg, parked, sites) ==>
                  var r' := Build(o.cfg, sites);
                  ToAsciiLower(raw) in r'.sites && r'.sites[ToAsciiLower(raw)].frontController == Some(on))
  {
    var o, n := DoSetFrontController(c, r, raw, on), ToAsciiLower(raw);
    assert IsLinked(c, n);
    SetFirstSiteIs(c.linked, n, None, Some(on), i);
    if Scans(o.cfg, parked, sites) {
      assert FirstLinkedAt(o.cfg, n, i);
      LinkedIsServed(o.cfg, parked, sites, n, i);
    }
  }

  /** The flags of a parked site: served whenever the next scan finds the directory under the name again. */
  lemma ParkedFlagsAreServed(c: Cfg, r: Routes, raw: string, on: bool, parked: seq<Site>, sites: seq<Site>)
    requires var n := ToAsciiLower(raw); !IsLinked(c, n) && n in r.sites
    ensures var o, n := DoSetSecure(c, r, raw, on), ToAsciiLower(raw);
            o.error.None? && (Scans(o.cfg, parked, sites) ==>
              var r' := Build(o.cfg, sites);
              n in r'.sites && r'.sites[n].root == r.sites[n].root ==> r'.sites[n].secure == on)
    ensures var o, n := DoSetFrontController(c, r, raw, on), ToAsciiLower(raw);
            o.error.None? && (Scans(o.cfg, parked, sites) ==>
              var r' := Build(o.cfg, sites);
              n in r'.sites && r'.sites[n].root == r.sites[n].root ==> r'.sites[n].frontController == Some(on))
  {
    var n := ToAsciiLower(raw);
    var c1, c2 := DoSetSecure(c, r, raw, on).cfg, DoSetFrontController(c, r, raw, on).cfg;
    if Scans(c1, parked, sites) && n in Build(c1, sites).sites { ParkedIsServed(c1, parked, sites, n); }
    if Scans(c2, parked, sites) && n in Build(c2, sites).sites { ParkedIsServed(c2, parked, sites, n); }
  }

  /** The secure flag of a proxy, or of a project, that the scan does not shadow. */
  lemma ProxySecureIsServed(c: Cfg, r: Routes, raw: string, on: bool, i: nat, sites: seq<Site>)
    requires var n := ToAsciiLower(raw); !IsLinked(c, n) && n !in r.sites && FirstProxyAt(c, n, i)
    ensures var o, n := DoSetSecure(c, r, raw, on), ToAsciiLower(raw);
            && o.error.None?
            && o.cfg == c.(proxies := c.proxies[i := c.proxies[i].(secure := on)])
            && (!Scanned(sites, n) ==>
                  var r' := Build(o.cfg, sites); n in r'.proxies && r'.proxies[n] == c.proxies[i].(secure := on))
  {
    var o, n := DoSetSecure(c, r, raw, on), ToAsciiLower(raw);
    assert IsProxy(c, n);
    FirstIndexIs(c.proxies, ProxyNamed(n), i);
    assert FirstProxyAt(o.cfg, n, i);
    RoutedProxies(o.cfg, sites, n);
  }

  lemma ProjectSecureIsServed(c: Cfg, r: Routes, raw: string, on: bool, i: nat, sites: seq<Site>)
    requires var n := ToAsciiLower(raw); !IsLinked(c, n) && n !in r.sites && !IsProxy(c, n) && FirstProjectAt(c, n, i)
    requires forall j :: 0 <= j < i ==> c.projects[j].name != ToAsciiLower(raw)
    ensures var o, n := DoSetSecure(c, r, raw, on), ToAsciiLower(raw);
            && o.error.None?
            && o.cfg == c.(projects := c.projects[i := c.projects[i].(secure := on)])
            && (!Scanned(sites, n) ==>
                  var r' := Build(o.cfg, sites);
                  n in r'.proxies && r'.proxies[n].secure == on && r'.proxies[n].target.port == c.projects[i].port)
  {
    var o, n := DoSetSecure(c, r, raw, on), ToAsciiLower(raw);
    assert IsProject(c, n);
    FirstIndexIs(c.projects, ProjectNamed(n), i);
    assert FirstProjectAt(o.cfg, n, i) && !IsProxy(o.cfg, n);
    RoutedProxies(o.cfg, sites, n);
  }

  // ---- Proxies ----

  /** AddProxy is accepted exactly for a free name, a free apex and a target that does not loop back; the rebuilt
      router then sends the name to that target, not secure. */
  lemma AddProxyIsServed(c: Cfg, sites: seq<Site>, name: Name, target: Target)
    ensures var r := Build(c, sites);
            var o := DoAddProxy(c, r, Some(name), Some(target));
            && (o.error.None? <==>
                  && !LoopsBack(c.tld, target) && name !in r.sites && !IsProxy(c, name)
                  && DomainOwner(r, name).None?)
            && (o.error.None? ==>
                  var r' := Build(o.cfg, sites);
                  && o.cfg == c.(proxies := c.proxies + [Proxy(name, target, false)])
                  && name in r'.proxies && r'.proxies[name] == Proxy(name, target, false))
  {
    var r := Build(c, sites);
    var o := DoAddProxy(c, r, Some(name), Some(target));
    ApexOfName(name);
    if o.error.None? {
      if s :| s in sites && s.name == name { ScannedIsServed(c, sites, name); }
      assert FirstProxyAt(o.cfg, name, |c.proxies|);
      RoutedProxies(o.cfg, sites, name);
    }
  }

  /** The routed sites are the scanned names. */
  lemma ScannedIsServed(c: Cfg, sites: seq<Site>, n: string)
    ensures n in Build(c, sites).sites <==> Scanned(sites, n)
  {
    if n in Build(c, sites).sites {
      var i := RoutedSiteIsFirst(c, sites, n);
      assert sites[i] in sites;
    }
    if Scanned(sites, n) {
      ScannedNames(sites, n);
      KeepFirstFacts(sites, SiteName);
      var kept := KeepFirst(sites, SiteName);
      var i :| 0 <= i < |kept| && SiteName(kept[i]) == n;
      KeptSiteIsRouted(c, sites, kept[i]);
    }
  }

  /** RemoveProxy takes every proxy of the name and its delta, and nothing else. */
  lemma RemoveProxyStores(c: Cfg, raw: string) returns (at: seq<nat>)
    ensures var o, n := DoRemoveProxy(c, raw), ToAsciiLower(raw);
            var c' := o.cfg;
            && (o.error.None? <==> IsProxy(c, n))
            && (o.error.None? ==>
                  && c' == c.(proxies := c'.proxies, domains := c.domains.(proxy := c.domains.proxy - {n}))
                  && (forall p :: p in c'.proxies <==> p in c.proxies && p.name != n)
                  && |at| == |c'.proxies|
                  && (forall i :: 0 <= i < |at| ==> at[i] < |c.proxies| && c'.proxies[i] == c.proxies[at[i]])
                  && (forall i, j :: 0 <= i < j < |at| ==> at[i] < at[j]))
  {
    var n := ToAsciiLower(raw);
    FilterFacts(c.proxies, Not(ProxyNamed(n)));
    at := FilterPositions(c.proxies, Not(ProxyNamed(n)));
  }

  /** Unlink of a project's name takes every project of the name and its delta, and nothing else. */
  lemma UnlinkProjectStores(c: Cfg, raw: string) returns (at: seq<nat>)
    requires IsProject(c, ToAsciiLower(raw))
    ensures var o, n := DoUnlink(c, raw), ToAsciiLower(raw);
            var c' := o.cfg;
            && o.error.None?
            && c' == c.(projects := c'.projects, domains := c.domains.(proxy := c.domains.proxy - {n}))
            && (forall p :: p in c'.projects <==> p in c.projects && p.name != n)
            && |at| == |c'.projects|
            && (forall i :: 0 <= i < |at| ==> at[i] < |c.projects| && c'.projects[i] == c.projects[at[i]])
            && (forall i, j :: 0 <= i < j < |at| ==> at[i] < at[j])
  {
    var n := ToAsciiLower(raw);
    FilterFacts(c.projects, Not(ProjectNamed(n)));
    at := FilterPositions(c.projects, Not(ProjectNamed(n)));
  }
}
