/** Linking a parked directory and unlinking it again (bin/orckerd/src/mutate.rs:135-277). */
module LinkUnlink {
  import opened Text
  import opened Domains
  import opened Config
  import opened Router
  import opened SiteDomains
  import opened RouterBuild
  import opened Ownership
  import opened Mutate
  import opened Paths
  import opened Frames
  import opened DomainRequests

  // ---- Linked-side keys ----

  ghost predicate KeysAreLinked<T>(c: Cfg, m: map<string, T>) {
    forall k :: k in m ==> IsLinked(c, k)
  }

  /** Only linked sites have linked-side records. */
  ghost predicate LinkedKeys(c: Cfg) {
    KeysAreLinked(c, c.domains.linked) && KeysAreLinked(c, c.proxyRules.linked) && KeysAreLinked(c, c.routeRules.linked)
  }

  /** The router calls a site linked only if it is. */
  ghost predicate KnowsLinked(c: Cfg, r: Routes) {
    forall n :: n in r.sites && r.sites[n].kind.Linked? ==> IsLinked(c, n)
  }

  lemma BuildKnowsLinked(c: Cfg, sites: seq<Site>)
    requires ScanOf(c, sites)
    ensures KnowsLinked(c, Build(c, sites))
  {
    forall n | n in Build(c, sites).sites && Build(c, sites).sites[n].kind.Linked? ensures IsLinked(c, n) {
      RoutedSiteIsKept(c, sites, n);
      KeepFirstFacts(sites, SiteName);
    }
  }

  lemma SameLinked(c: Cfg, c': Cfg)
    requires SameSites(c'.linked, c.linked)
    ensures forall n :: IsLinked(c', n) <==> IsLinked(c, n)
  {
    forall n | IsLinked(c', n) ensures IsLinked(c, n) {
      var i :| 0 <= i < |c'.linked| && c'.linked[i].name == n;
      assert c.linked[i].name == n;
    }
    forall n | IsLinked(c, n) ensures IsLinked(c', n) {
      var i :| 0 <= i < |c.linked| && c.linked[i].name == n;
      assert c'.linked[i].name == n;
    }
  }

  lemma LinkedAfterLink(c: Cfg, name: Name, root: string)
    ensures forall n :: IsLinked(Linking(c, name, root), n) <==> IsLinked(c, n) || n == name
  {
    var c' := Linking(c, name, root);
    assert c'.linked[|c.linked|].name == name;
    forall n | IsLinked(c, n) ensures IsLinked(c', n) {
      var i :| 0 <= i < |c.linked| && c.linked[i].name == n;
      assert c'.linked[i].name == n;
    }
    forall n | IsLinked(c', n) && n != name ensures IsLinked(c, n) {
      var i :| 0 <= i < |c'.linked| && c'.linked[i].name == n;
      assert c.linked[i].name == n;
    }
  }

  lemma LinkedAfterUnlink(c: Cfg, c': Cfg, name: string)
    requires c'.linked == WithoutSite(c.linked, name)
    ensures forall n :: IsLinked(c', n) <==> IsLinked(c, n) && n != name
  {
    WithoutSiteFacts(c.linked, name);
    forall n | IsLinked(c, n) && n != name ensures IsLinked(c', n) {
      var i :| 0 <= i < |c.linked| && c.linked[i].name == n;
      assert c.linked[i] in c'.linked;
    }
    forall n | IsLinked(c', n) ensures IsLinked(c, n) && n != name {
      var i :| 0 <= i < |c'.linked| && c'.linked[i].name == n;
      assert c'.linked[i] in c.linked;
    }
  }

  lemma UnlinkKeepsKeys(c: Cfg, raw: string)
    requires LinkedKeys(c) && DoUnlink(c, raw).error.None?
    ensures LinkedKeys(DoUnlink(c, raw).cfg)
  {
    var c', name := DoUnlink(c, raw).cfg, ToAsciiLower(raw);
    if IsProject(c, name) {
      SameLinked(c, c');
    } else {
      LinkedAfterUnlink(c, c', name);
    }
  }

  /** An accepted domain request stores one delta at the claimant's target. */
  lemma DomainRequestStores(c: Cfg, r: Routes, req: Request) returns (t: DomainTarget, d: Delta)
    requires IsDomainRequest(req) && Apply(c, r, req).error.None?
    ensures ResolveTarget(c, r, ToAsciiLower(req.name)) == Some(t)
    ensures Apply(c, r, req).cfg == c.(domains := StoreDelta(c.domains, t, d))
  {
    t := ResolveTarget(c, r, ToAsciiLower(req.name)).value;
    d := GetDelta(Apply(c, r, req).cfg.domains, t);
  }

  lemma DomainRequestKeepsKeys(c: Cfg, r: Routes, req: Request)
    requires LinkedKeys(c) && IsDomainRequest(req) && Apply(c, r, req).error.None?
    ensures KeysAreLinked(c, Apply(c, r, req).cfg.domains.linked)
  {
    var t, d := DomainRequestStores(c, r, req);
    assert t.LinkedTarget? ==> IsLinked(c, t.key);
  }

  lemma RuleRequestKeepsKeys(c: Cfg, r: Routes, req: Request)
    requires LinkedKeys(c) && KnowsLinked(c, r) && IsRuleRequest(req)
    ensures var c' := Apply(c, r, req).cfg;
            KeysAreLinked(c, c'.proxyRules.linked) && KeysAreLinked(c, c'.routeRules.linked)
  {
    assert SiteRuleKey(r, ToAsciiLower(req.site)).Some? ==>
             var at := SiteRuleKey(r, ToAsciiLower(req.site)).value; at.kind.Linked? ==> IsLinked(c, at.key);
  }

  lemma RemainingKeepKeys(c: Cfg, r: Routes, req: Request)
    requires LinkedKeys(c) && (req.Park? || req.Unpark? || req.AddProxy? || req.RemoveProxy?)
    ensures LinkedKeys(Apply(c, r, req).cfg)
  {
    SameLinked(c, Apply(c, r, req).cfg);
  }

  /** Every accepted request keeps linked-side records on linked sites. */
  lemma RequestKeepsLinkedKeys(c: Cfg, r: Routes, req: Request)
    requires LinkedKeys(c) && KnowsLinked(c, r) && Apply(c, r, req).error.None?
    ensures LinkedKeys(Apply(c, r, req).cfg)
  {
    var c' := Apply(c, r, req).cfg;
    if IsDomainRequest(req) {
      DomainFrame(c, r, req);
      DomainRequestKeepsKeys(c, r, req);
      SameLinked(c, c');
    } else if IsRuleRequest(req) {
      RuleFrame(c, r, req);
      RuleRequestKeepsKeys(c, r, req);
      SameLinked(c, c');
    } else if IsFlagRequest(req) {
      FlagFrame(c, r, req);
      SameLinked(c, c');
    } else if IsGroupRequest(req) {
      GroupFrame(c, r, req);
      SameLinked(c, c');
    } else if req.Link? {
      LinkedAfterLink(c, SiteNameOf(req.name).value, req.path.value);
    } else if req.Unlink? {
      UnlinkKeepsKeys(c, req.name);
    } else {
      RemainingKeepKeys(c, r, req);
    }
  }

  // ---- The round trip ----

  /** Something is recorded for a parked document root. */
  predicate HasParkedRecords(c: Cfg, root: string) {
    root in c.domains.parked || root in c.proxyRules.parked || root in c.routeRules.parked
  }

  lemma FirstLinkedAppended(sites: seq<Site>, s: Site)
    requires forall i :: 0 <= i < |sites| ==> sites[i].name != s.name
    ensures FirstLinked(sites + [s], s.name) == Some(s) && WithoutSite(sites + [s], s.name) == sites
  {
    WithoutSiteFacts(sites, s.name);
    FilterGrow(sites, s, Not(SiteNamed(s.name)));
    assert (sites + [s])[|sites|] == s;
    var r := FirstLinked(sites + [s], s.name);
    assert r.value in sites + [s] && r.value !in sites;
  }

  /** Link then Unlink of a new name restores the configuration exactly, deltas and rules included, if and
      only if the directory's parent is a parked root or nothing was recorded for the directory. */
  lemma LinkThenUnlink(c: Cfg, raw: string, root: string)
    requires LinkedKeys(c) && DoLink(c, raw, Some(root)).error.None? && !IsProject(c, ToAsciiLower(raw))
    ensures var o := DoUnlink(DoLink(c, raw, Some(root)).cfg, raw);
            && o.error.None?
            && (o.cfg == c <==> ParentIsParkedRoot(c, root) || !HasParkedRecords(c, root))
  {
    var name := SiteNameOf(raw).value;
    var c' := Linking(c, name, root);
    FirstLinkedAppended(c.linked, Site(name, root, Linked, false, None));
    assert !IsProject(c', name);
    var c'' := DoUnlink(c', raw).cfg;
    assert c'' == Unlinking(c', name, root, ParentIsParkedRoot(c, root));
    if ParentIsParkedRoot(c, root) || !HasParkedRecords(c, root) {
      MoveBack(c.domains.linked, c.domains.parked, name, root);
      MoveBack(c.proxyRules.linked, c.proxyRules.parked, name, root);
      MoveBack(c.routeRules.linked, c.routeRules.parked, name, root);
    } else {
      assert root !in c''.domains.parked && root !in c''.proxyRules.parked && root !in c''.routeRules.parked;
    }
  }

  lemma MoveBack<T>(linked: map<string, T>, parked: map<string, T>, name: string, root: string)
    requires name !in linked
    ensures MovedOut(MovedIn(parked, root, linked, name), name) == linked
    ensures MovedIn(MovedIn(parked, root, linked, name), name, MovedOut(parked, root), root) == parked
    ensures root !in parked ==> MovedOut(parked, root) == parked
  {
  }

  /** On concatenated paths: an entry of a parked root comes back with everything recorded for it, and an entry
      of any other directory only if nothing was. */
  lemma LinkThenUnlinkBelow(c: Cfg, raw: string, root: string, dir: string)
    requires LinkedKeys(c) && !IsProject(c, ToAsciiLower(raw))
    requires Component(dir) && root != "" && (root == "/" || root[|root| - 1] != '/')
    requires DoLink(c, raw, Some(Below(root, dir))).error.None?
    ensures var path := Below(root, dir);
            var o := DoUnlink(DoLink(c, raw, Some(path)).cfg, raw);
            && o.error.None?
            && (o.cfg == c <==> root in c.parkedPaths || !HasParkedRecords(c, path))
            && (root !in c.parkedPaths ==> !HasParkedRecords(o.cfg, path))
  {
    ParentOfBelow(root, dir);
    LinkThenUnlink(c, raw, Below(root, dir));
    if root !in c.parkedPaths { UnlinkForgets(c, raw, Below(root, dir)); }
  }

  /** `m'` and `n'` are `m` and `n` with the entry at `from` of the one, if any, now at `to` of the other. */
  ghost predicate EntryMoves<T>(m: map<string, T>, m': map<string, T>, from: string,
                                n: map<string, T>, n': map<string, T>, to: string)
  {
    && from !in m' && (forall k :: k != from ==> (k in m' <==> k in m) && (k in m' && k in m ==> m'[k] == m[k]))
    && (forall k :: k != to ==> (k in n' <==> k in n) && (k in n' && k in n ==> n'[k] == n[k]))
    && (if from in m then to in n' && n'[to] == m[from] else (to in n' <==> to in n) && (to in n ==> n'[to] == n[to]))
  }

  /** What an accepted Link records: the site last, and each of the directory's three records moved to its name. */
  lemma LinkMoves(c: Cfg, raw: string, path: string)
    requires DoLink(c, raw, Some(path)).error.None?
    ensures var c', n := DoLink(c, raw, Some(path)).cfg, ToAsciiLower(raw);
            && c' == c.(linked := c'.linked, domains := c'.domains,
                        proxyRules := c'.proxyRules, routeRules := c'.routeRules)
            && ValidName(n) && c'.linked == c.linked + [Site(n, path, Linked, false, None)]
            && c'.domains.proxy == c.domains.proxy
            && EntryMoves(c.domains.parked, c'.domains.parked, path, c.domains.linked, c'.domains.linked, n)
            && EntryMoves(c.proxyRules.parked, c'.proxyRules.parked, path, c.proxyRules.linked, c'.proxyRules.linked, n)
            && EntryMoves(c.routeRules.parked, c'.routeRules.parked, path, c.routeRules.linked, c'.routeRules.linked, n)
  {
  }

  /** What an accepted Unlink of a site whose directory is an entry of a parked root gives back to the directory. */
  lemma UnlinkMoves(c: Cfg, raw: string, root: string, dir: string, i: nat)
    requires !IsProject(c, ToAsciiLower(raw)) && root in c.parkedPaths
    requires Component(dir) && root != "" && (root == "/" || root[|root| - 1] != '/')
    requires i < |c.linked| && c.linked[i].name == ToAsciiLower(raw) && c.linked[i].root == Below(root, dir)
    requires forall j :: 0 <= j < i ==> c.linked[j].name != ToAsciiLower(raw)
    ensures var o, n, path := DoUnlink(c, raw), ToAsciiLower(raw), Below(root, dir);
            var c' := o.cfg;
            && o.error.None?
            && c' == c.(linked := c'.linked, domains := c'.domains,
                        proxyRules := c'.proxyRules, routeRules := c'.routeRules)
            && (forall s :: s in c'.linked <==> s in c.linked && s.name != n)
            && c'.domains.proxy == c.domains.proxy
            && EntryMoves(c.domains.linked, c'.domains.linked, n, c.domains.parked, c'.domains.parked, path)
            && EntryMoves(c.proxyRules.linked, c'.proxyRules.linked, n, c.proxyRules.parked, c'.proxyRules.parked, path)
            && EntryMoves(c.routeRules.linked, c'.routeRules.linked, n, c.routeRules.parked, c'.routeRules.parked, path)
  {
    var n := ToAsciiLower(raw);
    ParentOfBelow(root, dir);
    FirstIndexIs(c.linked, SiteNamed(n), i);
    WithoutSiteFacts(c.linked, n);
  }

  /** A committed Link is of a name no project bears, as the round trip asks. */
  lemma CommittedLinkIsNoProject(c: Cfg, raw: string, root: string)
    requires DoLink(c, raw, Some(root)).error.None? && Validate(DoLink(c, raw, Some(root)).cfg)
    ensures !IsProject(c, ToAsciiLower(raw))
  {
    var name := SiteNameOf(raw).value;
    LinkedAfterLink(c, name, root);
  }

  /** With a parent that is not parked, a customised directory does lose its records. */
  lemma UnlinkForgets(c: Cfg, raw: string, root: string)
    requires LinkedKeys(c) && DoLink(c, raw, Some(root)).error.None? && !IsProject(c, ToAsciiLower(raw))
    requires !ParentIsParkedRoot(c, root)
    ensures !HasParkedRecords(DoUnlink(DoLink(c, raw, Some(root)).cfg, raw).cfg, root)
  {
    var name := SiteNameOf(raw).value;
    FirstLinkedAppended(c.linked, Site(name, root, Linked, false, None));
    assert !IsProject(Linking(c, name, root), name);
  }
}
