/** Proxy-side deltas belong to proxies and projects, over every request
    (bin/orckerd/src/mutate.rs:226-266, 374-387, 578-638). */
module ProxyKeys {
  import opened Text
  import opened Domains
  import opened Config
  import opened Router
  import opened Mutate
  import opened Frames
  import opened LinkUnlink

  ghost predicate IsClaimant(c: Cfg, name: string) {
    IsProxy(c, name) || IsProject(c, name)
  }

  /** Only proxies and projects have proxy-side deltas. */
  ghost predicate ProxySideKeys(c: Cfg) {
    forall k :: k in c.domains.proxy ==> IsClaimant(c, k)
  }

  lemma ProxyNamesDecide(c: Cfg, c': Cfg, name: string)
    requires SameProxyNames(c'.proxies, c.proxies) && SameProjectNames(c'.projects, c.projects) && IsClaimant(c, name)
    ensures IsClaimant(c', name)
  {
    if IsProxy(c, name) {
      var i :| 0 <= i < |c.proxies| && c.proxies[i].name == name;
      assert c'.proxies[i].name == name;
    } else {
      var i :| 0 <= i < |c.projects| && c.projects[i].name == name;
      assert c'.projects[i].name == name;
    }
  }

  lemma SameNamesKeepKeys(c: Cfg, c': Cfg)
    requires ProxySideKeys(c) && SameProxyNames(c'.proxies, c.proxies) && SameProjectNames(c'.projects, c.projects)
    requires forall k :: k in c'.domains.proxy ==> k in c.domains.proxy || IsProxy(c, k)
    ensures ProxySideKeys(c')
  {
    forall k | k in c'.domains.proxy ensures IsClaimant(c', k) {
      ProxyNamesDecide(c, c', k);
    }
  }

  lemma StillProxy(c: Cfg, c': Cfg, k: string)
    requires IsProxy(c, k) && forall p :: p in c.proxies && p.name == k ==> p in c'.proxies
    ensures IsProxy(c', k)
  {
    var i :| 0 <= i < |c.proxies| && c.proxies[i].name == k;
    assert c.proxies[i] in c'.proxies;
    var j :| 0 <= j < |c'.proxies| && c'.proxies[j] == c.proxies[i];
  }

  lemma StillProject(c: Cfg, c': Cfg, k: string)
    requires IsProject(c, k) && forall p :: p in c.projects && p.name == k ==> p in c'.projects
    ensures IsProject(c', k)
  {
    var i :| 0 <= i < |c.projects| && c.projects[i].name == k;
    assert c.projects[i] in c'.projects;
    var j :| 0 <= j < |c'.projects| && c'.projects[j] == c.projects[i];
  }

  /** Keys that survive a removal or an addition still have their claimant. */
  lemma ShrinkKeepsKeys(c: Cfg, c': Cfg)
    requires ProxySideKeys(c)
    requires forall k :: k in c'.domains.proxy ==> k in c.domains.proxy
    requires forall k, p :: k in c'.domains.proxy && p in c.proxies && p.name == k ==> p in c'.proxies
    requires forall k, p :: k in c'.domains.proxy && p in c.projects && p.name == k ==> p in c'.projects
    ensures ProxySideKeys(c')
  {
    forall k | k in c'.domains.proxy ensures IsClaimant(c', k) {
      if IsProxy(c, k) { StillProxy(c, c', k); } else { StillProject(c, c', k); }
    }
  }

  lemma DomainRequestKeepsProxyKeys(c: Cfg, r: Routes, req: Request)
    requires ProxySideKeys(c) && IsDomainRequest(req) && Apply(c, r, req).error.None?
    ensures ProxySideKeys(Apply(c, r, req).cfg)
  {
    var t, d := DomainRequestStores(c, r, req);
    SameNamesKeepKeys(c, c.(domains := StoreDelta(c.domains, t, d)));
  }

  lemma UnlinkKeepsProxyKeys(c: Cfg, raw: string)
    requires ProxySideKeys(c)
    ensures ProxySideKeys(DoUnlink(c, raw).cfg)
  {
    WithoutProjectFacts(c.projects, ToAsciiLower(raw));
    ShrinkKeepsKeys(c, DoUnlink(c, raw).cfg);
  }

  lemma ProxyRequestKeepsProxyKeys(c: Cfg, r: Routes, req: Request)
    requires ProxySideKeys(c) && (req.AddProxy? || req.RemoveProxy?)
    ensures ProxySideKeys(Apply(c, r, req).cfg)
  {
    if req.RemoveProxy? { WithoutProxyFacts(c.proxies, ToAsciiLower(req.name)); }
    ShrinkKeepsKeys(c, Apply(c, r, req).cfg);
  }

  /** Every accepted request keeps proxy-side deltas on proxies and projects. */
  lemma RequestKeepsProxyKeys(c: Cfg, r: Routes, req: Request)
    requires ProxySideKeys(c) && Apply(c, r, req).error.None?
    ensures ProxySideKeys(Apply(c, r, req).cfg)
  {
    var c' := Apply(c, r, req).cfg;
    if IsDomainRequest(req) {
      DomainRequestKeepsProxyKeys(c, r, req);
    } else if IsFlagRequest(req) {
      FlagFrame(c, r, req);
      FlagKeepsNames(c, r, req);
      SameNamesKeepKeys(c, c');
    } else if IsRuleRequest(req) {
      RuleFrame(c, r, req);
      SameNamesKeepKeys(c, c');
    } else if IsGroupRequest(req) {
      GroupFrame(c, r, req);
      SameNamesKeepKeys(c, c');
    } else if req.Unlink? {
      UnlinkKeepsProxyKeys(c, req.name);
    } else if req.AddProxy? || req.RemoveProxy? {
      ProxyRequestKeepsProxyKeys(c, r, req);
    } else {
      SameNamesKeepKeys(c, c');
    }
  }
}
