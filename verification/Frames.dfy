/** Which parts of the configuration each family of requests can touch. */
module Frames {
  import opened Text
  import opened Domains
  import opened Config
  import opened Router
  import opened Mutate

  predicate IsFlagRequest(req: Request) { req.SetSecure? || req.SetFrontController? }

  predicate IsDomainRequest(req: Request) {
    req.AddDomain? || req.RemoveDomain? || req.SetPrimaryDomain? || req.ResetDomains?
  }

  predicate IsRuleRequest(req: Request) {
    req.AddProxyRule? || req.RemoveProxyRule? || req.AddRouteRule? || req.RemoveRouteRule?
  }

  /** Same sites in the same order, up to their flags. */
  ghost predicate SameSites(a: seq<Site>, b: seq<Site>) {
    && |a| == |b|
    && (forall i :: 0 <= i < |a| ==> a[i].name == b[i].name && a[i].root == b[i].root && a[i].kind == b[i].kind)
  }

  lemma SetFirstSiteKeeps(sites: seq<Site>, name: string, secure: Option<bool>, fc: Option<bool>)
    ensures SameSites(SetFirstSite(sites, name, secure, fc), sites)
  {
  }

  lemma SecureFrame(c: Cfg, r: Routes, raw: string, secure: bool)
    ensures var c' := DoSetSecure(c, r, raw, secure).cfg;
            && c' == c.(linked := c'.linked, overrides := c'.overrides, proxies := c'.proxies, projects := c'.projects)
            && SameSites(c'.linked, c.linked)
  {
    SetFirstSiteKeeps(c.linked, ToAsciiLower(raw), Some(secure), None);
  }

  lemma FrontControllerFrame(c: Cfg, r: Routes, raw: string, enabled: bool)
    ensures var c' := DoSetFrontController(c, r, raw, enabled).cfg;
            c' == c.(linked := c'.linked, overrides := c'.overrides) && SameSites(c'.linked, c.linked)
  {
    SetFirstSiteKeeps(c.linked, ToAsciiLower(raw), None, Some(enabled));
  }

  lemma FlagFrame(c: Cfg, r: Routes, req: Request)
    requires IsFlagRequest(req)
    ensures var c' := Apply(c, r, req).cfg;
            && c' == c.(linked := c'.linked, overrides := c'.overrides, proxies := c'.proxies, projects := c'.projects)
            && SameSites(c'.linked, c.linked)
  {
    match req {
      case SetSecure(name, secure) => SecureFrame(c, r, name, secure);
      case SetFrontController(name, enabled) => FrontControllerFrame(c, r, name, enabled);
    }
  }

  lemma DomainFrame(c: Cfg, r: Routes, req: Request)
    requires IsDomainRequest(req)
    ensures Apply(c, r, req).cfg == c.(domains := Apply(c, r, req).cfg.domains)
  {
  }

  lemma RuleFrame(c: Cfg, r: Routes, req: Request)
    requires IsRuleRequest(req)
    ensures var c' := Apply(c, r, req).cfg; c' == c.(proxyRules := c'.proxyRules, routeRules := c'.routeRules)
  {
  }

  lemma GroupFrame(c: Cfg, r: Routes, req: Request)
    requires IsGroupRequest(req)
    ensures Apply(c, r, req).cfg == c.(groups := Apply(c, r, req).cfg.groups)
  {
  }

  // ---- What a `retain` leaves ----

  lemma WithoutFacts<T>(s: seq<T>, x: T)
    ensures forall y :: y in Without(s, x) <==> y in s && y != x
    ensures NoDup(s) ==> NoDup(Without(s, x))
  {
    FilterFacts(s, OtherThan(x));
    var at := FilterPositions(s, OtherThan(x));
  }

  lemma WithoutSiteFacts(sites: seq<Site>, name: string)
    ensures forall s :: s in WithoutSite(sites, name) <==> s in sites && s.name != name
    ensures (forall i :: 0 <= i < |sites| ==> sites[i].name != name) ==> WithoutSite(sites, name) == sites
  {
    FilterFacts(sites, Not(SiteNamed(name)));
  }

  lemma WithoutProxyFacts(proxies: seq<Proxy>, name: string)
    ensures forall p :: p in WithoutProxy(proxies, name) <==> p in proxies && p.name != name
    ensures |WithoutProxy(proxies, name)| == |proxies| <==> forall i :: 0 <= i < |proxies| ==> proxies[i].name != name
    ensures |WithoutProxy(proxies, name)| == |proxies| ==> WithoutProxy(proxies, name) == proxies
  {
    FilterFacts(proxies, Not(ProxyNamed(name)));
  }

  lemma WithoutProjectFacts(projects: seq<Project>, name: string)
    ensures forall p :: p in WithoutProject(projects, name) <==> p in projects && p.name != name
  {
    FilterFacts(projects, Not(ProjectNamed(name)));
  }

  lemma WithoutPrefixFacts<T(!new)>(rules: seq<Rule<T>>, prefix: string)
    ensures forall r :: r in WithoutPrefix(rules, prefix) <==> r in rules && r.prefix != prefix
    ensures |WithoutPrefix(rules, prefix)| == |rules| <==> !HasPrefix(rules, prefix)
    ensures |WithoutPrefix(rules, prefix)| == |rules| ==> WithoutPrefix(rules, prefix) == rules
  {
    FilterFacts(rules, Not(WithRulePrefix(prefix)));
  }

  // ---- Names of proxies and projects ----

  ghost predicate SameProxyNames(a: seq<Proxy>, b: seq<Proxy>) {
    |a| == |b| && forall i :: 0 <= i < |a| ==> a[i].name == b[i].name
  }

  ghost predicate SameProjectNames(a: seq<Project>, b: seq<Project>) {
    |a| == |b| && forall i :: 0 <= i < |a| ==> a[i].name == b[i].name
  }

  lemma SecureKeepsNames(c: Cfg, r: Routes, raw: string, secure: bool)
    ensures var c' := DoSetSecure(c, r, raw, secure).cfg;
            SameProxyNames(c'.proxies, c.proxies) && SameProjectNames(c'.projects, c.projects)
  {
  }

  lemma FlagKeepsNames(c: Cfg, r: Routes, req: Request)
    requires IsFlagRequest(req)
    ensures var c' := Apply(c, r, req).cfg;
            SameProxyNames(c'.proxies, c.proxies) && SameProjectNames(c'.projects, c.projects)
  {
    if req.SetSecure? { SecureKeepsNames(c, r, req.name, req.secure); }
  }
}
