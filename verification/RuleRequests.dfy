/** What an accepted rule request does to the rules the router serves
    (bin/orckerd/src/mutate.rs:389-538 together with bin/orckerd/src/site_domains.rs:84-107). */
module RuleRequests {
  import opened Text
  import opened Domains
  import opened Config
  import opened Router
  import opened SiteDomains
  import opened RouterBuild
  import opened Ownership
  import opened Mutate
  import opened Frames
  import opened DomainRequests

  /** `after` serves `rules` for the site `n`, and for every other site what `before` does. */
  ghost predicate ServesInstead<T(!new)>(before: map<string, seq<Rule<T>>>, after: map<string, seq<Rule<T>>>,
                                         n: string, rules: seq<Rule<T>>)
  {
    && (n in after <==> rules != []) && (n in after ==> after[n] == rules)
    && (forall m :: m != n ==> (m in after <==> m in before) && (m in before && m in after ==> after[m] == before[m]))
  }

  // ---- Rewriting one site's rules ----

  /** `s'` stores `rules` under `at` and is otherwise `s`. */
  ghost predicate Rewrites<T(!new)>(s: RulesSection<T>, s': RulesSection<T>, at: RuleKey, rules: seq<Rule<T>>) {
    var m, m' := RuleSide(s, at.kind), RuleSide(s', at.kind);
    && RulesAt(m', at.key) == rules
    && (forall k :: k != at.key ==> (k in m' <==> k in m) && (k in m && k in m' ==> m'[k] == m[k]))
    && (if at.kind.Linked? then s'.parked == s.parked else s'.linked == s.linked)
  }

  /** Site `j` of the plan is the one whose rules are stored under `at`. */
  predicate ReadsFrom(site: Site, at: RuleKey) {
    site.kind == at.kind && at.key == if site.kind.Linked? then site.name else site.root
  }

  lemma RewrittenSite<T(!new)>(s: RulesSection<T>, s': RulesSection<T>, at: RuleKey, rules: seq<Rule<T>>, site: Site)
    requires Rewrites(s, s', at, rules)
    ensures ReadsFrom(site, at) ==>
              var read := SiteRules(s', site);
              if read.Some? then read.value == rules else rules == []
    ensures !ReadsFrom(site, at) ==> SiteRules(s', site) == SiteRules(s, site)
  {
  }

  ghost predicate OneReader(p: Plan, i: nat, at: RuleKey) {
    && i < |p.sites| && ReadsFrom(p.sites[i].site, at)
    && forall j :: 0 <= j < |p.sites| && j != i ==> !ReadsFrom(p.sites[j].site, at)
  }

  /** A rewritten entry changes what is attached to its one reader. */
  lemma RewriteLands<T(!new)>(s: RulesSection<T>, s': RulesSection<T>, at: RuleKey, rules: seq<Rule<T>>, p: Plan,
                              i: nat)
    requires GoodPlan(p) && OneReader(p, i, at) && Rewrites(s, s', at, rules)
    ensures ServesInstead(RulesUpTo(s, p, |p.sites|), RulesUpTo(s', p, |p.sites|), p.sites[i].site.name, rules)
  {
    var k, n := |p.sites|, p.sites[i].site.name;
    var before, after := RulesUpTo(s, p, k), RulesUpTo(s', p, k);
    RulesLand(s, p, k);
    RulesLand(s', p, k);
    RewrittenSite(s, s', at, rules, p.sites[i].site);
    forall m | m != n ensures (m in after <==> m in before) && (m in before && m in after ==> after[m] == before[m]) {
      if m in before || m in after {
        var j :| 0 <= j < k && p.sites[j].site.name == m;
        RewrittenSite(s, s', at, rules, p.sites[j].site);
      }
    }
  }

  /** What is served for a site is what is stored for it. */
  lemma ServedIsStored<T(!new)>(s: RulesSection<T>, at: RuleKey, p: Plan, i: nat)
    requires GoodPlan(p) && i < |p.sites| && ReadsFrom(p.sites[i].site, at)
    ensures RulesAt(RulesUpTo(s, p, |p.sites|), p.sites[i].site.name) == RulesAt(RuleSide(s, at.kind), at.key)
  {
    RulesLand(s, p, |p.sites|);
  }

  // ---- The site a request names ----

  /** The routed site of a name is planned, and it alone reads the rules stored under its key. */
  lemma NamedSiteIsPlanned(c: Cfg, sites: seq<Site>, n: string) returns (i: nat)
    requires DistinctRoots(sites) && n in Build(c, sites).sites
    ensures var p := MakePlan(c, sites);
            && SiteRuleKey(Build(c, sites), n).Some?
            && OneReader(p, i, SiteRuleKey(Build(c, sites), n).value) && p.sites[i].site.name == n
  {
    var p, kept := MakePlan(c, sites), KeepFirst(sites, SiteName);
    var site, at := Build(c, sites).sites[n], SiteRuleKey(Build(c, sites), n).value;
    RoutedSiteIsKept(c, sites, n);
    KeepFirstFacts(sites, SiteName);
    i :| 0 <= i < |kept| && kept[i] == site;
    assert p.sites[i].site == site;
    forall j | 0 <= j < |p.sites| && j != i ensures !ReadsFrom(p.sites[j].site, at) {
      assert p.sites[j].site == kept[j] && kept[j] in sites && kept[i] in sites;
      assert SiteName(kept[i]) != SiteName(kept[j]);
    }
  }

  /** A build reads rules only to attach them. */
  lemma RulesKeepPlan(c: Cfg, c': Cfg, sites: seq<Site>)
    requires c' == c.(proxyRules := c'.proxyRules, routeRules := c'.routeRules)
    ensures MakePlan(c', sites) == MakePlan(c, sites)
  {
    var p, p' := MakePlan(c, sites), MakePlan(c', sites);
    assert p.sites == p'.sites;
    assert p.proxies == p'.proxies;
  }

  lemma AddedRewrites<T(!new)>(s: RulesSection<T>, at: RuleKey, rule: Rule<T>)
    requires AddedRule(s, at, rule).Some?
    ensures Rewrites(s, AddedRule(s, at, rule).value, at, RulesAt(RuleSide(s, at.kind), at.key) + [rule])
  {
  }

  lemma RemovedRewrites<T(!new)>(s: RulesSection<T>, at: RuleKey, prefix: string)
    requires RemovedRule(s, at, prefix).Some?
    ensures Rewrites(s, RemovedRule(s, at, prefix).value, at,
                     WithoutPrefix(RulesAt(RuleSide(s, at.kind), at.key), prefix))
  {
  }

  // ---- Accepted requests ----

  /** Rebuilding after one rule section was rewritten for a named site. */
  lemma RebuiltProxyRules(c: Cfg, c': Cfg, sites: seq<Site>, n: string, rules: seq<Rule<Target>>)
    requires DistinctRoots(sites) && n in Build(c, sites).sites && c' == c.(proxyRules := c'.proxyRules)
    requires Rewrites(c.proxyRules, c'.proxyRules, SiteRuleKey(Build(c, sites), n).value, rules)
    ensures var r, r' := Build(c, sites), Build(c', sites);
            r' == r.(proxyRules := r'.proxyRules) && ServesInstead(r.proxyRules, r'.proxyRules, n, rules)
  {
    var p := MakePlan(c, sites);
    RulesKeepPlan(c, c', sites);
    MakePlanIsGood(c, sites);
    var i := NamedSiteIsPlanned(c, sites, n);
    RewriteLands(c.proxyRules, c'.proxyRules, SiteRuleKey(Build(c, sites), n).value, rules, p, i);
  }

  lemma RebuiltRouteRules(c: Cfg, c': Cfg, sites: seq<Site>, n: string, rules: seq<Rule<string>>)
    requires DistinctRoots(sites) && n in Build(c, sites).sites && c' == c.(routeRules := c'.routeRules)
    requires Rewrites(c.routeRules, c'.routeRules, SiteRuleKey(Build(c, sites), n).value, rules)
    ensures var r, r' := Build(c, sites), Build(c', sites);
            r' == r.(routeRules := r'.routeRules) && ServesInstead(r.routeRules, r'.routeRules, n, rules)
  {
    var p := MakePlan(c, sites);
    RulesKeepPlan(c, c', sites);
    MakePlanIsGood(c, sites);
    var i := NamedSiteIsPlanned(c, sites, n);
    RewriteLands(c.routeRules, c'.routeRules, SiteRuleKey(Build(c, sites), n).value, rules, p, i);
  }

  /** The rules a routed site is served by are those its key stores. */
  lemma StoredRules(c: Cfg, sites: seq<Site>, n: string) returns (at: RuleKey)
    requires DistinctRoots(sites) && n in Build(c, sites).sites
    ensures var r := Build(c, sites);
            && SiteRuleKey(r, n) == Some(at)
            && RulesAt(r.proxyRules, n) == RulesAt(RuleSide(c.proxyRules, at.kind), at.key)
            && RulesAt(r.routeRules, n) == RulesAt(RuleSide(c.routeRules, at.kind), at.key)
  {
    var p := MakePlan(c, sites);
    at := SiteRuleKey(Build(c, sites), n).value;
    MakePlanIsGood(c, sites);
    var i := NamedSiteIsPlanned(c, sites, n);
    ServedIsStored(c.proxyRules, at, p, i);
    ServedIsStored(c.routeRules, at, p, i);
  }

  lemma AddProxyRuleOutcome(c: Cfg, r: Routes, raw: string, rule: Rule<Target>)
    ensures var o, at := DoAddProxyRule(c, r, raw, Some(rule)), SiteRuleKey(r, ToAsciiLower(raw));
            && (o.error.None? <==>
                  !LoopsBack(c.tld, rule.target) && at.Some? && AddedRule(c.proxyRules, at.value, rule).Some?)
            && (o.error.None? ==> o.cfg == c.(proxyRules := AddedRule(c.proxyRules, at.value, rule).value))
  {
  }

  lemma AddedIffFree<T(!new)>(s: RulesSection<T>, at: RuleKey, rule: Rule<T>)
    ensures AddedRule(s, at, rule).Some? <==>
              forall x :: x in RulesAt(RuleSide(s, at.kind), at.key) ==> x.prefix != rule.prefix
  {
  }

  /** AddProxyRule is accepted exactly for a routed site that serves no rule of the prefix and a target that
      does not loop back, and then the rebuilt router serves that rule last, and is otherwise the same. */
  lemma AddProxyRuleServes(c: Cfg, sites: seq<Site>, raw: string, rule: Rule<Target>)
    requires DistinctRoots(sites)
    ensures var r, n := Build(c, sites), ToAsciiLower(raw);
            var o, served := DoAddProxyRule(c, r, raw, Some(rule)), RulesAt(r.proxyRules, n);
            && (o.error.None? <==>
                  !LoopsBack(c.tld, rule.target) && n in r.sites && forall x :: x in served ==> x.prefix != rule.prefix)
            && (o.error.None? ==>
                  var r' := Build(o.cfg, sites);
                  && r' == r.(proxyRules := r'.proxyRules)
                  && ServesInstead(r.proxyRules, r'.proxyRules, n, served + [rule]))
  {
    var r, n := Build(c, sites), ToAsciiLower(raw);
    AddProxyRuleOutcome(c, r, raw, rule);
    if n in r.sites {
      var at := StoredRules(c, sites, n);
      AddedIffFree(c.proxyRules, at, rule);
      if AddedRule(c.proxyRules, at, rule).Some? {
        AddedRewrites(c.proxyRules, at, rule);
        var c' := c.(proxyRules := AddedRule(c.proxyRules, at, rule).value);
        RebuiltProxyRules(c, c', sites, n, RulesAt(r.proxyRules, n) + [rule]);
      }
    }
  }

  /** RemoveProxyRule is accepted exactly for a routed site that serves a rule of the prefix, and then the
      rebuilt router serves the site's other rules, and is otherwise the same. */
  lemma RemoveProxyRuleServes(c: Cfg, sites: seq<Site>, raw: string, prefix: string)
    requires DistinctRoots(sites)
    ensures var r, n, wanted := Build(c, sites), ToAsciiLower(raw), NormalizePrefix(prefix);
            var o, served := DoRemoveProxyRule(c, r, raw, prefix), RulesAt(r.proxyRules, n);
            && (o.error.None? <==> n in r.sites && exists x :: x in served && x.prefix == wanted)
            && (o.error.None? ==>
                  var r' := Build(o.cfg, sites);
                  && r' == r.(proxyRules := r'.proxyRules)
                  && ServesInstead(r.proxyRules, r'.proxyRules, n, WithoutPrefix(served, wanted)))
  {
    var r, n, wanted := Build(c, sites), ToAsciiLower(raw), NormalizePrefix(prefix);
    var o := DoRemoveProxyRule(c, r, raw, prefix);
    if n in r.sites {
      var at := StoredRules(c, sites, n);
      if o.error.None? {
        RemovedRewrites(c.proxyRules, at, wanted);
        RebuiltProxyRules(c, o.cfg, sites, n, WithoutPrefix(RulesAt(r.proxyRules, n), wanted));
      }
    }
  }

  /** The same for a routing rule, whose target is not restricted. */
  lemma AddRouteRuleServes(c: Cfg, sites: seq<Site>, raw: string, rule: Rule<string>)
    requires DistinctRoots(sites)
    ensures var r, n := Build(c, sites), ToAsciiLower(raw);
            var o, served := DoAddRouteRule(c, r, raw, Some(rule)), RulesAt(r.routeRules, n);
            && (o.error.None? <==> n in r.sites && forall x :: x in served ==> x.prefix != rule.prefix)
            && (o.error.None? ==>
                  var r' := Build(o.cfg, sites);
                  && r' == r.(routeRules := r'.routeRules)
                  && ServesInstead(r.routeRules, r'.routeRules, n, served + [rule]))
  {
    var r, n := Build(c, sites), ToAsciiLower(raw);
    var o := DoAddRouteRule(c, r, raw, Some(rule));
    if n in r.sites {
      var at := StoredRules(c, sites, n);
      if o.error.None? {
        AddedRewrites(c.routeRules, at, rule);
        RebuiltRouteRules(c, o.cfg, sites, n, RulesAt(r.routeRules, n) + [rule]);
      }
    }
  }

  lemma RemoveRouteRuleServes(c: Cfg, sites: seq<Site>, raw: string, prefix: string)
    requires DistinctRoots(sites)
    ensures var r, n, wanted := Build(c, sites), ToAsciiLower(raw), NormalizePrefix(prefix);
            var o, served := DoRemoveRouteRule(c, r, raw, prefix), RulesAt(r.routeRules, n);
            && (o.error.None? <==> n in r.sites && exists x :: x in served && x.prefix == wanted)
            && (o.error.None? ==>
                  var r' := Build(o.cfg, sites);
                  && r' == r.(routeRules := r'.routeRules)
                  && ServesInstead(r.routeRules, r'.routeRules, n, WithoutPrefix(served, wanted)))
  {
    var r, n, wanted := Build(c, sites), ToAsciiLower(raw), NormalizePrefix(prefix);
    var o := DoRemoveRouteRule(c, r, raw, prefix);
    if n in r.sites {
      var at := StoredRules(c, sites, n);
      if o.error.None? {
        RemovedRewrites(c.routeRules, at, wanted);
        RebuiltRouteRules(c, o.cfg, sites, n, WithoutPrefix(RulesAt(r.routeRules, n), wanted));
      }
    }
  }
}
