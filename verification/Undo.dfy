/** Which requests a later request undoes or overrides (bin/orckerd/src/mutate.rs:135-562). */
module Undo {
  import opened Text
  import opened Domains
  import opened Config
  import opened Router
  import opened Mutate
  import opened Paths
  import opened Frames

  // ---- Proxies ----

  lemma RemovedAgain(proxies: seq<Proxy>, p: Proxy)
    requires forall i :: 0 <= i < |proxies| ==> proxies[i].name != p.name
    ensures WithoutProxy(proxies + [p], p.name) == proxies
  {
    WithoutProxyFacts(proxies, p.name);
    FilterGrow(proxies, p, Not(ProxyNamed(p.name)));
  }

  /** AddProxy then RemoveProxy restores the configuration exactly when no delta waits under that name. */
  lemma AddThenRemoveProxy(c: Cfg, r: Routes, name: Name, target: Target)
    requires DoAddProxy(c, r, Some(name), Some(target)).error.None?
    ensures var o := DoRemoveProxy(DoAddProxy(c, r, Some(name), Some(target)).cfg, name);
            o.error.None? && (o.cfg == c <==> name !in c.domains.proxy)
  {
    LowerOfName(name);
    var p, c' := Proxy(name, target, false), DoAddProxy(c, r, Some(name), Some(target)).cfg;
    assert c'.proxies[|c.proxies|] == p;
    RemovedAgain(c.proxies, p);
    assert name !in c.domains.proxy ==> c.domains.proxy - {name} == c.domains.proxy;
    assert name in c.domains.proxy ==> name !in DoRemoveProxy(c', name).cfg.domains.proxy;
  }

  // ---- Rules ----

  lemma {:induction false} NormalizeTwice(p: string)
    ensures NormalizePrefix(NormalizePrefix(p)) == NormalizePrefix(p)
  {
    if |p| > 1 && p[|p| - 1] == '/' { NormalizeTwice(p[..|p| - 1]); }
  }

  /** An entry with an empty rule list; a removal prunes its own. */
  predicate EmptyShell<T>(s: RulesSection<T>, at: RuleKey) {
    at.key in RuleSide(s, at.kind) && RuleSide(s, at.kind)[at.key] == []
  }

  lemma DroppedAgain<T(!new)>(rules: seq<Rule<T>>, rule: Rule<T>)
    requires !HasPrefix(rules, rule.prefix)
    ensures HasPrefix(rules + [rule], rule.prefix) && WithoutPrefix(rules + [rule], rule.prefix) == rules
  {
    assert (rules + [rule])[|rules|] == rule;
    WithoutPrefixFacts(rules, rule.prefix);
    FilterGrow(rules, rule, Not(WithRulePrefix(rule.prefix)));
  }

  /** Adding a rule and removing it again restores the section exactly when there was no empty shell. */
  lemma AddThenRemoveRule<T(!new)>(s: RulesSection<T>, at: RuleKey, rule: Rule<T>)
    requires AddedRule(s, at, rule).Some?
    ensures var s' := RemovedRule(AddedRule(s, at, rule).value, at, rule.prefix);
            s'.Some? && (s'.value == s <==> !EmptyShell(s, at))
  {
    var m, rules := RuleSide(s, at.kind), RulesAt(RuleSide(s, at.kind), at.key);
    var more := rules + [rule];
    DroppedAgain(rules, rule);
    var m' := PutRules(m[at.key := more], at.key, rules);
    assert !EmptyShell(s, at) ==> m' == m;
    assert EmptyShell(s, at) ==> at.key !in m' && m' != m;
  }

  // ---- Flags ----

  /** A parked site's flags are recorded for its document root alone, and the last setting counts. */
  lemma ParkedFlags(c: Cfg, r: Routes, raw: string, on: bool, again: bool)
    requires var n := ToAsciiLower(raw); !IsLinked(c, n) && n in r.sites
    ensures var root := r.sites[ToAsciiLower(raw)].root;
            var c', c'' := DoSetSecure(c, r, raw, on).cfg, DoSetFrontController(c, r, raw, on).cfg;
            && OverrideOf(c', root) == OverrideOf(c, root).(secure := Some(on))
            && OverrideOf(c'', root) == OverrideOf(c, root).(frontController := Some(on))
            && (forall k :: k != root ==>
                  OverrideOf(c', k) == OverrideOf(c, k) && OverrideOf(c'', k) == OverrideOf(c, k))
            && DoSetSecure(c', r, raw, again).cfg == DoSetSecure(c, r, raw, again).cfg
            && DoSetFrontController(c'', r, raw, again).cfg == DoSetFrontController(c, r, raw, again).cfg
  {
    var c', c'' := DoSetSecure(c, r, raw, on).cfg, DoSetFrontController(c, r, raw, on).cfg;
    assert !IsLinked(c', ToAsciiLower(raw)) && !IsLinked(c'', ToAsciiLower(raw));
    assert DoSetSecure(c', r, raw, again).cfg.overrides == DoSetSecure(c, r, raw, again).cfg.overrides;
    assert DoSetFrontController(c'', r, raw, again).cfg.overrides ==
           DoSetFrontController(c, r, raw, again).cfg.overrides;
  }

  /** A flag set twice on the first linked site, proxy or project of a name holds the second value. */
  lemma FirstSiteTwice(sites: seq<Site>, name: string, was: bool, on: bool)
    ensures var s, t := SetFirstSite(sites, name, Some(was), None), SetFirstSite(sites, name, None, Some(was));
            && SetFirstSite(s, name, Some(on), None) == SetFirstSite(sites, name, Some(on), None)
            && SetFirstSite(t, name, None, Some(on)) == SetFirstSite(sites, name, None, Some(on))
  {
    var i := FirstIndex(sites, SiteNamed(name));
    FirstIndexIs(SetFirstSite(sites, name, Some(was), None), SiteNamed(name), i);
    FirstIndexIs(SetFirstSite(sites, name, None, Some(was)), SiteNamed(name), i);
  }

  lemma FirstProxyTwice(proxies: seq<Proxy>, name: string, was: bool, on: bool)
    ensures SetFirstProxy(SetFirstProxy(proxies, name, was), name, on) == SetFirstProxy(proxies, name, on)
  {
    FirstIndexIs(SetFirstProxy(proxies, name, was), ProxyNamed(name), FirstIndex(proxies, ProxyNamed(name)));
  }

  lemma FirstProjectTwice(projects: seq<Project>, name: string, was: bool, on: bool)
    ensures SetFirstProject(SetFirstProject(projects, name, was), name, on) == SetFirstProject(projects, name, on)
  {
    FirstIndexIs(SetFirstProject(projects, name, was), ProjectNamed(name), FirstIndex(projects, ProjectNamed(name)));
  }

  lemma SameLookups(c: Cfg, c': Cfg, name: string)
    requires SameSites(c'.linked, c.linked)
    requires SameProxyNames(c'.proxies, c.proxies) && SameProjectNames(c'.projects, c.projects)
    ensures IsLinked(c', name) == IsLinked(c, name)
    ensures IsProxy(c', name) == IsProxy(c, name) && IsProject(c', name) == IsProject(c, name)
  {
    assert forall i :: 0 <= i < |c.linked| ==> c'.linked[i].name == c.linked[i].name;
    assert forall i :: 0 <= i < |c.proxies| ==> c'.proxies[i].name == c.proxies[i].name;
    assert forall i :: 0 <= i < |c.projects| ==> c'.projects[i].name == c.projects[i].name;
  }

  /** Whatever claimant a name resolves to, the last setting of a flag counts and earlier ones leave no trace. */
  lemma LastSecureCounts(c: Cfg, r: Routes, raw: string, was: bool, on: bool)
    ensures DoSetSecure(DoSetSecure(c, r, raw, was).cfg, r, raw, on) == DoSetSecure(c, r, raw, on)
  {
    var name, c' := ToAsciiLower(raw), DoSetSecure(c, r, raw, was).cfg;
    SecureFrame(c, r, raw, was);
    SecureKeepsNames(c, r, raw, was);
    SameLookups(c, c', name);
    FirstSiteTwice(c.linked, name, was, on);
    FirstProxyTwice(c.proxies, name, was, on);
    FirstProjectTwice(c.projects, name, was, on);
    if !IsLinked(c, name) && name in r.sites {
      ParkedFlags(c, r, raw, was, on);
    }
  }

  lemma LastFrontControllerCounts(c: Cfg, r: Routes, raw: string, was: bool, on: bool)
    ensures DoSetFrontController(DoSetFrontController(c, r, raw, was).cfg, r, raw, on) ==
            DoSetFrontController(c, r, raw, on)
  {
    var name, c' := ToAsciiLower(raw), DoSetFrontController(c, r, raw, was).cfg;
    FrontControllerFrame(c, r, raw, was);
    SameLookups(c, c', name);
    FirstSiteTwice(c.linked, name, was, on);
    if !IsLinked(c, name) && name in r.sites {
      ParkedFlags(c, r, raw, was, on);
    }
  }

  // ---- Parking ----

  /** Something is recorded for a directory at or below `root`. */
  ghost predicate RecordsUnder(c: Cfg, root: string) {
    exists k :: AtOrBelow(k, root) && (k in c.domains.parked || k in c.proxyRules.parked || k in c.routeRules.parked)
  }

  /** `m'` is `m` less what is keyed at or below `root`. */
  ghost predicate Drops<T>(m: map<string, T>, m': map<string, T>, root: string) {
    && (forall k :: k in m' <==> k in m && !AtOrBelow(k, root))
    && (forall k :: k in m' && k in m ==> m'[k] == m[k])
  }

  lemma DropUnderDrops<T>(m: map<string, T>, root: string)
    ensures Drops(m, DropUnder(m, root), root)
    ensures DropUnder(m, root) == m <==> forall k :: k in m ==> !AtOrBelow(k, root)
  {
    forall k ensures IsUnderRoot(k, root) <==> AtOrBelow(k, root) { UnderRootIff(k, root); }
    if DropUnder(m, root) == m {
      forall k | k in m ensures !AtOrBelow(k, root) { assert k in DropUnder(m, root); }
    }
  }

  /** Park adds the path and nothing else; Unpark takes the root away with every record at or below it, and
      nothing else. Neither minds whether the path was there. */
  lemma ParkAndUnparkStore(c: Cfg, path: string)
    ensures var o := DoPark(c, Some(path));
            && o.error.None? && o.cfg == c.(parkedPaths := o.cfg.parkedPaths)
            && (forall p :: p in o.cfg.parkedPaths <==> p in c.parkedPaths || p == path)
    ensures var o := DoUnpark(c, path);
            var c' := o.cfg;
            && o.error.None?
            && c' == c.(parkedPaths := c'.parkedPaths, domains := c'.domains, proxyRules := c'.proxyRules,
                        routeRules := c'.routeRules)
            && (forall p :: p in c'.parkedPaths <==> p in c.parkedPaths && p != path)
            && c'.domains.linked == c.domains.linked && c'.domains.proxy == c.domains.proxy
            && c'.proxyRules.linked == c.proxyRules.linked && c'.routeRules.linked == c.routeRules.linked
            && Drops(c.domains.parked, c'.domains.parked, path)
            && Drops(c.proxyRules.parked, c'.proxyRules.parked, path)
            && Drops(c.routeRules.parked, c'.routeRules.parked, path)
  {
    DropUnderDrops(c.domains.parked, path);
    DropUnderDrops(c.proxyRules.parked, path);
    DropUnderDrops(c.routeRules.parked, path);
  }

  /** Park then Unpark restores the configuration exactly when the path was not parked before and nothing
      was recorded at or below it. */
  lemma ParkThenUnpark(c: Cfg, path: string)
    ensures DoUnpark(DoPark(c, Some(path)).cfg, path) == Done(c) <==> path !in c.parkedPaths && !RecordsUnder(c, path)
  {
    var c'' := DoUnpark(DoPark(c, Some(path)).cfg, path).cfg;
    DropUnderDrops(c.domains.parked, path);
    DropUnderDrops(c.proxyRules.parked, path);
    DropUnderDrops(c.routeRules.parked, path);
    assert c''.parkedPaths == c.parkedPaths <==> path !in c.parkedPaths by { assert path !in c''.parkedPaths; }
  }
}
