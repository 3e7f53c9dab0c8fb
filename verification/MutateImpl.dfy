/** The mutation handlers as they edit a configuration in place, each proved against its value-level
    account in `Mutate` (bin/orckerd/src/mutate.rs). */
module MutateImpl {
  import opened Text
  import opened Domains
  import opened Config
  import opened Router
  import opened SiteDomains
  import opened Mutate
  import opened Frames

  /** `normalize_prefix`. */
  method ComputePrefix(prefix: string) returns (p: string)
    ensures p == NormalizePrefix(prefix)
  {
    p := prefix;
    while |p| > 1 && p[|p| - 1] == '/'
      invariant NormalizePrefix(p) == NormalizePrefix(prefix)
      decreases |p|
    {
      p := p[..|p| - 1];
    }
  }

  /** The permutation test: sort both and compare. */
  method IsPermutation(a: seq<string>, b: seq<string>) returns (same: bool)
    ensures same <==> multiset(a) == multiset(b)
  {
    var want := SortStrings(a);
    var have := SortStrings(b);
    if multiset(a) == multiset(b) {
      SortedIsCanonical(want, have);
    }
    same := want == have;
  }

  /** Every value that names the group ignoring case is overwritten. */
  method RenameValues(members: map<string, string>, from: string, to: string) returns (r: map<string, string>)
    ensures r == map s | s in members :: if SameIgnoringCase(members[s], from) then to else members[s]
  {
    r := members;
    var todo := members.Keys;
    while todo != {}
      invariant todo <= members.Keys && r.Keys == members.Keys
      invariant forall s :: s in members ==>
                  r[s] == if s in todo || !SameIgnoringCase(members[s], from) then members[s] else to
      decreases todo
    {
      var s :| s in todo;
      if SameIgnoringCase(r[s], from) {
        r := r[s := to];
      }
      todo := todo - {s};
    }
  }

  /** One side of a rule section after `entry(..).or_default()` and a push, unless the prefix is taken. */
  method PushRule<T(!new)>(m: map<string, seq<Rule<T>>>, key: string, rule: Rule<T>)
    returns (r: map<string, seq<Rule<T>>>, taken: bool)
    ensures taken <==> HasPrefix(RulesAt(m, key), rule.prefix)
    ensures !taken ==> r == m[key := RulesAt(m, key) + [rule]]
    ensures taken ==> r == m
  {
    r := if key in m then m else m[key := []];
    var i := Position(r[key], WithRulePrefix(rule.prefix));
    taken := i < |r[key]|;
    if !taken {
      r := r[key := r[key] + [rule]];
    }
  }

  /** One side of a rule section after a `retain` that must remove something. */
  method DropRule<T(!new)>(m: map<string, seq<Rule<T>>>, key: string, prefix: string)
    returns (r: map<string, seq<Rule<T>>>, found: bool)
    ensures found <==> HasPrefix(RulesAt(m, key), prefix)
    ensures r == if found then PutRules(m, key, WithoutPrefix(RulesAt(m, key), prefix)) else m
  {
    if key !in m {
      return m, false;
    }
    WithoutPrefixFacts(m[key], prefix);
    var before := |m[key]|;
    var rules := Retain(m[key], Not(WithRulePrefix(prefix)));
    r := m[key := rules];
    if |r[key]| == before {
      return r, false;
    }
    if r[key] == [] {
      r := r - {key};
    }
    found := true;
  }

  /** The entries of a parked-side map that are not under `root`. */
  method RetainOutside<V>(m: map<string, V>, root: string) returns (r: map<string, V>)
    ensures r == DropUnder(m, root)
  {
    r := RetainEntries(m, (docroot: string, v: V) => !IsUnderRoot(docroot, root));
  }

  /** Take `from`'s entry out of one map and, when `keep`, put it under `to` in the other. */
  method MoveEntry<T>(source: map<string, T>, from: string, sink: map<string, T>, to: string, keep: bool)
    returns (source': map<string, T>, sink': map<string, T>)
    ensures source' == MovedOut(source, from)
    ensures sink' == if keep then MovedIn(source, from, sink, to) else sink
  {
    source', sink' := source, sink;
    if from in source {
      var entry := source[from];
      source' := source' - {from};
      if keep {
        sink' := sink'[to := entry];
      }
    }
  }

  class ConfigFile {
    var tld: string
    var settings: Settings
    var parkedPaths: set<string>
    var linked: seq<Site>
    var projects: seq<Project>
    var overrides: map<string, Override>
    var groups: GroupsSection
    var domains: DomainsSection
    var proxies: seq<Proxy>
    var proxyRules: RulesSection<Target>
    var routeRules: RulesSection<string>

    constructor (c: Cfg)
      ensures View() == c
    {
      tld, settings, parkedPaths, linked, projects := c.tld, c.settings, c.parkedPaths, c.linked, c.projects;
      overrides, groups, domains, proxies := c.overrides, c.groups, c.domains, c.proxies;
      proxyRules, routeRules := c.proxyRules, c.routeRules;
    }

    function View(): Cfg
      reads this
    {
      Cfg(tld, settings, parkedPaths, linked, projects, overrides, groups, domains, proxies, proxyRules, routeRules)
    }

    // ---- Parking and linking ----

    method Park(path: Option<string>) returns (error: Option<MutateError>)
      modifies this`parkedPaths
      ensures Outcome(View(), error) == DoPark(old(View()), path)
    {
      if path.None? {
        return Some(Invalid);
      }
      parkedPaths := parkedPaths + {path.value};
      error := None;
    }

    method Unpark(root: string) returns (error: Option<MutateError>)
      modifies this`parkedPaths, this`domains, this`proxyRules, this`routeRules
      ensures Outcome(View(), error) == DoUnpark(old(View()), root)
    {
      parkedPaths := parkedPaths - {root};
      var parkedDomains := RetainOutside(domains.parked, root);
      domains := domains.(parked := parkedDomains);
      var parkedProxyRules := RetainOutside(proxyRules.parked, root);
      proxyRules := proxyRules.(parked := parkedProxyRules);
      var parkedRouteRules := RetainOutside(routeRules.parked, root);
      routeRules := routeRules.(parked := parkedRouteRules);
      error := None;
    }

    method Link(raw: string, path: Option<string>) returns (error: Option<MutateError>)
      modifies this`linked, this`domains, this`proxyRules, this`routeRules
      ensures Outcome(View(), error) == DoLink(old(View()), raw, path)
    {
      if path.None? || SiteNameOf(raw).None? {
        return Some(Invalid);
      }
      var name, root := SiteNameOf(raw).value, path.value;
      var i := Position(linked, SiteNamed(name));
      if i < |linked| {
        return Some(AlreadyExists);
      }
      var parkedDomains, linkedDomains := MoveEntry(domains.parked, root, domains.linked, name, true);
      domains := domains.(parked := parkedDomains, linked := linkedDomains);
      var parkedProxyRules, linkedProxyRules := MoveEntry(proxyRules.parked, root, proxyRules.linked, name, true);
      proxyRules := proxyRules.(parked := parkedProxyRules, linked := linkedProxyRules);
      var parkedRouteRules, linkedRouteRules := MoveEntry(routeRules.parked, root, routeRules.linked, name, true);
      routeRules := routeRules.(parked := parkedRouteRules, linked := linkedRouteRules);
      linked := linked + [Site(name, root, Linked, false, None)];
      error := None;
    }

    /** Forget the project of that name, with its delta. */
    method UnlinkProject(name: string) returns (found: bool)
      modifies this`projects, this`domains
      ensures found == IsProject(old(View()), name)
      ensures projects == if found then WithoutProject(old(projects), name) else old(projects)
      ensures domains == if found then old(domains).(proxy := old(domains).proxy - {name}) else old(domains)
    {
      var i := Position(projects, ProjectNamed(name));
      found := i < |projects|;
      if found {
        projects := Retain(projects, Not(ProjectNamed(name)));
        domains := domains.(proxy := domains.proxy - {name});
      }
    }

    /** Forget the linked site, returning its records to the document root when it reparks. */
    method UnlinkSite(name: string, root: string, reparks: bool)
      modifies this`linked, this`domains, this`proxyRules, this`routeRules
      ensures View() == Unlinking(old(View()), name, root, reparks)
    {
      linked := Retain(linked, Not(SiteNamed(name)));
      var linkedDomains, parkedDomains := MoveEntry(domains.linked, name, domains.parked, root, reparks);
      domains := domains.(parked := parkedDomains, linked := linkedDomains);
      var linkedProxyRules, parkedProxyRules := MoveEntry(proxyRules.linked, name, proxyRules.parked, root, reparks);
      proxyRules := proxyRules.(parked := parkedProxyRules, linked := linkedProxyRules);
      var linkedRouteRules, parkedRouteRules := MoveEntry(routeRules.linked, name, routeRules.parked, root, reparks);
      routeRules := routeRules.(parked := parkedRouteRules, linked := linkedRouteRules);
    }

    method Unlink(raw: string) returns (error: Option<MutateError>)
      modifies this`linked, this`projects, this`domains, this`proxyRules, this`routeRules
      ensures Outcome(View(), error) == DoUnlink(old(View()), raw)
    {
      var name := ToAsciiLower(raw);
      var found := UnlinkProject(name);
      if found { return None; }
      var i := Position(linked, SiteNamed(name));
      if i == |linked| { return Some(NotFound); }
      assert FirstLinked(linked, name) == Some(linked[i]);
      UnlinkSite(name, linked[i].root, ParentIsParkedRoot(View(), linked[i].root));
      error := None;
    }

    // ---- Site flags ----

    /** `overrides.entry(root).or_default()`. */
    method TouchOverride(root: string) returns (o: Override)
      modifies this`overrides
      ensures o == OverrideOf(old(View()), root) && overrides == old(overrides)[root := o]
    {
      if root !in overrides {
        overrides := overrides[root := NO_OVERRIDE];
      }
      o := overrides[root];
    }

    /** Set the flags given on the first linked site of the name. */
    method FlagLinked(name: string, secure: Option<bool>, fc: Option<bool>) returns (found: bool)
      modifies this`linked
      ensures found == IsLinked(old(View()), name)
      ensures linked == if found then SetFirstSite(old(linked), name, secure, fc) else old(linked)
    {
      var i := Position(linked, SiteNamed(name));
      found := i < |linked|;
      if found {
        var site := linked[i];
        if secure.Some? { site := site.(secure := secure.value); }
        if fc.Some? { site := site.(frontController := fc); }
        linked := linked[i := site];
      }
    }

    method SecureProxy(name: string, secure: bool) returns (found: bool)
      modifies this`proxies
      ensures found == IsProxy(old(View()), name)
      ensures proxies == if found then SetFirstProxy(old(proxies), name, secure) else old(proxies)
    {
      var i := Position(proxies, ProxyNamed(name));
      found := i < |proxies|;
      if found {
        proxies := proxies[i := proxies[i].(secure := secure)];
      }
    }

    method SecureProject(name: string, secure: bool) returns (found: bool)
      modifies this`projects
      ensures found == IsProject(old(View()), name)
      ensures projects == if found then SetFirstProject(old(projects), name, secure) else old(projects)
    {
      var i := Position(projects, ProjectNamed(name));
      found := i < |projects|;
      if found {
        projects := projects[i := projects[i].(secure := secure)];
      }
    }

    method SetSecure(r: Routes, raw: string, secure: bool) returns (error: Option<MutateError>)
      modifies this`linked, this`overrides, this`proxies, this`projects
      ensures Outcome(View(), error) == DoSetSecure(old(View()), r, raw, secure)
    {
      var name := ToAsciiLower(raw);
      var found := FlagLinked(name, Some(secure), None);
      if found { return None; }
      if name in r.sites {
        var root := r.sites[name].root;
        var o := TouchOverride(root);
        overrides := overrides[root := o.(secure := Some(secure))];
        return None;
      }
      found := SecureProxy(name, secure);
      if found { return None; }
      found := SecureProject(name, secure);
      error := if found then None else Some(NotFound);
    }

    method SetFrontController(r: Routes, raw: string, enabled: bool) returns (error: Option<MutateError>)
      modifies this`linked, this`overrides
      ensures Outcome(View(), error) == DoSetFrontController(old(View()), r, raw, enabled)
    {
      var name := ToAsciiLower(raw);
      var found := FlagLinked(name, None, Some(enabled));
      if found { return None; }
      if name !in r.sites { return Some(NotFound); }
      var root := r.sites[name].root;
      var o := TouchOverride(root);
      overrides := overrides[root := o.(frontController := Some(enabled))];
      error := None;
    }

    // ---- Domains ----

    /** `delta_mut`: the entry exists afterwards and its value is returned. */
    method TouchEntry(t: DomainTarget) returns (d: Delta)
      modifies this`domains
      ensures domains == TouchDelta(old(domains), t) && d == GetDelta(old(domains), t)
    {
      match t {
        case LinkedTarget(k) =>
          if k !in domains.linked { domains := domains.(linked := domains.linked[k := NO_DELTA]); }
          d := domains.linked[k];
        case ParkedTarget(k) =>
          if k !in domains.parked { domains := domains.(parked := domains.parked[k := NO_DELTA]); }
          d := domains.parked[k];
        case ProxyTarget(k) =>
          if k !in domains.proxy { domains := domains.(proxy := domains.proxy[k := NO_DELTA]); }
          d := domains.proxy[k];
      }
    }

    /** Write a touched entry back and run `prune_delta`. */
    method WriteAndPrune(t: DomainTarget, d: Delta, ghost before: DomainsSection)
      requires domains == TouchDelta(before, t)
      modifies this`domains
      ensures domains == StoreDelta(before, t, d)
    {
      match t {
        case LinkedTarget(k) =>
          domains := domains.(linked := domains.linked[k := d]);
          if domains.linked[k] == NO_DELTA { domains := domains.(linked := domains.linked - {k}); }
          assert domains.linked == PutOrPrune(before.linked, k, d);
        case ParkedTarget(k) =>
          domains := domains.(parked := domains.parked[k := d]);
          if domains.parked[k] == NO_DELTA { domains := domains.(parked := domains.parked - {k}); }
          assert domains.parked == PutOrPrune(before.parked, k, d);
        case ProxyTarget(k) =>
          domains := domains.(proxy := domains.proxy[k := d]);
          if domains.proxy[k] == NO_DELTA { domains := domains.(proxy := domains.proxy - {k}); }
          assert domains.proxy == PutOrPrune(before.proxy, k, d);
      }
    }

    method AddDomain(r: Routes, raw: string, domain: Option<Domain>) returns (error: Option<MutateError>)
      modifies this`domains
      ensures Outcome(View(), error) == DoAddDomain(old(View()), r, raw, domain)
    {
      var name := ToAsciiLower(raw);
      var t := ResolveTarget(View(), r, name);
      if t.None? { return Some(NotFound); }
      if domain.None? { return Some(Invalid); }
      if ClaimedElsewhere(r, name, domain.value) { return Some(AlreadyExists); }
      var apex, dom := Apex(name), domain.value;
      var delta := TouchEntry(t.value);
      if dom == apex {
        var suppressed := Retain(delta.suppressed, OtherThan(apex));
        delta := delta.(suppressed := suppressed);
      } else if dom !in delta.added {
        delta := delta.(added := delta.added + [dom]);
      }
      WriteAndPrune(t.value, delta, old(domains));
      error := None;
    }

    method RemoveDomain(r: Routes, raw: string, domain: Option<Domain>) returns (error: Option<MutateError>)
      modifies this`domains
      ensures Outcome(View(), error) == DoRemoveDomain(old(View()), r, raw, domain)
    {
      var name := ToAsciiLower(raw);
      var t := ResolveTarget(View(), r, name);
      if t.None? { return Some(NotFound); }
      if domain.None? { return Some(Invalid); }
      var apex, dom := Apex(name), domain.value;
      var delta := TouchEntry(t.value);
      var added, suppressed := delta.added, delta.suppressed;
      if dom in added {
        added := Retain(added, OtherThan(dom));
      } else if dom == apex {
        if apex !in suppressed {
          suppressed := suppressed + [apex];
        }
      } else {
        return Some(Invalid);
      }
      if ExactCount(name, Delta(added, suppressed, None)) == 0 {
        return Some(Invalid);
      }
      var primary := if delta.primary == Some(dom) then None else delta.primary;
      assert Delta(added, suppressed, primary) == WithoutDomain(delta, apex, dom);
      WriteAndPrune(t.value, Delta(added, suppressed, primary), old(domains));
      error := None;
    }

    method SetPrimaryDomain(r: Routes, raw: string, domain: Option<Domain>) returns (error: Option<MutateError>)
      modifies this`domains
      ensures Outcome(View(), error) == DoSetPrimary(old(View()), r, raw, domain)
    {
      var name := ToAsciiLower(raw);
      var t := ResolveTarget(View(), r, name);
      if t.None? { return Some(NotFound); }
      if domain.None? || IsWildcard(domain.value) { return Some(Invalid); }
      if ClaimedElsewhere(r, name, domain.value) { return Some(AlreadyExists); }
      var apex, dom := Apex(name), domain.value;
      var delta := TouchEntry(t.value);
      if dom == apex {
        var suppressed := Retain(delta.suppressed, OtherThan(apex));
        delta := delta.(suppressed := suppressed, primary := None);
      } else {
        if dom !in delta.added {
          delta := delta.(added := delta.added + [dom]);
        }
        delta := delta.(primary := Some(dom));
      }
      WriteAndPrune(t.value, delta, old(domains));
      error := None;
    }

    method ResetDomains(r: Routes, raw: string) returns (error: Option<MutateError>)
      modifies this`domains
      ensures Outcome(View(), error) == DoResetDomains(old(View()), r, raw)
    {
      match ResolveTarget(View(), r, ToAsciiLower(raw)) {
        case None => return Some(NotFound);
        case Some(LinkedTarget(k)) => domains := domains.(linked := domains.linked - {k});
        case Some(ParkedTarget(k)) => domains := domains.(parked := domains.parked - {k});
        case Some(ProxyTarget(k)) => domains := domains.(proxy := domains.proxy - {k});
      }
      error := None;
    }

    // ---- Proxies and rules ----

    method AddProxy(r: Routes, name: Option<Name>, target: Option<Target>) returns (error: Option<MutateError>)
      modifies this`proxies
      ensures Outcome(View(), error) == DoAddProxy(old(View()), r, name, target)
    {
      if target.None? || LoopsBack(tld, target.value) || name.None? { return Some(Invalid); }
      var i := Position(proxies, ProxyNamed(name.value));
      if name.value in r.sites || i < |proxies| { return Some(AlreadyExists); }
      if DomainOwner(r, Apex(name.value)).Some? { return Some(AlreadyExists); }
      proxies := proxies + [Proxy(name.value, target.value, false)];
      error := None;
    }

    method RemoveProxy(raw: string) returns (error: Option<MutateError>)
      modifies this`proxies, this`domains
      ensures Outcome(View(), error) == DoRemoveProxy(old(View()), raw)
    {
      var name, before := ToAsciiLower(raw), |proxies|;
      WithoutProxyFacts(proxies, name);
      proxies := Retain(proxies, Not(ProxyNamed(name)));
      if |proxies| == before { return Some(NotFound); }
      domains := domains.(proxy := domains.proxy - {name});
      error := None;
    }

    method AddProxyRule(r: Routes, site: string, rule: Option<Rule<Target>>) returns (error: Option<MutateError>)
      modifies this`proxyRules
      ensures Outcome(View(), error) == DoAddProxyRule(old(View()), r, site, rule)
    {
      var at := SiteRuleKey(r, ToAsciiLower(site));
      if rule.None? || LoopsBack(tld, rule.value.target) { return Some(Invalid); }
      if at.None? { return Some(NotFound); }
      var m, taken := PushRule(RuleSide(proxyRules, at.value.kind), at.value.key, rule.value);
      if taken { return Some(AlreadyExists); }
      proxyRules := WithSide(proxyRules, at.value.kind, m);
      error := None;
    }

    method RemoveProxyRule(r: Routes, site: string, prefix: string) returns (error: Option<MutateError>)
      modifies this`proxyRules
      ensures Outcome(View(), error) == DoRemoveProxyRule(old(View()), r, site, prefix)
    {
      var wanted := ComputePrefix(prefix);
      var at := SiteRuleKey(r, ToAsciiLower(site));
      if at.None? { return Some(NotFound); }
      var m, found := DropRule(RuleSide(proxyRules, at.value.kind), at.value.key, wanted);
      if !found { return Some(NotFound); }
      proxyRules := WithSide(proxyRules, at.value.kind, m);
      error := None;
    }

    method AddRouteRule(r: Routes, site: string, rule: Option<Rule<string>>) returns (error: Option<MutateError>)
      modifies this`routeRules
      ensures Outcome(View(), error) == DoAddRouteRule(old(View()), r, site, rule)
    {
      var at := SiteRuleKey(r, ToAsciiLower(site));
      if rule.None? { return Some(Invalid); }
      if at.None? { return Some(NotFound); }
      var m, taken := PushRule(RuleSide(routeRules, at.value.kind), at.value.key, rule.value);
      if taken { return Some(AlreadyExists); }
      routeRules := WithSide(routeRules, at.value.kind, m);
      error := None;
    }

    method RemoveRouteRule(r: Routes, site: string, prefix: string) returns (error: Option<MutateError>)
      modifies this`routeRules
      ensures Outcome(View(), error) == DoRemoveRouteRule(old(View()), r, site, prefix)
    {
      var wanted := ComputePrefix(prefix);
      var at := SiteRuleKey(r, ToAsciiLower(site));
      if at.None? { return Some(NotFound); }
      var m, found := DropRule(RuleSide(routeRules, at.value.kind), at.value.key, wanted);
      if !found { return Some(NotFound); }
      routeRules := WithSide(routeRules, at.value.kind, m);
      error := None;
    }

    // ---- Groups ----

    method CreateGroup(raw: string) returns (error: Option<MutateError>)
      modifies this`groups
      ensures Outcome(View(), error) == DoCreateGroup(old(View()), raw)
    {
      var name := Trim(raw);
      if name == "" || ReservedName(name) { return Some(Invalid); }
      var i := Position(groups.order, GroupNamed(name));
      if i < |groups.order| { return Some(AlreadyExists); }
      groups := groups.(order := groups.order + [name]);
      error := None;
    }

    method DeleteGroup(name: string) returns (error: Option<MutateError>)
      modifies this`groups
      ensures Outcome(View(), error) == DoDeleteGroup(old(View()), name)
    {
      var order := Retain(groups.order, Not(GroupNamed(name)));
      groups := groups.(order := order);
      var members := RetainEntries(groups.members, (site: string, g: string) => !SameIgnoringCase(g, name));
      groups := groups.(members := members);
      error := None;
    }

    method SetGroupOrder(order: seq<string>) returns (error: Option<MutateError>)
      modifies this`groups
      ensures Outcome(View(), error) == DoSetGroupOrder(old(View()), order)
    {
      var same := IsPermutation(order, groups.order);
      if !same { return Some(Invalid); }
      groups := groups.(order := order);
      error := None;
    }

    method SetSiteGroup(site: string, group: Option<string>) returns (error: Option<MutateError>)
      modifies this`groups
      ensures Outcome(View(), error) == DoSetSiteGroup(old(View()), site, group)
    {
      var key := ToAsciiLower(site);
      if group.None? {
        groups := groups.(members := groups.members - {key});
        return None;
      }
      var i := Position(groups.order, GroupNamed(group.value));
      if i == |groups.order| { return Some(NotFound); }
      groups := groups.(members := groups.members[key := groups.order[i]]);
      error := None;
    }

    method RenameGroup(from: string, to: string) returns (error: Option<MutateError>)
      modifies this`groups
      ensures Outcome(View(), error) == DoRenameGroup(old(View()), from, to)
    {
      var name := Trim(to);
      if name == "" || ReservedName(name) { return Some(Invalid); }
      var i := Position(groups.order, GroupNamed(from));
      if i == |groups.order| { return Some(NotFound); }
      if TakenElsewhere(groups.order, i, name) { return Some(AlreadyExists); }
      groups := groups.(order := groups.order[i := name]);
      var members := RenameValues(groups.members, from, name);
      groups := groups.(members := members);
      error := None;
    }

    // ---- Dispatch ----

    method MutateSites(r: Routes, req: Request) returns (error: Option<MutateError>)
      requires req.Park? || req.Link? || req.Unpark? || req.Unlink? || req.SetSecure? || req.SetFrontController?
      modifies this
      ensures Outcome(View(), error) == Apply(old(View()), r, req)
    {
      match req {
        case Park(path) => error := Park(path);
        case Link(name, path) => error := Link(name, path);
        case Unpark(root) => error := Unpark(root);
        case Unlink(name) => error := Unlink(name);
        case SetSecure(name, secure) => error := SetSecure(r, name, secure);
        case SetFrontController(name, enabled) => error := SetFrontController(r, name, enabled);
      }
    }

    method MutateRouting(r: Routes, req: Request) returns (error: Option<MutateError>)
      requires || req.AddDomain? || req.RemoveDomain? || req.SetPrimaryDomain? || req.ResetDomains?
               || req.AddProxy? || req.RemoveProxy?
               || req.AddProxyRule? || req.RemoveProxyRule? || req.AddRouteRule? || req.RemoveRouteRule?
      modifies this
      ensures Outcome(View(), error) == Apply(old(View()), r, req)
    {
      match req {
        case AddDomain(name, domain) => error := AddDomain(r, name, domain);
        case RemoveDomain(name, domain) => error := RemoveDomain(r, name, domain);
        case SetPrimaryDomain(name, domain) => error := SetPrimaryDomain(r, name, domain);
        case ResetDomains(name) => error := ResetDomains(r, name);
        case AddProxy(name, target) => error := AddProxy(r, name, target);
        case RemoveProxy(name) => error := RemoveProxy(name);
        case AddProxyRule(site, rule) => error := AddProxyRule(r, site, rule);
        case RemoveProxyRule(site, prefix) => error := RemoveProxyRule(r, site, prefix);
        case AddRouteRule(site, rule) => error := AddRouteRule(r, site, rule);
        case RemoveRouteRule(site, prefix) => error := RemoveRouteRule(r, site, prefix);
      }
    }

    method MutateGroups(r: Routes, req: Request) returns (error: Option<MutateError>)
      requires IsGroupRequest(req)
      modifies this`groups
      ensures Outcome(View(), error) == Apply(old(View()), r, req)
    {
      match req {
        case CreateGroup(name) => error := CreateGroup(name);
        case DeleteGroup(name) => error := DeleteGroup(name);
        case SetGroupOrder(order) => error := SetGroupOrder(order);
        case SetSiteGroup(site, group) => error := SetSiteGroup(site, group);
        case RenameGroup(from, to) => error := RenameGroup(from, to);
      }
    }

    /** `apply`: the in-place handlers do exactly what the value-level account says, errors included. */
    method Mutate(r: Routes, req: Request) returns (error: Option<MutateError>)
      modifies this
      ensures Outcome(View(), error) == Apply(old(View()), r, req)
    {
      if IsGroupRequest(req) {
        error := MutateGroups(r, req);
      } else if req.Park? || req.Link? || req.Unpark? || req.Unlink? || req.SetSecure? || req.SetFrontController? {
        error := MutateSites(r, req);
      } else {
        error := MutateRouting(r, req);
      }
    }
  }
}
