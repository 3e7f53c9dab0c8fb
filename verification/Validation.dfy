/** `Config::validate` as the source runs it, check by check (crates/orcker-config/src/parse.rs:885-1283). */
module Validation {
  import opened Text
  import opened Domains
  import opened Config
  import opened SiteDomains

  datatype Fault =
    | FallbackPortPrivileged | FallbackPortsEqual | MailPortZero | InvalidUpdateChannel
    | DuplicateLinkedSite | ParkedPathEmpty | OverridePathEmpty
    | GroupNameEmpty | GroupNameReserved | GroupDuplicate | GroupMemberDangling
    | DomainAddedDuplicate | DomainAddedSuppressedOverlap | DomainPrimaryWildcard
    | ProxyNameCollision | ProxyTargetLoop | RuleUnknownSite | RuleDuplicatePrefix
    | ProjectNameCollision | ProjectPortZero | ProjectPortCollision

  // ---- Seen-sets ----

  function ProjectName(p: Project): string { p.name }

  lemma NamesIff<T>(s: seq<T>, name: T -> string, n: string)
    ensures n in Names(s, name) <==> exists i :: 0 <= i < |s| && name(s[i]) == n
  {
  }

  /** One more element keeps the names distinct exactly when its name has not been seen. */
  lemma DistinctGrow<T>(s: seq<T>, n: nat, name: T -> string)
    requires n < |s| && DistinctNames(s[..n], name)
    ensures DistinctNames(s[..n + 1], name) <==> name(s[n]) !in Names(s[..n], name)
    ensures Names(s[..n + 1], name) == Names(s[..n], name) + {name(s[n])}
    ensures !DistinctNames(s[..n + 1], name) ==> !DistinctNames(s, name)
  {
    assert s[..n + 1] == s[..n] + [s[n]];
    NamesGrow(s[..n], s[n], name);
    NamesIff(s[..n], name, name(s[n]));
    if name(s[n]) in Names(s[..n], name) {
      var i :| 0 <= i < n && name(s[..n][i]) == name(s[n]);
      assert s[..n + 1][i] == s[i] && s[..n + 1][n] == s[n];
    }
  }

  method CheckLinked(c: Cfg) returns (f: Option<Fault>)
    ensures f.None? <==> UniqueLinked(c)
  {
    var seen: set<string> := {};
    for i := 0 to |c.linked|
      invariant seen == Names(c.linked[..i], SiteName) && DistinctNames(c.linked[..i], SiteName)
    {
      DistinctGrow(c.linked, i, SiteName);
      if c.linked[i].name in seen {
        UniqueIff(c);
        return Some(DuplicateLinkedSite);
      }
      seen := seen + {c.linked[i].name};
    }
    assert c.linked[..|c.linked|] == c.linked;
    UniqueIff(c);
    return None;
  }

  lemma UniqueIff(c: Cfg)
    ensures UniqueLinked(c) <==> DistinctNames(c.linked, SiteName)
  {
    assert forall i :: 0 <= i < |c.linked| ==> SiteName(c.linked[i]) == c.linked[i].name;
  }

  method CheckPorts(s: Settings) returns (f: Option<Fault>)
    ensures f.None? && s.updateChannel in {"stable", "edge"} <==> ValidSettings(s)
  {
    if s.fallbackHttp < FIRST_UNPRIVILEGED_PORT || s.fallbackHttps < FIRST_UNPRIVILEGED_PORT {
      return Some(FallbackPortPrivileged);
    }
    if s.fallbackHttp == s.fallbackHttps {
      return Some(FallbackPortsEqual);
    }
    if s.mailPort == 0 {
      return Some(MailPortZero);
    }
    return None;
  }

  method CheckPaths(c: Cfg) returns (f: Option<Fault>)
    ensures f.None? <==> "" !in c.parkedPaths && "" !in c.overrides
  {
    var paths := c.parkedPaths;
    while paths != {}
      invariant paths <= c.parkedPaths && forall p :: p in c.parkedPaths && p !in paths ==> p != ""
      decreases paths
    {
      var p :| p in paths;
      if p == "" {
        return Some(ParkedPathEmpty);
      }
      paths := paths - {p};
    }
    var keys := c.overrides.Keys;
    while keys != {}
      invariant keys <= c.overrides.Keys && forall k :: k in c.overrides && k !in keys ==> k != ""
      decreases keys
    {
      var k :| k in keys;
      if k == "" {
        return Some(OverridePathEmpty);
      }
      keys := keys - {k};
    }
    return None;
  }

  // ---- Groups ----

  lemma LowersIff(order: seq<string>, n: nat, g: string)
    requires n <= |order|
    ensures ToAsciiLower(g) in Names(order[..n], ToAsciiLower) <==>
              exists i :: 0 <= i < n && SameIgnoringCase(order[i], g)
  {
    NamesIff(order[..n], ToAsciiLower, ToAsciiLower(g));
    assert forall i :: 0 <= i < n ==> order[..n][i] == order[i];
    if i :| 0 <= i < n && SameIgnoringCase(order[i], g) { assert ToAsciiLower(order[..n][i]) == ToAsciiLower(g); }
  }

  method CheckGroupNames(order: seq<string>) returns (f: Option<Fault>, seen: set<string>)
    ensures f.None? <==>
              && (forall i :: 0 <= i < |order| ==> order[i] != "" && !ReservedName(order[i]))
              && (forall i, j :: 0 <= i < j < |order| ==> !SameIgnoringCase(order[i], order[j]))
    ensures f.None? ==> seen == Names(order, ToAsciiLower)
  {
    seen := {};
    for i := 0 to |order|
      invariant seen == Names(order[..i], ToAsciiLower)
      invariant forall j :: 0 <= j < i ==> order[j] != "" && !ReservedName(order[j])
      invariant forall j, k :: 0 <= j < k < i ==> !SameIgnoringCase(order[j], order[k])
    {
      var name := order[i];
      LowersIff(order, i, name);
      assert order[..i + 1] == order[..i] + [name];
      NamesGrow(order[..i], name, ToAsciiLower);
      if name == "" {
        return Some(GroupNameEmpty), seen;
      }
      if SameIgnoringCase(name, RESERVED_GROUP_NAME) {
        return Some(GroupNameReserved), seen;
      }
      if ToAsciiLower(name) in seen {
        return Some(GroupDuplicate), seen;
      }
      seen := seen + {ToAsciiLower(name)};
    }
    assert order[..|order|] == order;
    f := None;
  }

  method CheckGroups(g: GroupsSection) returns (f: Option<Fault>)
    ensures f.None? <==> ValidGroups(g)
  {
    var seen: set<string>;
    f, seen := CheckGroupNames(g.order);
    if f.Some? {
      return;
    }
    var todo := g.members.Keys;
    assert g.order[..|g.order|] == g.order;
    while todo != {}
      invariant todo <= g.members.Keys
      invariant forall k :: k in g.members && k !in todo ==>
                  exists i :: 0 <= i < |g.order| && SameIgnoringCase(g.order[i], g.members[k])
      decreases todo
    {
      var k :| k in todo;
      LowersIff(g.order, |g.order|, g.members[k]);
      if ToAsciiLower(g.members[k]) !in seen {
        return Some(GroupMemberDangling);
      }
      todo := todo - {k};
    }
    return None;
  }

  // ---- Deltas ----

  method CheckDelta(d: Delta) returns (f: Option<Fault>)
    ensures f.None? <==> ValidDelta(d)
  {
    var seen: set<string> := {};
    for i := 0 to |d.added|
      invariant forall x :: x in seen <==> x in d.added[..i]
      invariant NoDup(d.added[..i])
    {
      assert d.added[..i + 1] == d.added[..i] + [d.added[i]];
      if d.added[i] in seen {
        var j :| 0 <= j < i && d.added[..i][j] == d.added[i];
        assert d.added[j] == d.added[i];
        return Some(DomainAddedDuplicate);
      }
      seen := seen + {d.added[i]};
    }
    assert d.added[..|d.added|] == d.added;
    for i := 0 to |d.suppressed|
      invariant forall j :: 0 <= j < i ==> d.suppressed[j] !in d.added
    {
      if d.suppressed[i] in seen {
        assert d.suppressed[i] in d.suppressed;
        return Some(DomainAddedSuppressedOverlap);
      }
    }
    if d.primary.Some? && IsWildcard(d.primary.value) {
      return Some(DomainPrimaryWildcard);
    }
    return None;
  }

  method CheckDeltas(m: map<string, Delta>) returns (f: Option<Fault>)
    ensures f.None? <==> forall k :: k in m ==> ValidDelta(m[k])
  {
    var todo := m.Keys;
    while todo != {}
      invariant todo <= m.Keys && forall k :: k in m && k !in todo ==> ValidDelta(m[k])
      decreases todo
    {
      var k :| k in todo;
      f := CheckDelta(m[k]);
      if f.Some? {
        return;
      }
      todo := todo - {k};
    }
    return None;
  }

  // ---- Rules ----

  method CheckPrefixes<T>(rules: seq<Rule<T>>, bad: T -> bool) returns (f: Option<Fault>)
    ensures f.None? <==> DistinctPrefixes(rules) && forall i :: 0 <= i < |rules| ==> !bad(rules[i].target)
  {
    var seen: set<string> := {};
    for i := 0 to |rules|
      invariant forall n :: n in seen <==> exists j :: 0 <= j < i && rules[j].prefix == n
      invariant forall j, k :: 0 <= j < k < i ==> rules[j].prefix != rules[k].prefix
      invariant forall j :: 0 <= j < i ==> !bad(rules[j].target)
    {
      if rules[i].prefix in seen {
        return Some(RuleDuplicatePrefix);
      }
      seen := seen + {rules[i].prefix};
      if bad(rules[i].target) {
        return Some(ProxyTargetLoop);
      }
    }
    return None;
  }

  /** What holds of one side of a rule section whose keys must be among `known`, if that is given. */
  ghost predicate GoodRules<T(!new)>(m: map<string, seq<Rule<T>>>, known: Option<set<string>>, bad: T -> bool) {
    && (known.Some? ==> forall k :: k in m ==> k in known.value)
    && (forall k :: k in m ==> DistinctPrefixes(m[k]))
    && (forall k, i :: k in m && 0 <= i < |m[k]| ==> !bad(m[k][i].target))
  }

  method CheckRules<T(!new)>(m: map<string, seq<Rule<T>>>, known: Option<set<string>>, bad: T -> bool)
    returns (f: Option<Fault>)
    ensures f.None? <==> GoodRules(m, known, bad)
  {
    var todo := m.Keys;
    while todo != {}
      invariant todo <= m.Keys
      invariant known.Some? ==> forall k :: k in m && k !in todo ==> k in known.value
      invariant forall k :: k in m && k !in todo ==> DistinctPrefixes(m[k])
      invariant forall k, i :: k in m && k !in todo && 0 <= i < |m[k]| ==> !bad(m[k][i].target)
      decreases todo
    {
      var k :| k in todo;
      if known.Some? && k !in known.value {
        return Some(RuleUnknownSite);
      }
      f := CheckPrefixes(m[k], bad);
      if f.Some? {
        return;
      }
      todo := todo - {k};
    }
    return None;
  }

  // ---- Names in use ----

  method CollectLinked(c: Cfg) returns (names: set<string>)
    ensures forall n :: n in names <==> IsLinked(c, n)
  {
    names := {};
    for i := 0 to |c.linked|
      invariant forall n :: n in names <==> exists j :: 0 <= j < i && c.linked[j].name == n
    {
      names := names + {c.linked[i].name};
    }
  }

  method CollectProxies(c: Cfg) returns (names: set<string>)
    ensures forall n :: n in names <==> IsProxy(c, n)
  {
    names := {};
    for i := 0 to |c.proxies|
      invariant forall n :: n in names <==> exists j :: 0 <= j < i && c.proxies[j].name == n
    {
      names := names + {c.proxies[i].name};
    }
  }

  ghost predicate GoodProxies(c: Cfg) {
    && (forall i :: 0 <= i < |c.proxies| ==> !IsLinked(c, c.proxies[i].name) && !LoopsBack(c.tld, c.proxies[i].target))
    && (forall i, j :: 0 <= i < j < |c.proxies| ==> c.proxies[i].name != c.proxies[j].name)
  }

  method CheckProxyList(c: Cfg, linked: set<string>) returns (f: Option<Fault>)
    requires forall n :: n in linked <==> IsLinked(c, n)
    ensures f.None? <==> GoodProxies(c)
  {
    var seen: set<string> := {};
    for i := 0 to |c.proxies|
      invariant forall n :: n in seen <==> exists j :: 0 <= j < i && c.proxies[j].name == n
      invariant forall j :: 0 <= j < i ==> !IsLinked(c, c.proxies[j].name) && !LoopsBack(c.tld, c.proxies[j].target)
      invariant forall j, k :: 0 <= j < k < i ==> c.proxies[j].name != c.proxies[k].name
    {
      var p := c.proxies[i];
      if p.name in linked || p.name in seen {
        return Some(ProxyNameCollision);
      }
      seen := seen + {p.name};
      if LoopsBack(c.tld, p.target) {
        return Some(ProxyTargetLoop);
      }
    }
    return None;
  }

  /** `validate_proxies`. */
  method CheckProxies(c: Cfg) returns (f: Option<Fault>)
    ensures f.None? <==> ValidProxies(c)
  {
    var linked := CollectLinked(c);
    var loops := (t: Target) => LoopsBack(c.tld, t);
    f := CheckProxyList(c, linked);
    if f.Some? {
      return;
    }
    f := CheckRules(c.proxyRules.linked, Some(linked), loops);
    if f.Some? {
      assert !GoodRules(c.proxyRules.linked, Some(linked), loops);
      return;
    }
    f := CheckRules(c.proxyRules.parked, None, loops);
  }

  /** `validate_projects`. */
  method CheckProjects(c: Cfg) returns (f: Option<Fault>)
    ensures f.None? <==> ValidProjects(c)
  {
    var linked := CollectLinked(c);
    var proxied := CollectProxies(c);
    var taken := linked + proxied;
    var names: set<string> := {};
    var ports: set<nat> := {};
    for i := 0 to |c.projects|
      invariant forall n :: n in names <==> exists j :: 0 <= j < i && c.projects[j].name == n
      invariant forall p :: p in ports <==> exists j :: 0 <= j < i && c.projects[j].port == p
      invariant forall j :: 0 <= j < i ==>
                  !IsLinked(c, c.projects[j].name) && !IsProxy(c, c.projects[j].name) && c.projects[j].port != 0
      invariant forall j, k :: 0 <= j < k < i ==>
                  c.projects[j].name != c.projects[k].name && c.projects[j].port != c.projects[k].port
    {
      var p := c.projects[i];
      if p.name in taken || p.name in names {
        return Some(ProjectNameCollision);
      }
      names := names + {p.name};
      if p.port == 0 {
        return Some(ProjectPortZero);
      }
      if p.port in ports {
        return Some(ProjectPortCollision);
      }
      ports := ports + {p.port};
    }
    return None;
  }

  /** `validate_route_rules`. */
  method CheckRouteRules(c: Cfg) returns (f: Option<Fault>)
    ensures f.None? <==> ValidRules(c, c.routeRules)
  {
    var linked := CollectLinked(c);
    var never := (t: string) => false;
    f := CheckRules(c.routeRules.linked, Some(linked), never);
    if f.Some? {
      assert !GoodRules(c.routeRules.linked, Some(linked), never);
      return;
    }
    f := CheckRules(c.routeRules.parked, None, never);
  }

  method CheckDomains(s: DomainsSection) returns (f: Option<Fault>)
    ensures f.None? <==> ValidDomains(s)
  {
    f := CheckDeltas(s.linked);
    if f.None? {
      f := CheckDeltas(s.parked);
    }
    if f.None? {
      f := CheckDeltas(s.proxy);
    }
  }

  /** `validate`: the checks in the order of the source. */
  method Check(c: Cfg) returns (f: Option<Fault>)
    ensures f.None? <==> Validate(c)
  {
    f := CheckPorts(c.settings);
    if f.None? { f := CheckLinked(c); }
    if f.None? { f := CheckPaths(c); }
    if f.None? && c.settings.updateChannel !in {"stable", "edge"} { f := Some(InvalidUpdateChannel); }
    if f.None? { f := CheckGroups(c.groups); }
    if f.None? { f := CheckDomains(c.domains); }
    if f.None? { f := CheckProxies(c); }
    if f.None? { f := CheckProjects(c); }
    if f.None? { f := CheckRouteRules(c); }
  }

  /** In a valid configuration no two of its sites, proxies and projects share a name. */
  lemma ValidNamesAreDistinct(c: Cfg)
    requires Validate(c)
    ensures DistinctNames(c.linked, SiteName) && DistinctNames(c.proxies, ProxyName)
    ensures DistinctNames(c.projects, ProjectName)
    ensures forall i, j :: 0 <= i < |c.linked| && 0 <= j < |c.proxies| ==> c.linked[i].name != c.proxies[j].name
    ensures forall i, j :: 0 <= i < |c.linked| && 0 <= j < |c.projects| ==> c.linked[i].name != c.projects[j].name
    ensures forall i, j :: 0 <= i < |c.proxies| && 0 <= j < |c.projects| ==> c.proxies[i].name != c.projects[j].name
  {
    assert forall j :: 0 <= j < |c.proxies| ==> !IsLinked(c, c.proxies[j].name);
    assert forall j :: 0 <= j < |c.projects| ==> !IsLinked(c, c.projects[j].name) && !IsProxy(c, c.projects[j].name);
  }
}
