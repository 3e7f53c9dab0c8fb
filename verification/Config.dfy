/** The persisted configuration as a value, and the cross-field rules it must pass before a commit
    (crates/orcker-config/src/schema.rs, crates/orcker-config/src/parse.rs). */
module Config {
  import opened Text
  import opened Domains

  datatype SiteKind = Linked | Parked
  datatype Site = Site(name: Name, root: string, kind: SiteKind, secure: bool, frontController: Option<bool>)

  datatype Target = Target(host: string, port: nat)
  datatype Proxy = Proxy(name: Name, target: Target, secure: bool)
  datatype Project = Project(name: Name, root: string, port: nat, secure: bool)

  datatype Override = Override(secure: Option<bool>, frontController: Option<bool>)
  const NO_OVERRIDE := Override(None, None)

  /** A claimant's stored difference from its default, apex-only domain set. */
  datatype Delta = Delta(added: seq<Domain>, suppressed: seq<Domain>, primary: Option<Domain>)
  const NO_DELTA := Delta([], [], None)

  datatype DomainsSection = DomainsSection(
    linked: map<string, Delta>,
    parked: map<string, Delta>,
    proxy: map<string, Delta>)

  /** Path-prefix rules; `proxy_rules` aims at upstreams, `route_rules` at files. */
  datatype Rule<+T> = Rule(prefix: string, target: T)
  datatype RulesSection<+T> = RulesSection(
    linked: map<string, seq<Rule<T>>>,
    parked: map<string, seq<Rule<T>>>)

  datatype GroupsSection = GroupsSection(order: seq<string>, members: map<string, string>)

  /** The settings the plain setters write. None of them is read when a router is built. */
  datatype Settings = Settings(
    lanEnabled: bool,
    mcpEnabled: bool,
    symlinkProtection: bool,
    mailEnabled: bool,
    mailPort: nat,
    dnsPort: nat,
    fallbackHttp: nat,
    fallbackHttps: nat,
    updateChannel: string)

  datatype Cfg = Cfg(
    tld: string,
    settings: Settings,
    parkedPaths: set<string>,
    linked: seq<Site>,
    projects: seq<Project>,
    overrides: map<string, Override>,
    groups: GroupsSection,
    domains: DomainsSection,
    proxies: seq<Proxy>,
    proxyRules: RulesSection<Target>,
    routeRules: RulesSection<string>)

  const RESERVED_GROUP_NAME := "Unallocated"
  const FIRST_UNPRIVILEGED_PORT: nat := 1024

  // ---- Names in use ----

  predicate IsLinked(c: Cfg, name: string) {
    exists i :: 0 <= i < |c.linked| && c.linked[i].name == name
  }

  predicate IsProxy(c: Cfg, name: string) {
    exists i :: 0 <= i < |c.proxies| && c.proxies[i].name == name
  }

  predicate IsProject(c: Cfg, name: string) {
    exists i :: 0 <= i < |c.projects| && c.projects[i].name == name
  }

  // ---- Config::validate ----

  ghost predicate UniqueLinked(c: Cfg) {
    forall i, j :: 0 <= i < j < |c.linked| ==> c.linked[i].name != c.linked[j].name
  }

  predicate ReservedName(g: string) {
    SameIgnoringCase(g, RESERVED_GROUP_NAME)
  }

  ghost predicate ValidGroups(g: GroupsSection) {
    && (forall i :: 0 <= i < |g.order| ==> g.order[i] != "" && !ReservedName(g.order[i]))
    && (forall i, j :: 0 <= i < j < |g.order| ==> !SameIgnoringCase(g.order[i], g.order[j]))
    && (forall k :: k in g.members ==> exists i :: 0 <= i < |g.order| && SameIgnoringCase(g.order[i], g.members[k]))
  }

  ghost predicate ValidDelta(d: Delta) {
    && NoDup(d.added)
    && (forall x :: x in d.suppressed ==> x !in d.added)
    && (d.primary.Some? ==> !IsWildcard(d.primary.value))
  }

  ghost predicate ValidDomains(s: DomainsSection) {
    && (forall k :: k in s.linked ==> ValidDelta(s.linked[k]))
    && (forall k :: k in s.parked ==> ValidDelta(s.parked[k]))
    && (forall k :: k in s.proxy ==> ValidDelta(s.proxy[k]))
  }

  /** A proxy target that would send a request back into the daemon. */
  predicate LoopsBack(tld: string, t: Target) {
    t.host == tld || (|t.host| > |tld| && t.host[|t.host| - |tld| - 1..] == "." + tld)
  }

  ghost predicate DistinctPrefixes<T>(rules: seq<Rule<T>>) {
    forall i, j :: 0 <= i < j < |rules| ==> rules[i].prefix != rules[j].prefix
  }

  ghost predicate ValidRules<T>(c: Cfg, s: RulesSection<T>) {
    && (forall k :: k in s.linked ==> IsLinked(c, k) && DistinctPrefixes(s.linked[k]))
    && (forall k :: k in s.parked ==> DistinctPrefixes(s.parked[k]))
  }

  ghost predicate NoLoopingRules(c: Cfg) {
    && (forall k, i :: k in c.proxyRules.linked && 0 <= i < |c.proxyRules.linked[k]| ==>
          !LoopsBack(c.tld, c.proxyRules.linked[k][i].target))
    && (forall k, i :: k in c.proxyRules.parked && 0 <= i < |c.proxyRules.parked[k]| ==>
          !LoopsBack(c.tld, c.proxyRules.parked[k][i].target))
  }

  ghost predicate ValidProxies(c: Cfg) {
    && (forall i :: 0 <= i < |c.proxies| ==> !IsLinked(c, c.proxies[i].name) && !LoopsBack(c.tld, c.proxies[i].target))
    && (forall i, j :: 0 <= i < j < |c.proxies| ==> c.proxies[i].name != c.proxies[j].name)
    && ValidRules(c, c.proxyRules)
    && NoLoopingRules(c)
  }

  ghost predicate ValidProjects(c: Cfg) {
    && (forall i :: 0 <= i < |c.projects| ==>
          !IsLinked(c, c.projects[i].name) && !IsProxy(c, c.projects[i].name) && c.projects[i].port != 0)
    && (forall i, j :: 0 <= i < j < |c.projects| ==>
          c.projects[i].name != c.projects[j].name && c.projects[i].port != c.projects[j].port)
  }

  predicate ValidSettings(s: Settings) {
    && s.fallbackHttp >= FIRST_UNPRIVILEGED_PORT
    && s.fallbackHttps >= FIRST_UNPRIVILEGED_PORT
    && s.fallbackHttp != s.fallbackHttps
    && s.mailPort != 0
    && s.updateChannel in {"stable", "edge"}
  }

  ghost predicate Validate(c: Cfg) {
    && ValidSettings(c.settings)
    && UniqueLinked(c)
    && "" !in c.parkedPaths && "" !in c.overrides
    && ValidGroups(c.groups)
    && ValidDomains(c.domains)
    && ValidProxies(c)
    && ValidProjects(c)
    && ValidRules(c, c.routeRules)
  }
}
