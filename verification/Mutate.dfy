/** What each mutation request does to a configuration, as a function of values
    (bin/orckerd/src/mutate.rs). `MutateImpl` holds the in-place handlers proved against it. */
module Mutate {
  import opened Text
  import opened Domains
  import opened Config
  import opened Router
  import opened SiteDomains

  datatype MutateError = NotFound | AlreadyExists | Invalid

  /** Paths arrive canonicalised and domains, targets and rules parsed; `None` is a rejected argument. */
  datatype Request =
    | Park(path: Option<string>)
    | Link(name: string, path: Option<string>)
    | Unpark(root: string)
    | Unlink(name: string)
    | SetSecure(name: string, secure: bool)
    | SetFrontController(name: string, enabled: bool)
    | AddDomain(name: string, domain: Option<Domain>)
    | RemoveDomain(name: string, domain: Option<Domain>)
    | SetPrimaryDomain(name: string, domain: Option<Domain>)
    | ResetDomains(name: string)
    | AddProxy(proxyName: Option<Name>, target: Option<Target>)
    | RemoveProxy(name: string)
    | AddProxyRule(site: string, proxyRule: Option<Rule<Target>>)
    | RemoveProxyRule(site: string, prefix: string)
    | AddRouteRule(site: string, routeRule: Option<Rule<string>>)
    | RemoveRouteRule(site: string, prefix: string)
    | CreateGroup(name: string)
    | DeleteGroup(name: string)
    | SetGroupOrder(order: seq<string>)
    | SetSiteGroup(site: string, group: Option<string>)
    | RenameGroup(from: string, to: string)

  /** The argument as the handler leaves it, and the error it returned, if any. */
  datatype Outcome = Outcome(cfg: Cfg, error: Option<MutateError>)

  function Done(c: Cfg): Outcome { Outcome(c, None) }
  function Refused(c: Cfg, e: MutateError): Outcome { Outcome(c, Some(e)) }

  // ---- What the handlers look for and keep ----

  function OtherThan<T(==)>(x: T): T -> bool { (y: T) => y != x }

  function SiteNamed(name: string): Site -> bool { (s: Site) => s.name == name }
  function ProxyNamed(name: string): Proxy -> bool { (p: Proxy) => p.name == name }
  function ProjectNamed(name: string): Project -> bool { (p: Project) => p.name == name }
  function GroupNamed(name: string): string -> bool { (g: string) => SameIgnoringCase(g, name) }
  function WithRulePrefix<T>(prefix: string): Rule<T> -> bool { (r: Rule<T>) => r.prefix == prefix }

  function Not<T>(p: T -> bool): T -> bool { (x: T) => !p(x) }

  function Without<T(==)>(s: seq<T>, x: T): seq<T> { Filter(s, OtherThan(x)) }

  // ---- Names and paths ----

  /** `Site::linked`'s name check: one DNS label, lower-cased. */
  function SiteNameOf(raw: string): (r: Option<Name>)
    ensures r.Some? ==> r.value == ToAsciiLower(raw)
  {
    var n := ToAsciiLower(raw);
    if && n != "" && '.' !in n && (forall i :: 0 <= i < |n| ==> NameChar(n[i]))
       && n[0] != '-' && n[|n| - 1] != '-' && |n| <= 63
    then Some(n) else None
  }

  function LastSlash(p: string): int
    ensures -1 <= LastSlash(p) < |p|
    ensures LastSlash(p) >= 0 ==> p[LastSlash(p)] == '/'
  {
    if p == "" then -1 else if p[|p| - 1] == '/' then |p| - 1 else LastSlash(p[..|p| - 1])
  }

  /** The parent of a canonical path; the root has none. */
  function Parent(p: string): Option<string> {
    var k := LastSlash(p);
    if k < 0 || p == "/" then None else if k == 0 then Some("/") else Some(p[..k])
  }

  predicate ParentIsParkedRoot(c: Cfg, root: string) {
    Parent(root).Some? && Parent(root).value in c.parkedPaths
  }

  predicate IsUnderRoot(docroot: string, root: string) {
    docroot == root || (root <= docroot && |docroot| > |root| && docroot[|root|] == '/')
  }

  // ---- Parking and linking ----

  function DoPark(c: Cfg, path: Option<string>): Outcome {
    if path.None? then Refused(c, Invalid) else Done(c.(parkedPaths := c.parkedPaths + {path.value}))
  }

  function DropUnder<T>(m: map<string, T>, root: string): map<string, T> {
    map k | k in m && !IsUnderRoot(k, root) :: m[k]
  }

  function DoUnpark(c: Cfg, root: string): Outcome {
    Done(c.(parkedPaths := c.parkedPaths - {root},
            domains := c.domains.(parked := DropUnder(c.domains.parked, root)),
            proxyRules := c.proxyRules.(parked := DropUnder(c.proxyRules.parked, root)),
            routeRules := c.routeRules.(parked := DropUnder(c.routeRules.parked, root))))
  }

  /** Move `from`'s entry in one map to `to` in another, if there is one. */
  function MovedOut<T>(m: map<string, T>, from: string): map<string, T> { m - {from} }
  function MovedIn<T>(source: map<string, T>, from: string, m: map<string, T>, to: string): map<string, T> {
    if from in source then m[to := source[from]] else m
  }

  function Linking(c: Cfg, name: Name, root: string): Cfg {
    c.(domains := c.domains.(
         parked := MovedOut(c.domains.parked, root),
         linked := MovedIn(c.domains.parked, root, c.domains.linked, name)),
       proxyRules := RulesSection(
         MovedIn(c.proxyRules.parked, root, c.proxyRules.linked, name),
         MovedOut(c.proxyRules.parked, root)),
       routeRules := RulesSection(
         MovedIn(c.routeRules.parked, root, c.routeRules.linked, name),
         MovedOut(c.routeRules.parked, root)),
       linked := c.linked + [Site(name, root, Linked, false, None)])
  }

  function DoLink(c: Cfg, raw: string, path: Option<string>): Outcome {
    if path.None? || SiteNameOf(raw).None? then Refused(c, Invalid)
    else if IsLinked(c, SiteNameOf(raw).value) then Refused(c, AlreadyExists)
    else Done(Linking(c, SiteNameOf(raw).value, path.value))
  }

  function FirstLinked(sites: seq<Site>, name: string): (r: Option<Site>)
    ensures r.Some? <==> exists i :: 0 <= i < |sites| && sites[i].name == name
    ensures r.Some? ==> r.value in sites && r.value.name == name
  {
    var i := FirstIndex(sites, SiteNamed(name));
    if i < |sites| then Some(sites[i]) else None
  }

  function WithoutSite(sites: seq<Site>, name: string): seq<Site> {
    Filter(sites, Not(SiteNamed(name)))
  }

  function WithoutProxy(proxies: seq<Proxy>, name: string): seq<Proxy> {
    Filter(proxies, Not(ProxyNamed(name)))
  }

  function WithoutProject(projects: seq<Project>, name: string): seq<Project> {
    Filter(projects, Not(ProjectNamed(name)))
  }

  /** Forget a linked site; its linked-side records return to the parked side when `reparks`. */
  function Unlinking(c: Cfg, name: string, root: string, reparks: bool): Cfg {
    c.(linked := WithoutSite(c.linked, name),
       domains := c.domains.(
         linked := MovedOut(c.domains.linked, name),
         parked := if reparks then MovedIn(c.domains.linked, name, c.domains.parked, root) else c.domains.parked),
       proxyRules := RulesSection(
         MovedOut(c.proxyRules.linked, name),
         if reparks then MovedIn(c.proxyRules.linked, name, c.proxyRules.parked, root) else c.proxyRules.parked),
       routeRules := RulesSection(
         MovedOut(c.routeRules.linked, name),
         if reparks then MovedIn(c.routeRules.linked, name, c.routeRules.parked, root) else c.routeRules.parked))
  }

  function DoUnlink(c: Cfg, raw: string): Outcome {
    var name := ToAsciiLower(raw);
    if IsProject(c, name) then
      Done(c.(projects := WithoutProject(c.projects, name), domains := c.domains.(proxy := c.domains.proxy - {name})))
    else match FirstLinked(c.linked, name)
      case None => Refused(c, NotFound)
      case Some(site) => Done(Unlinking(c, name, site.root, ParentIsParkedRoot(c, site.root)))
  }

  // ---- Site flags ----

  function Flagged(s: Site, secure: Option<bool>, fc: Option<bool>): Site {
    s.(secure := if secure.Some? then secure.value else s.secure,
       frontController := if fc.Some? then fc else s.frontController)
  }

  function SetFirstSite(sites: seq<Site>, name: string, secure: Option<bool>, fc: Option<bool>): seq<Site> {
    UpdateFirst(sites, SiteNamed(name), (s: Site) => Flagged(s, secure, fc))
  }

  function SetFirstProxy(proxies: seq<Proxy>, name: string, secure: bool): seq<Proxy> {
    UpdateFirst(proxies, ProxyNamed(name), (p: Proxy) => p.(secure := secure))
  }

  function SetFirstProject(projects: seq<Project>, name: string, secure: bool): seq<Project> {
    UpdateFirst(projects, ProjectNamed(name), (p: Project) => p.(secure := secure))
  }

  function OverrideOf(c: Cfg, root: string): Override {
    if root in c.overrides then c.overrides[root] else NO_OVERRIDE
  }

  function DoSetSecure(c: Cfg, r: Routes, raw: string, secure: bool): Outcome {
    var name := ToAsciiLower(raw);
    if IsLinked(c, name) then Done(c.(linked := SetFirstSite(c.linked, name, Some(secure), None)))
    else if name in r.sites then
      var root := r.sites[name].root;
      Done(c.(overrides := c.overrides[root := OverrideOf(c, root).(secure := Some(secure))]))
    else if IsProxy(c, name) then Done(c.(proxies := SetFirstProxy(c.proxies, name, secure)))
    else if IsProject(c, name) then Done(c.(projects := SetFirstProject(c.projects, name, secure)))
    else Refused(c, NotFound)
  }

  function DoSetFrontController(c: Cfg, r: Routes, raw: string, enabled: bool): Outcome {
    var name := ToAsciiLower(raw);
    if IsLinked(c, name) then Done(c.(linked := SetFirstSite(c.linked, name, None, Some(enabled))))
    else if name in r.sites then
      var root := r.sites[name].root;
      Done(c.(overrides := c.overrides[root := OverrideOf(c, root).(frontController := Some(enabled))]))
    else Refused(c, NotFound)
  }

  // ---- Domains ----

  /** Which of the three `[domains]` maps a claimant's delta lives in. */
  datatype DomainTarget = LinkedTarget(key: string) | ParkedTarget(key: string) | ProxyTarget(key: string)

  /** Linked site first, then a routed parked site, then a whole-host proxy. */
  function ResolveTarget(c: Cfg, r: Routes, name: string): Option<DomainTarget> {
    if IsLinked(c, name) then Some(LinkedTarget(name))
    else if name in r.sites then Some(ParkedTarget(r.sites[name].root))
    else if IsProxy(c, name) then Some(ProxyTarget(name))
    else None
  }

  function GetDelta(s: DomainsSection, t: DomainTarget): Delta {
    match t
    case LinkedTarget(k) => StoredDelta(s.linked, k)
    case ParkedTarget(k) => StoredDelta(s.parked, k)
    case ProxyTarget(k) => StoredDelta(s.proxy, k)
  }

  /** An entry that carries no customisation is not stored. */
  function PutOrPrune(m: map<string, Delta>, k: string, d: Delta): map<string, Delta> {
    if d == NO_DELTA then m - {k} else m[k := d]
  }

  function StoreDelta(s: DomainsSection, t: DomainTarget, d: Delta): DomainsSection {
    match t
    case LinkedTarget(k) => s.(linked := PutOrPrune(s.linked, k, d))
    case ParkedTarget(k) => s.(parked := PutOrPrune(s.parked, k, d))
    case ProxyTarget(k) => s.(proxy := PutOrPrune(s.proxy, k, d))
  }

  predicate HasEntry(s: DomainsSection, t: DomainTarget) {
    match t
    case LinkedTarget(k) => k in s.linked
    case ParkedTarget(k) => k in s.parked
    case ProxyTarget(k) => k in s.proxy
  }

  /** What `delta_mut` does on its own: make sure an entry exists. */
  function TouchDelta(s: DomainsSection, t: DomainTarget): DomainsSection {
    match t
    case LinkedTarget(k) => s.(linked := s.linked[k := StoredDelta(s.linked, k)])
    case ParkedTarget(k) => s.(parked := s.parked[k := StoredDelta(s.parked, k)])
    case ProxyTarget(k) => s.(proxy := s.proxy[k := StoredDelta(s.proxy, k)])
  }

  predicate ClaimedElsewhere(r: Routes, name: string, d: Domain) {
    DomainOwner(r, d).Some? && DomainOwner(r, d).value != name
  }

  function ExactIn(ds: seq<Domain>): nat {
    if ds == [] then 0 else ExactIn(ds[..|ds| - 1]) + if IsWildcard(ds[|ds| - 1]) then 0 else 1
  }

  /** Exact domains a delta leaves, before any restoring of the apex. */
  function ExactCount(name: string, d: Delta): nat {
    (if Apex(name) in d.suppressed then 0 else 1) + ExactIn(d.added)
  }

  function WithDomain(d: Delta, apex: Domain, dom: Domain): Delta {
    if dom == apex then d.(suppressed := Without(d.suppressed, apex))
    else if dom in d.added then d
    else d.(added := d.added + [dom])
  }

  function WithPrimary(d: Delta, apex: Domain, dom: Domain): Delta {
    WithDomain(d, apex, dom).(primary := if dom == apex then None else Some(dom))
  }

  function WithoutDomain(d: Delta, apex: Domain, dom: Domain): Delta
    requires dom in d.added || dom == apex
  {
    Delta(
      if dom in d.added then Without(d.added, dom) else d.added,
      if dom in d.added || apex in d.suppressed then d.suppressed else d.suppressed + [apex],
      if d.primary == Some(dom) then None else d.primary)
  }

  function DoAddDomain(c: Cfg, r: Routes, raw: string, domain: Option<Domain>): Outcome {
    var name := ToAsciiLower(raw);
    var t := ResolveTarget(c, r, name);
    if t.None? then Refused(c, NotFound)
    else if domain.None? then Refused(c, Invalid)
    else if ClaimedElsewhere(r, name, domain.value) then Refused(c, AlreadyExists)
    else
      var d := WithDomain(GetDelta(c.domains, t.value), Apex(name), domain.value);
      Done(c.(domains := StoreDelta(c.domains, t.value, d)))
  }

  /** The two late refusals come after the claimant's entry has been touched. */
  function DoRemoveDomain(c: Cfg, r: Routes, raw: string, domain: Option<Domain>): Outcome {
    var name := ToAsciiLower(raw);
    var t := ResolveTarget(c, r, name);
    if t.None? then Refused(c, NotFound)
    else if domain.None? then Refused(c, Invalid)
    else
      var stored := GetDelta(c.domains, t.value);
      var touched := c.(domains := TouchDelta(c.domains, t.value));
      if domain.value !in stored.added && domain.value != Apex(name) then Refused(touched, Invalid)
      else
        var d := WithoutDomain(stored, Apex(name), domain.value);
        if ExactCount(name, d) == 0 then Refused(touched, Invalid)
        else Done(c.(domains := StoreDelta(c.domains, t.value, d)))
  }

  function DoSetPrimary(c: Cfg, r: Routes, raw: string, domain: Option<Domain>): Outcome {
    var name := ToAsciiLower(raw);
    var t := ResolveTarget(c, r, name);
    if t.None? then Refused(c, NotFound)
    else if domain.None? || IsWildcard(domain.value) then Refused(c, Invalid)
    else if ClaimedElsewhere(r, name, domain.value) then Refused(c, AlreadyExists)
    else
      var d := WithPrimary(GetDelta(c.domains, t.value), Apex(name), domain.value);
      Done(c.(domains := StoreDelta(c.domains, t.value, d)))
  }

  function DoResetDomains(c: Cfg, r: Routes, raw: string): Outcome {
    var name := ToAsciiLower(raw);
    match ResolveTarget(c, r, name)
    case None => Refused(c, NotFound)
    case Some(t) => Done(c.(domains := StoreDelta(c.domains, t, NO_DELTA)))
  }

  // ---- Proxies and rules ----

  function DoAddProxy(c: Cfg, r: Routes, name: Option<Name>, target: Option<Target>): Outcome {
    if target.None? || LoopsBack(c.tld, target.value) || name.None? then Refused(c, Invalid)
    else if name.value in r.sites || IsProxy(c, name.value) then Refused(c, AlreadyExists)
    else if DomainOwner(r, Apex(name.value)).Some? then Refused(c, AlreadyExists)
    else Done(c.(proxies := c.proxies + [Proxy(name.value, target.value, false)]))
  }

  function DoRemoveProxy(c: Cfg, raw: string): Outcome {
    var name := ToAsciiLower(raw);
    if !IsProxy(c, name) then Refused(c, NotFound)
    else Done(c.(proxies := WithoutProxy(c.proxies, name), domains := c.domains.(proxy := c.domains.proxy - {name})))
  }

  function RulesAt<T>(m: map<string, seq<Rule<T>>>, k: string): seq<Rule<T>> {
    if k in m then m[k] else []
  }

  predicate HasPrefix<T(!new)>(rules: seq<Rule<T>>, prefix: string) {
    exists i :: 0 <= i < |rules| && rules[i].prefix == prefix
  }

  function WithoutPrefix<T>(rules: seq<Rule<T>>, prefix: string): seq<Rule<T>> {
    Filter(rules, Not(WithRulePrefix(prefix)))
  }

  /** Where a site's rules are stored: linked sites by name, parked ones by document root. */
  datatype RuleKey = RuleKey(kind: SiteKind, key: string)

  function SiteRuleKey(r: Routes, name: string): Option<RuleKey> {
    if name !in r.sites then None
    else Some(RuleKey(r.sites[name].kind, if r.sites[name].kind.Linked? then name else r.sites[name].root))
  }

  function RuleSide<T>(s: RulesSection<T>, kind: SiteKind): map<string, seq<Rule<T>>> {
    if kind.Linked? then s.linked else s.parked
  }

  function WithSide<T>(s: RulesSection<T>, kind: SiteKind, m: map<string, seq<Rule<T>>>): RulesSection<T> {
    if kind.Linked? then s.(linked := m) else s.(parked := m)
  }

  /** A rule section after adding a rule, or `None` when the prefix is taken. */
  function AddedRule<T(!new)>(s: RulesSection<T>, at: RuleKey, rule: Rule<T>): Option<RulesSection<T>> {
    var m := RuleSide(s, at.kind);
    var rules := RulesAt(m, at.key);
    if HasPrefix(rules, rule.prefix) then None else Some(WithSide(s, at.kind, m[at.key := rules + [rule]]))
  }

  /** A rule section after removing a rule, or `None` when there is none of that prefix. */
  function RemovedRule<T(!new)>(s: RulesSection<T>, at: RuleKey, prefix: string): Option<RulesSection<T>> {
    var m := RuleSide(s, at.kind);
    var rules := RulesAt(m, at.key);
    if !HasPrefix(rules, prefix) then None
    else Some(WithSide(s, at.kind, PutRules(m, at.key, WithoutPrefix(rules, prefix))))
  }

  /** Trailing slashes go, a lone slash stays. */
  function NormalizePrefix(p: string): string {
    if |p| > 1 && p[|p| - 1] == '/' then NormalizePrefix(p[..|p| - 1]) else p
  }

  function DoAddProxyRule(c: Cfg, r: Routes, site: string, rule: Option<Rule<Target>>): Outcome {
    var name := ToAsciiLower(site);
    if rule.None? || LoopsBack(c.tld, rule.value.target) then Refused(c, Invalid)
    else if SiteRuleKey(r, name).None? then Refused(c, NotFound)
    else match AddedRule(c.proxyRules, SiteRuleKey(r, name).value, rule.value)
      case None => Refused(c, AlreadyExists)
      case Some(s) => Done(c.(proxyRules := s))
  }

  function DoRemoveProxyRule(c: Cfg, r: Routes, site: string, prefix: string): Outcome {
    var name := ToAsciiLower(site);
    if SiteRuleKey(r, name).None? then Refused(c, NotFound)
    else match RemovedRule(c.proxyRules, SiteRuleKey(r, name).value, NormalizePrefix(prefix))
      case None => Refused(c, NotFound)
      case Some(s) => Done(c.(proxyRules := s))
  }

  function DoAddRouteRule(c: Cfg, r: Routes, site: string, rule: Option<Rule<string>>): Outcome {
    var name := ToAsciiLower(site);
    if rule.None? then Refused(c, Invalid)
    else if SiteRuleKey(r, name).None? then Refused(c, NotFound)
    else match AddedRule(c.routeRules, SiteRuleKey(r, name).value, rule.value)
      case None => Refused(c, AlreadyExists)
      case Some(s) => Done(c.(routeRules := s))
  }

  function DoRemoveRouteRule(c: Cfg, r: Routes, site: string, prefix: string): Outcome {
    var name := ToAsciiLower(site);
    if SiteRuleKey(r, name).None? then Refused(c, NotFound)
    else match RemovedRule(c.routeRules, SiteRuleKey(r, name).value, NormalizePrefix(prefix))
      case None => Refused(c, NotFound)
      case Some(s) => Done(c.(routeRules := s))
  }

  // ---- Groups ----

  /** Position of the first group of that name, ignoring case; the length if there is none. */
  function FindGroup(order: seq<string>, name: string): (i: nat)
    ensures i <= |order|
    ensures i < |order| ==> SameIgnoringCase(order[i], name)
    ensures forall j :: 0 <= j < i ==> !SameIgnoringCase(order[j], name)
  {
    FirstIndex(order, GroupNamed(name))
  }

  predicate HasGroup(order: seq<string>, name: string) {
    FindGroup(order, name) < |order|
  }

  function WithoutGroup(order: seq<string>, name: string): seq<string> {
    Filter(order, Not(GroupNamed(name)))
  }

  function DoCreateGroup(c: Cfg, raw: string): Outcome {
    var name := Trim(raw);
    if name == "" || ReservedName(name) then Refused(c, Invalid)
    else if HasGroup(c.groups.order, name) then Refused(c, AlreadyExists)
    else Done(c.(groups := c.groups.(order := c.groups.order + [name])))
  }

  function DoDeleteGroup(c: Cfg, name: string): Outcome {
    Done(c.(groups := GroupsSection(
      WithoutGroup(c.groups.order, name),
      map s | s in c.groups.members && !SameIgnoringCase(c.groups.members[s], name) :: c.groups.members[s])))
  }

  function DoSetGroupOrder(c: Cfg, order: seq<string>): Outcome {
    if multiset(order) != multiset(c.groups.order) then Refused(c, Invalid)
    else Done(c.(groups := c.groups.(order := order)))
  }

  function DoSetSiteGroup(c: Cfg, site: string, group: Option<string>): Outcome {
    var key := ToAsciiLower(site);
    if group.None? then Done(c.(groups := c.groups.(members := c.groups.members - {key})))
    else
      var i := FindGroup(c.groups.order, group.value);
      if i == |c.groups.order| then Refused(c, NotFound)
      else Done(c.(groups := c.groups.(members := c.groups.members[key := c.groups.order[i]])))
  }

  /** Some group other than the one at `i` bears the name, ignoring case. */
  predicate TakenElsewhere(order: seq<string>, i: nat, name: string) {
    exists j :: 0 <= j < |order| && j != i && SameIgnoringCase(order[j], name)
  }

  function DoRenameGroup(c: Cfg, from: string, to: string): Outcome {
    var name := Trim(to);
    var i := FindGroup(c.groups.order, from);
    if name == "" || ReservedName(name) then Refused(c, Invalid)
    else if i == |c.groups.order| then Refused(c, NotFound)
    else if TakenElsewhere(c.groups.order, i, name) then Refused(c, AlreadyExists)
    else Done(c.(groups := GroupsSection(
      c.groups.order[i := name],
      map s | s in c.groups.members ::
        if SameIgnoringCase(c.groups.members[s], from) then name else c.groups.members[s])))
  }

  // ---- Dispatch ----

  function Apply(c: Cfg, r: Routes, req: Request): Outcome {
    match req
    case Park(path) => DoPark(c, path)
    case Link(name, path) => DoLink(c, name, path)
    case Unpark(root) => DoUnpark(c, root)
    case Unlink(name) => DoUnlink(c, name)
    case SetSecure(name, secure) => DoSetSecure(c, r, name, secure)
    case SetFrontController(name, enabled) => DoSetFrontController(c, r, name, enabled)
    case AddDomain(name, domain) => DoAddDomain(c, r, name, domain)
    case RemoveDomain(name, domain) => DoRemoveDomain(c, r, name, domain)
    case SetPrimaryDomain(name, domain) => DoSetPrimary(c, r, name, domain)
    case ResetDomains(name) => DoResetDomains(c, r, name)
    case AddProxy(name, target) => DoAddProxy(c, r, name, target)
    case RemoveProxy(name) => DoRemoveProxy(c, name)
    case AddProxyRule(site, rule) => DoAddProxyRule(c, r, site, rule)
    case RemoveProxyRule(site, prefix) => DoRemoveProxyRule(c, r, site, prefix)
    case AddRouteRule(site, rule) => DoAddRouteRule(c, r, site, rule)
    case RemoveRouteRule(site, prefix) => DoRemoveRouteRule(c, r, site, prefix)
    case CreateGroup(name) => DoCreateGroup(c, name)
    case DeleteGroup(name) => DoDeleteGroup(c, name)
    case SetGroupOrder(order) => DoSetGroupOrder(c, order)
    case SetSiteGroup(site, group) => DoSetSiteGroup(c, site, group)
    case RenameGroup(from, to) => DoRenameGroup(c, from, to)
  }

  predicate IsGroupRequest(req: Request) {
    req.CreateGroup? || req.DeleteGroup? || req.SetGroupOrder? || req.SetSiteGroup? || req.RenameGroup?
  }
}
