/** Why each request is refused, said once for all of them without looking at what an accepted one does
    (bin/orckerd/src/mutate.rs:88-962, crates/orcker-core/src/site.rs:246-278). */
module Reasons {
  import opened Text
  import opened Domains
  import opened Config
  import opened Router
  import opened Mutate
  import opened Frames
  import opened DeltaInvariant

  /** One DNS label: `[a-z0-9-]`, at most 63 of them, no hyphen at either end. */
  ghost predicate IsLabel(n: string) {
    && 1 <= |n| <= 63
    && (forall c :: c in n ==> c in LOWER || c in "0123456789" || c == '-')
    && n[0] != '-' && n[|n| - 1] != '-'
  }

  /** Someone whose domains can be edited: a linked site, a routed site, or a configured proxy. */
  ghost predicate HasDomains(c: Cfg, r: Routes, n: string) {
    (exists s :: s in c.linked && s.name == n) || n in r.sites || exists p :: p in c.proxies && p.name == n
  }

  /** The delta stored for such a claimant. */
  ghost function DeltaOf(c: Cfg, r: Routes, n: string): Delta {
    if exists s :: s in c.linked && s.name == n then (if n in c.domains.linked then c.domains.linked[n] else NO_DELTA)
    else if n in r.sites then
      (if r.sites[n].root in c.domains.parked then c.domains.parked[r.sites[n].root] else NO_DELTA)
    else if n in c.domains.proxy then c.domains.proxy[n] else NO_DELTA
  }

  /** Another claimant is routed the domain. */
  ghost predicate OwnedByOther(r: Routes, n: string, d: Domain) {
    exists m :: m != n && DomainOwner(r, d) == Some(m)
  }

  /** Taking `dom` from the delta would leave nothing exact. */
  ghost predicate TakesLastExact(n: string, d: Delta, dom: Domain) {
    && (forall e :: e in d.added && e != dom ==> IsWildcard(e))
    && (Apex(n) in d.suppressed || dom !in d.added)
  }

  /** A rule of the prefix is stored for the routed site `n`, by name if it is linked, else by document root. */
  ghost predicate RulePresent<T(!new)>(s: RulesSection<T>, r: Routes, n: string, prefix: string)
    requires n in r.sites
  {
    var root := r.sites[n].root;
    match r.sites[n].kind
    case Linked => n in s.linked && exists x :: x in s.linked[n] && x.prefix == prefix
    case Parked => root in s.parked && exists x :: x in s.parked[root] && x.prefix == prefix
  }

  /** A target on the daemon's own top-level domain. */
  ghost predicate OnOwnDomain(tld: string, t: Target) {
    t.host == tld || exists sub :: t.host == sub + "." + tld
  }

  ghost predicate GroupListed(c: Cfg, name: string) {
    exists g :: g in c.groups.order && SameIgnoringCase(g, name)
  }

  ghost predicate UnusableGroupName(name: string) {
    name == "" || SameIgnoringCase(name, "Unallocated")
  }

  ghost function Reason(c: Cfg, r: Routes, req: Request): Option<MutateError> {
    match req
    case Park(path) => if path.None? then Some(Invalid) else None
    case Link(name, path) =>
      if path.None? || !IsLabel(ToAsciiLower(name)) then Some(Invalid)
      else if exists s :: s in c.linked && s.name == ToAsciiLower(name) then Some(AlreadyExists)
      else None
    case Unpark(_) => None
    case Unlink(name) =>
      if (exists s :: s in c.linked && s.name == ToAsciiLower(name)) || IsProject(c, ToAsciiLower(name)) then None
      else Some(NotFound)
    case SetSecure(name, _) =>
      if HasDomains(c, r, ToAsciiLower(name)) || IsProject(c, ToAsciiLower(name)) then None else Some(NotFound)
    case SetFrontController(name, _) =>
      if (exists s :: s in c.linked && s.name == ToAsciiLower(name)) || ToAsciiLower(name) in r.sites then None
      else Some(NotFound)
    case AddDomain(name, domain) =>
      if !HasDomains(c, r, ToAsciiLower(name)) then Some(NotFound)
      else if domain.None? then Some(Invalid)
      else if OwnedByOther(r, ToAsciiLower(name), domain.value) then Some(AlreadyExists)
      else None
    case RemoveDomain(name, domain) =>
      var n := ToAsciiLower(name);
      if !HasDomains(c, r, n) then Some(NotFound)
      else if domain.None? then Some(Invalid)
      else
        var d := DeltaOf(c, r, n);
        if domain.value !in d.added && domain.value != Apex(n) then Some(Invalid)
        else if TakesLastExact(n, d, domain.value) then Some(Invalid)
        else None
    case SetPrimaryDomain(name, domain) =>
      if !HasDomains(c, r, ToAsciiLower(name)) then Some(NotFound)
      else if domain.None? || IsWildcard(domain.value) then Some(Invalid)
      else if OwnedByOther(r, ToAsciiLower(name), domain.value) then Some(AlreadyExists)
      else None
    case ResetDomains(name) => if HasDomains(c, r, ToAsciiLower(name)) then None else Some(NotFound)
    case AddProxy(name, target) =>
      if name.None? || target.None? || OnOwnDomain(c.tld, target.value) then Some(Invalid)
      else if name.value in r.sites || (exists p :: p in c.proxies && p.name == name.value)
              || DomainOwner(r, name.value).Some? then Some(AlreadyExists)
      else None
    case RemoveProxy(name) =>
      if exists p :: p in c.proxies && p.name == ToAsciiLower(name) then None else Some(NotFound)
    case AddProxyRule(site, rule) =>
      if rule.None? || OnOwnDomain(c.tld, rule.value.target) then Some(Invalid)
      else if ToAsciiLower(site) !in r.sites then Some(NotFound)
      else if RulePresent(c.proxyRules, r, ToAsciiLower(site), rule.value.prefix) then Some(AlreadyExists)
      else None
    case RemoveProxyRule(site, prefix) =>
      if ToAsciiLower(site) in r.sites
         && RulePresent(c.proxyRules, r, ToAsciiLower(site), NormalizePrefix(prefix)) then None
      else Some(NotFound)
    case AddRouteRule(site, rule) =>
      if rule.None? then Some(Invalid)
      else if ToAsciiLower(site) !in r.sites then Some(NotFound)
      else if RulePresent(c.routeRules, r, ToAsciiLower(site), rule.value.prefix) then Some(AlreadyExists)
      else None
    case RemoveRouteRule(site, prefix) =>
      if ToAsciiLower(site) in r.sites
         && RulePresent(c.routeRules, r, ToAsciiLower(site), NormalizePrefix(prefix)) then None
      else Some(NotFound)
    case CreateGroup(name) =>
      if UnusableGroupName(Trim(name)) then Some(Invalid)
      else if GroupListed(c, Trim(name)) then Some(AlreadyExists)
      else None
    case DeleteGroup(_) => None
    case SetGroupOrder(order) => if multiset(order) == multiset(c.groups.order) then None else Some(Invalid)
    case SetSiteGroup(_, group) => if group.None? || GroupListed(c, group.value) then None else Some(NotFound)
    case RenameGroup(from, to) =>
      if UnusableGroupName(Trim(to)) then Some(Invalid)
      else if !GroupListed(c, from) then Some(NotFound)
      else if NameTaken(c.groups.order, from, Trim(to)) then Some(AlreadyExists)
      else None
  }

  /** A group other than the first of the name `from` bears the name `to`. */
  ghost predicate NameTaken(order: seq<string>, from: string, to: string) {
    exists i, j ::
      && 0 <= i < |order| && 0 <= j < |order| && i != j
      && SameIgnoringCase(order[i], from) && (forall k :: 0 <= k < i ==> !SameIgnoringCase(order[k], from))
      && SameIgnoringCase(order[j], to)
  }

  // ---- The handlers agree ----

  lemma LinkedIff(c: Cfg, n: string)
    ensures IsLinked(c, n) <==> exists s :: s in c.linked && s.name == n
    ensures IsProxy(c, n) <==> exists p :: p in c.proxies && p.name == n
  {
    if s :| s in c.linked && s.name == n { var i :| 0 <= i < |c.linked| && c.linked[i] == s; }
    if p :| p in c.proxies && p.name == n { var i :| 0 <= i < |c.proxies| && c.proxies[i] == p; }
    if IsLinked(c, n) { var i :| 0 <= i < |c.linked| && c.linked[i].name == n; assert c.linked[i] in c.linked; }
    if IsProxy(c, n) { var i :| 0 <= i < |c.proxies| && c.proxies[i].name == n; assert c.proxies[i] in c.proxies; }
  }

  lemma LabelChar(c: char)
    ensures NameChar(c) && c != '.' <==> c in LOWER || c in "0123456789" || c == '-'
  {
    if 'a' <= c <= 'z' {
      Alphabets(c as int - 'a' as int);
    }
    if c in LOWER {
      var i :| 0 <= i < 26 && LOWER[i] == c;
      Alphabets(i);
    }
  }

  lemma LabelIff(raw: string)
    ensures SiteNameOf(raw).Some? <==> IsLabel(ToAsciiLower(raw))
  {
    var n := ToAsciiLower(raw);
    forall c ensures NameChar(c) && c != '.' <==> c in LOWER || c in "0123456789" || c == '-' { LabelChar(c); }
    assert forall i :: 0 <= i < |n| ==> n[i] in n;
  }

  lemma LoopsIff(tld: string, t: Target)
    ensures LoopsBack(tld, t) <==> OnOwnDomain(tld, t)
  {
    if LoopsBack(tld, t) && t.host != tld {
      var k := |t.host| - |tld| - 1;
      assert t.host == t.host[..k] + "." + tld;
    }
    if sub :| t.host == sub + "." + tld {
      assert t.host[|sub|..] == "." + tld;
    }
  }

  lemma LastExactIff(n: string, d: Delta, dom: Domain)
    requires dom in d.added || dom == Apex(n)
    ensures ExactCount(n, WithoutDomain(d, Apex(n), dom)) == 0 <==> TakesLastExact(n, d, dom)
  {
    var d' := WithoutDomain(d, Apex(n), dom);
    ExactInPositive(d'.added);
    WithoutFacts(d.added, dom);
    assert HasExact(d'.added) <==> exists e :: e in d'.added && !IsWildcard(e);
    assert forall e :: e in d'.added <==> e in d.added && e != dom;
    assert Apex(n) in d'.suppressed <==> Apex(n) in d.suppressed || dom !in d.added;
  }

  lemma DomainReasons(c: Cfg, r: Routes, req: Request)
    requires IsDomainRequest(req)
    ensures Apply(c, r, req).error == Reason(c, r, req)
  {
    var n := ToAsciiLower(req.name);
    LinkedIff(c, n);
    if req.RemoveDomain? && HasDomains(c, r, n) && req.domain.Some? {
      var d, dom := DeltaOf(c, r, n), req.domain.value;
      assert GetDelta(c.domains, ResolveTarget(c, r, n).value) == d;
      if dom in d.added || dom == Apex(n) { LastExactIff(n, d, dom); }
    }
  }

  lemma RuleReasons(c: Cfg, r: Routes, req: Request)
    requires IsRuleRequest(req)
    ensures Apply(c, r, req).error == Reason(c, r, req)
  {
    if req.AddProxyRule? && req.proxyRule.Some? { LoopsIff(c.tld, req.proxyRule.value.target); }
    var n := ToAsciiLower(req.site);
    if n in r.sites {
      var at := SiteRuleKey(r, n).value;
      forall prefix ensures HasPrefix(RulesAt(RuleSide(c.proxyRules, at.kind), at.key), prefix) <==>
                            RulePresent(c.proxyRules, r, n, prefix) {
        PrefixIff(c.proxyRules, r, n, at, prefix);
      }
      forall prefix ensures HasPrefix(RulesAt(RuleSide(c.routeRules, at.kind), at.key), prefix) <==>
                            RulePresent(c.routeRules, r, n, prefix) {
        PrefixIff(c.routeRules, r, n, at, prefix);
      }
    }
  }

  lemma PrefixIff<T(!new)>(s: RulesSection<T>, r: Routes, n: string, at: RuleKey, prefix: string)
    requires n in r.sites && SiteRuleKey(r, n) == Some(at)
    ensures HasPrefix(RulesAt(RuleSide(s, at.kind), at.key), prefix) <==> RulePresent(s, r, n, prefix)
  {
    var rules := RulesAt(RuleSide(s, at.kind), at.key);
    assert HasPrefix(rules, prefix) <==> exists x :: x in rules && x.prefix == prefix;
  }

  lemma TakenIff(order: seq<string>, from: string, to: string)
    requires HasGroup(order, from)
    ensures TakenElsewhere(order, FindGroup(order, from), to) <==> NameTaken(order, from, to)
  {
    var i := FindGroup(order, from);
    assert SameIgnoringCase(order[i], from);
  }

  lemma ListedIff(c: Cfg, name: string)
    ensures HasGroup(c.groups.order, name) <==> GroupListed(c, name)
  {
    var order := c.groups.order;
    assert forall i :: 0 <= i < |order| ==> order[i] in order;
  }

  lemma CreateReason(c: Cfg, r: Routes, name: string)
    ensures DoCreateGroup(c, name).error == Reason(c, r, CreateGroup(name))
  {
    ListedIff(c, Trim(name));
  }

  lemma AssignReason(c: Cfg, r: Routes, site: string, group: Option<string>)
    ensures DoSetSiteGroup(c, site, group).error == Reason(c, r, SetSiteGroup(site, group))
  {
    if group.Some? { ListedIff(c, group.value); }
  }

  lemma RenameReason(c: Cfg, r: Routes, from: string, to: string)
    ensures DoRenameGroup(c, from, to).error == Reason(c, r, RenameGroup(from, to))
  {
    ListedIff(c, from);
    if GroupListed(c, from) { TakenIff(c.groups.order, from, Trim(to)); }
  }

  lemma GroupReasons(c: Cfg, r: Routes, req: Request)
    requires IsGroupRequest(req)
    ensures Apply(c, r, req).error == Reason(c, r, req)
  {
    match req {
      case CreateGroup(name) => CreateReason(c, r, name);
      case SetSiteGroup(site, group) => AssignReason(c, r, site, group);
      case RenameGroup(from, to) => RenameReason(c, r, from, to);
      case _ =>
    }
  }

  /** Every request is refused exactly for its reason, and with that error. */
  lemma RefusedForItsReason(c: Cfg, r: Routes, req: Request)
    ensures Apply(c, r, req).error == Reason(c, r, req)
  {
    if IsDomainRequest(req) {
      DomainReasons(c, r, req);
    } else if IsRuleRequest(req) {
      RuleReasons(c, r, req);
    } else if IsGroupRequest(req) {
      GroupReasons(c, r, req);
    } else {
      SiteReasons(c, r, req);
    }
  }

  lemma SiteReasons(c: Cfg, r: Routes, req: Request)
    requires !IsDomainRequest(req) && !IsRuleRequest(req) && !IsGroupRequest(req)
    ensures Apply(c, r, req).error == Reason(c, r, req)
  {
    match req {
      case Link(name, path) =>
        LabelIff(name);
        LinkedIff(c, ToAsciiLower(name));
      case Unlink(name) => LinkedIff(c, ToAsciiLower(name));
      case SetSecure(name, _) => LinkedIff(c, ToAsciiLower(name));
      case SetFrontController(name, _) => LinkedIff(c, ToAsciiLower(name));
      case AddProxy(name, target) =>
        if name.Some? && target.Some? {
          LoopsIff(c.tld, target.value);
          LinkedIff(c, name.value);
          ApexOfName(name.value);
        }
      case RemoveProxy(name) => LinkedIff(c, ToAsciiLower(name));
      case _ =>
    }
  }
}
