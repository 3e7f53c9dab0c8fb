/** What RemoveDomain gives back, and when the two domain edits undo each other
    (bin/orckerd/src/mutate.rs:647-744). */
module DomainRelease {
  import opened Text
  import opened Domains
  import opened Config
  import opened Router
  import opened Claims
  import opened SiteDomains
  import opened RouterBuild
  import opened Ownership
  import opened ScanOrder
  import opened Mutate
  import opened Frames
  import opened DomainRequests
  import opened DeltaInvariant

  /** A domain listed as an extra although it is the unsuppressed apex stays after it is struck off. */
  predicate StaysImplied(n: string, d: Delta, dom: Domain) {
    dom == Apex(n) && dom in d.added && dom !in d.suppressed
  }

  lemma HasExactOfMore(ds: seq<Domain>, more: seq<Domain>)
    requires HasExact(ds) && forall d :: d in ds ==> d in more
    ensures HasExact(more)
  {
    var i :| 0 <= i < |ds| && !IsWildcard(ds[i]);
    ExactMemberIsExact(more, ds[i]);
  }

  lemma EffectiveAfterStrike(n: Name, d: Delta, dom: Domain, e: Domain)
    requires dom in d.added && (n !in d.suppressed || HasExact(Without(d.added, dom)))
    ensures e in EffectiveOf(n, d.(added := Without(d.added, dom))) <==>
              e in EffectiveOf(n, d) && (e != dom || (dom == n && dom !in d.suppressed))
  {
    ApexOfName(n);
    WithoutFacts(d.added, dom);
    EffectiveSet(n, d.added, d.suppressed);
    EffectiveSet(n, Without(d.added, dom), d.suppressed);
    if HasExact(Without(d.added, dom)) { HasExactOfMore(Without(d.added, dom), d.added); }
  }

  lemma EffectiveAfterSuppress(n: Name, d: Delta, e: Domain)
    requires n !in d.added && HasExact(d.added)
    ensures e in EffectiveOf(n, d.(suppressed := d.suppressed + [n])) <==> e in EffectiveOf(n, d) && e != n
    ensures n in d.suppressed ==> n !in EffectiveOf(n, d)
  {
    ApexOfName(n);
    EffectiveSet(n, d.added, d.suppressed);
    EffectiveSet(n, d.added, d.suppressed + [n]);
    assert n in d.suppressed + [n];
  }

  lemma EffectiveAfterRemove(n: Name, d: Delta, dom: Domain, e: Domain)
    requires dom in d.added || dom == n
    requires ExactCount(n, WithoutDomain(d, n, dom)) >= 1
    ensures e in EffectiveOf(n, WithoutDomain(d, n, dom)) <==>
              e in EffectiveOf(n, d) && (e != dom || StaysImplied(n, d, dom))
  {
    ApexOfName(n);
    ExactInPositive(WithoutDomain(d, n, dom).added);
    if dom in d.added {
      EffectiveAfterStrike(n, d, dom, e);
    } else {
      EffectiveAfterSuppress(n, d, e);
    }
  }

  /** Claimant `i` stops wanting `x`, if `gone`, and that is all. */
  lemma OwnerAfterStrike(cs: seq<Claimant>, cs': seq<Claimant>, i: nat, x: Domain, gone: bool)
    requires DiffersAt(cs, cs', i) && (x in cs'[i].effective <==> x in cs[i].effective && !gone)
    ensures if gone then Owner(cs', x) != Some(i) && (Owner(cs, x) != Some(i) ==> Owner(cs', x) == Owner(cs, x))
            else Owner(cs', x) == Owner(cs, x)
  {
    if gone && x in cs[i].effective {
      OwnerLost(cs, cs', i, x);
    } else {
      OwnerUnaffected(cs, cs', i, x);
      assert gone ==> !IsOwner(cs', x, i);
    }
  }

  /** What striking `dom` off does to the owner of `x`. */
  lemma StrikeOwners(e: Edit, dom: Domain, x: Domain)
    requires e.Valid()
    requires var n, d := NameAt(e.Before(), e.i), GetDelta(e.c.domains, e.t);
             && (dom in d.added || dom == n) && e.d == WithoutDomain(d, n, dom) && ExactCount(n, e.d) >= 1
    ensures var n, r, r' := NameAt(e.Before(), e.i), Build(e.c, e.sites), Build(e.c', e.sites);
            if x == dom && !StaysImplied(n, GetDelta(e.c.domains, e.t), dom) then
              && DomainOwner(r', x) != Some(n)
              && (DomainOwner(r, x) != Some(n) ==> DomainOwner(r', x) == DomainOwner(r, x))
            else DomainOwner(r', x) == DomainOwner(r, x)
  {
    var n, d := NameAt(e.Before(), e.i), GetDelta(e.c.domains, e.t);
    EditDiffers(e);
    OwnerNames(e, x);
    ApexOfName(n);
    EffectiveAfterRemove(n, d, dom, x);
    OwnerAfterStrike(Claimants(e.Before()), Claimants(e.After()), e.i, x, x == dom && !StaysImplied(n, d, dom));
  }

  /** An accepted RemoveDomain, once the router is rebuilt, changes the owner of no other domain, and the
      claimant gives the domain up unless it is its own still-implied apex. */
  lemma RemoveDomainReleases(c: Cfg, sites: seq<Site>, raw: string, dom: Domain)
    requires ScanOf(c, sites) && DistinctRoots(sites)
    requires DoRemoveDomain(c, Build(c, sites), raw, Some(dom)).error.None?
    ensures var r, name := Build(c, sites), ToAsciiLower(raw);
            var r' := Build(DoRemoveDomain(c, r, raw, Some(dom)).cfg, sites);
            var d := GetDelta(c.domains, ResolveTarget(c, r, name).value);
            && (forall x :: x != dom ==> DomainOwner(r', x) == DomainOwner(r, x))
            && (DomainOwner(r, dom) != Some(name) ==> DomainOwner(r', dom) == DomainOwner(r, dom))
            && (DomainOwner(r, dom) == Some(name) ==>
                  (DomainOwner(r', dom) != Some(name) <==> !StaysImplied(name, d, dom)))
  {
    var r, name := Build(c, sites), ToAsciiLower(raw);
    var d := GetDelta(c.domains, ResolveTarget(c, r, name).value);
    var e := ResolvedEdit(c, sites, name, WithoutDomain(d, Apex(name), dom));
    assert e.c' == DoRemoveDomain(c, r, raw, Some(dom)).cfg;
    ApexOfName(NameAt(e.Before(), e.i));
    var r' := Build(e.c', sites);
    StrikeOwners(e, dom, dom);
    forall x | x != dom ensures DomainOwner(r', x) == DomainOwner(r, x) {
      StrikeOwners(e, dom, x);
    }
  }

  /** In a well-formed configuration a removed domain is always given up. */
  lemma FineIsGivenUp(n: string, d: Delta, dom: Domain)
    requires Fine(n, d)
    ensures !StaysImplied(n, d, dom)
  {
  }

  /** From a well-formed configuration an accepted RemoveDomain takes the domain from the claimant and moves
      no other. */
  lemma RemovalIsExact(nameOf: Naming, c: Cfg, sites: seq<Site>, raw: string, dom: Domain)
    requires NamedScan(nameOf, c, sites) && DeltasAreWellFormed(nameOf, c.domains)
    requires DoRemoveDomain(c, Build(c, sites), raw, Some(dom)).error.None?
    ensures var r := Build(c, sites);
            var r' := Build(DoRemoveDomain(c, r, raw, Some(dom)).cfg, sites);
            && (DomainOwner(r, dom) == Some(ToAsciiLower(raw)) ==> DomainOwner(r', dom) != Some(ToAsciiLower(raw)))
            && (forall x :: x != dom ==> DomainOwner(r', x) == DomainOwner(r, x))
  {
    var r, name := Build(c, sites), ToAsciiLower(raw);
    var t := ResolveTarget(c, r, name).value;
    NamedScanHasDistinctRoots(nameOf, c, sites);
    BuildIsNamed(nameOf, c, sites);
    assert TargetName(nameOf, t) == name;
    StoredIsFine(nameOf, c.domains, t);
    FineIsGivenUp(name, GetDelta(c.domains, t), dom);
    RemoveDomainReleases(c, sites, raw, dom);
  }

  /** From a well-formed configuration an accepted AddDomain or SetPrimaryDomain grants that domain and
      touches no other owner, on any scan of directory-derived names. */
  lemma GrantsNothingElse(nameOf: Naming, c: Cfg, sites: seq<Site>, raw: string, dom: Domain)
    requires NamedScan(nameOf, c, sites) && DeltasAreWellFormed(nameOf, c.domains)
    ensures var r := Build(c, sites);
            && (DoAddDomain(c, r, raw, Some(dom)).error.None? ==>
                  GrantsOnly(r, Build(DoAddDomain(c, r, raw, Some(dom)).cfg, sites), ToAsciiLower(raw), dom))
            && (DoSetPrimary(c, r, raw, Some(dom)).error.None? ==>
                  GrantsOnly(r, Build(DoSetPrimary(c, r, raw, Some(dom)).cfg, sites), ToAsciiLower(raw), dom))
  {
    var r, name := Build(c, sites), ToAsciiLower(raw);
    NamedScanHasDistinctRoots(nameOf, c, sites);
    if ResolveTarget(c, r, name).Some? {
      var t := ResolveTarget(c, r, name).value;
      BuildIsNamed(nameOf, c, sites);
      assert TargetName(nameOf, t) == name;
      StoredIsFine(nameOf, c.domains, t);
      FineNeverLosesApex(r, name, GetDelta(c.domains, t), dom);
      if DoAddDomain(c, r, raw, Some(dom)).error.None? { AddDomainGrants(c, sites, raw, dom); }
      if DoSetPrimary(c, r, raw, Some(dom)).error.None? { SetPrimaryGrants(c, sites, raw, dom); }
    }
  }

  /** Every claimant that owns a restored apex loses it to the next exact domain it adds. */
  lemma RestoredApexIsDisplaced(c: Cfg, sites: seq<Site>, name: Name, dom: Domain)
    requires ScanOf(c, sites) && DistinctRoots(sites) && ResolveTarget(c, Build(c, sites), name).Some?
    requires ApexRestored(name, GetDelta(c.domains, ResolveTarget(c, Build(c, sites), name).value))
    requires dom != name && !IsWildcard(dom)
    requires DomainOwner(Build(c, sites), name) == Some(name) && !ClaimedElsewhere(Build(c, sites), name, dom)
    ensures var r := Build(c, sites);
            && DoAddDomain(c, r, name, Some(dom)).error.None?
            && !GrantsOnly(r, Build(DoAddDomain(c, r, name, Some(dom)).cfg, sites), name, dom)
  {
    ApexOfName(name);
    AddDomainGrants(c, sites, name, dom);
  }

  // ---- Undoing ----

  lemma WithoutAppended<T>(s: seq<T>, x: T)
    requires x !in s
    ensures Without(s + [x], x) == s
  {
    FilterFacts(s, OtherThan(x));
    FilterGrow(s, x, OtherThan(x));
  }

  lemma StoreTwice(s: DomainsSection, t: DomainTarget, d: Delta, d': Delta)
    ensures StoreDelta(StoreDelta(s, t, d), t, d') == StoreDelta(s, t, d')
    ensures GetDelta(StoreDelta(s, t, d), t) == d && GetDelta(StoreDelta(s, t, d'), t) == d'
  {
  }

  /** An entry that carries nothing; an accepted domain request prunes its own. */
  predicate IsEmptyShell(s: DomainsSection, t: DomainTarget) {
    HasEntry(s, t) && GetDelta(s, t) == NO_DELTA
  }

  lemma StoredAgainIff(s: DomainsSection, t: DomainTarget)
    ensures StoreDelta(s, t, GetDelta(s, t)) == s <==> !IsEmptyShell(s, t)
  {
    match t {
      case LinkedTarget(k) => if IsEmptyShell(s, t) { assert k !in StoreDelta(s, t, GetDelta(s, t)).linked; }
      case ParkedTarget(k) => if IsEmptyShell(s, t) { assert k !in StoreDelta(s, t, GetDelta(s, t)).parked; }
      case ProxyTarget(k) => if IsEmptyShell(s, t) { assert k !in StoreDelta(s, t, GetDelta(s, t)).proxy; }
    }
  }

  /** Adding a new extra domain and removing it again restores the configuration if and only if the domain
      was not recorded as the primary, an exact domain was left without it, and no empty shell was stored. */
  lemma AddThenRemove(c: Cfg, r: Routes, r': Routes, raw: string, dom: Domain)
    requires DoAddDomain(c, r, raw, Some(dom)).error.None? && r'.sites == r.sites
    requires var name := ToAsciiLower(raw);
             dom != Apex(name) && dom !in GetDelta(c.domains, ResolveTarget(c, r, name).value).added
    ensures var name := ToAsciiLower(raw);
            var t := ResolveTarget(c, r, name).value;
            var d := GetDelta(c.domains, t);
            DoRemoveDomain(DoAddDomain(c, r, raw, Some(dom)).cfg, r', raw, Some(dom)) == Done(c) <==>
            d.primary != Some(dom) && ExactCount(name, d) >= 1 && !IsEmptyShell(c.domains, t)
  {
    var name := ToAsciiLower(raw);
    var t := ResolveTarget(c, r, name).value;
    var d := GetDelta(c.domains, t);
    var more := WithDomain(d, Apex(name), dom);
    var less := d.(primary := if d.primary == Some(dom) then None else d.primary);
    var c' := c.(domains := StoreDelta(c.domains, t, more));
    StoreTwice(c.domains, t, more, less);
    StrikeUndoesAdd(Apex(name), d, dom);
    SameTarget(c, c', r, r', name);
    StoredAgainIff(c.domains, t);
    var o := DoRemoveDomain(c', r', raw, Some(dom));
    assert o.error.None? <==> ExactCount(name, d) >= 1;
    assert o.error.None? ==> o.cfg == c.(domains := StoreDelta(c.domains, t, less));
    assert less != d ==> GetDelta(StoreDelta(c.domains, t, less), t) != d;
  }

  lemma StrikeUndoesAdd(apex: Domain, d: Delta, dom: Domain)
    requires dom !in d.added && dom != apex
    ensures var more := WithDomain(d, apex, dom);
            && dom in more.added
            && WithoutDomain(more, apex, dom) == d.(primary := if d.primary == Some(dom) then None else d.primary)
  {
    WithoutAppended(d.added, dom);
  }

  lemma SameTarget(c: Cfg, c': Cfg, r: Routes, r': Routes, name: string)
    requires c'.linked == c.linked && c'.proxies == c.proxies && r'.sites == r.sites
    ensures ResolveTarget(c', r', name) == ResolveTarget(c, r, name)
  {
  }

  /** In a well-formed configuration every accepted AddDomain of a new extra domain is undone, exactly, by
      RemoveDomain. */
  lemma AddThenRemoveRestores(nameOf: Naming, c: Cfg, r: Routes, r': Routes, raw: string, dom: Domain)
    requires RoutesAreNamed(nameOf, c, r) && DeltasAreWellFormed(nameOf, c.domains) && r'.sites == r.sites
    requires DoAddDomain(c, r, raw, Some(dom)).error.None?
    requires var name := ToAsciiLower(raw);
             dom != Apex(name) && dom !in GetDelta(c.domains, ResolveTarget(c, r, name).value).added
    ensures DoRemoveDomain(DoAddDomain(c, r, raw, Some(dom)).cfg, r', raw, Some(dom)) == Done(c)
  {
    var name := ToAsciiLower(raw);
    var t := ResolveTarget(c, r, name).value;
    assert TargetName(nameOf, t) == name;
    StoredIsFine(nameOf, c.domains, t);
    AddThenRemove(c, r, r', raw, dom);
  }
}
