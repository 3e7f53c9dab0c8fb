/** Filling a router claimant by claimant, with the two insertion safety nets in place. */
module Insertion {
  import opened Text
  import opened Domains
  import opened Config
  import opened Router

  /** What `build` hands to the router for one claimant; a name-shadowed proxy is skipped. */
  datatype Entry =
    | Skipped
    | SiteEntry(site: Site, won: seq<Domain>, primary: Domain)
    | ProxyEntry(proxy: Proxy, won: seq<Domain>, primary: Domain)
  {
    function Key(): string
      requires !Skipped?
    {
      if SiteEntry? then site.name else proxy.name
    }
  }

  ghost predicate DistinctKeys(es: seq<Entry>) {
    forall i, j :: 0 <= i < j < |es| && !es[i].Skipped? && !es[j].Skipped? ==> es[i].Key() != es[j].Key()
  }

  ghost predicate DisjointDomains(es: seq<Entry>) {
    forall i, j, d :: 0 <= i < j < |es| && !es[i].Skipped? && !es[j].Skipped? && d in es[i].won ==> d !in es[j].won
  }

  /** Entries the router will accept one after another. */
  ghost predicate Deconflicted(es: seq<Entry>) {
    DistinctKeys(es) && DisjointDomains(es)
  }

  /** Insert one entry; a refused insertion is logged and dropped. */
  ghost function AddEntry(r: Routes, e: Entry): Routes {
    match e
    case Skipped => r
    case SiteEntry(site, won, primary) =>
      if InsertFault(r, site.name, won).Some? then r else InsertedSite(r, site, won, primary)
    case ProxyEntry(proxy, won, primary) =>
      if InsertFault(r, proxy.name, won).Some? then r else InsertedProxy(r, proxy, won, primary)
  }

  ghost function RoutesUpTo(tld: string, es: seq<Entry>, k: nat): Routes
    requires k <= |es|
  {
    if k == 0 then EmptyRoutes(tld) else AddEntry(RoutesUpTo(tld, es, k - 1), es[k - 1])
  }

  /** The router holds `e` under its name, with its domains and primary. */
  ghost predicate Holds(r: Routes, e: Entry) {
    !e.Skipped? ==>
      var n := e.Key();
      && n in r.domains && r.domains[n] == e.won
      && n in r.primaries && r.primaries[n] == e.primary
      && (e.SiteEntry? ==> n in r.sites && r.sites[n] == e.site)
      && (e.ProxyEntry? ==> n in r.proxies && r.proxies[n] == e.proxy)
  }

  /** The names of the first `k` entries. */
  ghost function KeysUpTo(es: seq<Entry>, k: nat): set<string>
    requires k <= |es|
  {
    if k == 0 then {}
    else KeysUpTo(es, k - 1) + if es[k - 1].Skipped? then {} else {es[k - 1].Key()}
  }

  lemma {:induction false} KeyHasEntry(es: seq<Entry>, k: nat, n: string) returns (i: nat)
    requires k <= |es| && n in KeysUpTo(es, k)
    ensures i < k && !es[i].Skipped? && es[i].Key() == n
  {
    if n in KeysUpTo(es, k - 1) {
      i := KeyHasEntry(es, k - 1, n);
    } else {
      i := k - 1;
    }
  }

  /** The router holds the first `k` entries and nothing else. */
  ghost predicate HoldsExactly(r: Routes, es: seq<Entry>, k: nat)
    requires k <= |es|
  {
    && Coherent(r)
    && (forall i :: 0 <= i < k ==> Holds(r, es[i]))
    && r.domains.Keys == KeysUpTo(es, k)
  }

  /** Whoever owns a domain is an entry that won it. */
  lemma OwnerHasEntry(r: Routes, es: seq<Entry>, k: nat, d: Domain) returns (i: nat)
    requires k <= |es| && HoldsExactly(r, es, k) && DomainOwner(r, d).Some?
    ensures i < k && !es[i].Skipped? && d in es[i].won && DomainOwner(r, d) == Some(es[i].Key())
  {
    var owner := DomainOwner(r, d).value;
    assert Lists(r.domains, owner, d);
    i := KeyHasEntry(es, k, owner);
    assert Holds(r, es[i]);
  }

  /** Neither safety net fires for the next entry. */
  lemma InsertNeverFails(r: Routes, es: seq<Entry>, k: nat)
    requires k < |es| && Deconflicted(es) && HoldsExactly(r, es, k) && !es[k].Skipped?
    ensures InsertFault(r, es[k].Key(), es[k].won).None?
  {
    var e := es[k];
    if e.Key() in r.domains {
      var i := KeyHasEntry(es, k, e.Key());
    }
    forall x | 0 <= x < |e.won| ensures DomainOwner(r, e.won[x]).None? {
      if DomainOwner(r, e.won[x]).Some? {
        var i := OwnerHasEntry(r, es, k, e.won[x]);
      }
    }
  }

  lemma AddEntryKeys(r: Routes, e: Entry)
    requires KeysAgree(r) && !e.Skipped? && InsertFault(r, e.Key(), e.won).None?
    ensures KeysAgree(AddEntry(r, e))
  {
  }

  lemma AddEntryCoherent(r: Routes, e: Entry)
    requires Coherent(r) && !e.Skipped? && InsertFault(r, e.Key(), e.won).None?
    ensures Coherent(AddEntry(r, e))
  {
    AddEntryKeys(r, e);
    InsertKeepsIndex(r, e.Key(), e.won);
  }

  /** An insertion disturbs no entry of another name, and adds one name. */
  lemma AddEntryFrame(r: Routes, e: Entry, f: Entry)
    requires !e.Skipped? && InsertFault(r, e.Key(), e.won).None?
    requires Holds(r, f) && (!f.Skipped? ==> f.Key() != e.Key())
    ensures Holds(AddEntry(r, e), f) && Holds(AddEntry(r, e), e)
    ensures AddEntry(r, e).domains.Keys == r.domains.Keys + {e.Key()}
  {
  }

  lemma AddEntryKeepsOthers(r: Routes, es: seq<Entry>, k: nat)
    requires k < |es| && DistinctKeys(es) && !es[k].Skipped? && InsertFault(r, es[k].Key(), es[k].won).None?
    requires forall i :: 0 <= i < k ==> Holds(r, es[i])
    ensures forall i :: 0 <= i < k + 1 ==> Holds(AddEntry(r, es[k]), es[i])
    ensures AddEntry(r, es[k]).domains.Keys == r.domains.Keys + {es[k].Key()}
  {
    AddEntryFrame(r, es[k], Skipped);
    forall i | 0 <= i < k ensures Holds(AddEntry(r, es[k]), es[i]) {
      AddEntryFrame(r, es[k], es[i]);
    }
  }

  lemma AddEntryHolds(r: Routes, es: seq<Entry>, k: nat)
    requires k < |es| && Deconflicted(es) && HoldsExactly(r, es, k)
    ensures HoldsExactly(AddEntry(r, es[k]), es, k + 1)
  {
    var e, r' := es[k], AddEntry(r, es[k]);
    if !e.Skipped? {
      InsertNeverFails(r, es, k);
      AddEntryCoherent(r, e);
      AddEntryKeepsOthers(r, es, k);
    }
  }

  lemma EmptyHolds(tld: string, es: seq<Entry>)
    ensures HoldsExactly(EmptyRoutes(tld), es, 0)
  {
  }

  lemma {:induction false} RoutesHoldEntries(tld: string, es: seq<Entry>, k: nat)
    requires k <= |es| && Deconflicted(es)
    ensures HoldsExactly(RoutesUpTo(tld, es, k), es, k) && RoutesUpTo(tld, es, k).tld == tld
  {
    if k == 0 {
      EmptyHolds(tld, es);
    } else {
      RoutesHoldEntries(tld, es, k - 1);
      AddEntryHolds(RoutesUpTo(tld, es, k - 1), es, k - 1);
    }
  }

  /** The routing index sends a domain to the entry that won it, and to nobody if none did. */
  lemma EntryOwner(r: Routes, es: seq<Entry>, d: Domain)
    requires HoldsExactly(r, es, |es|)
    ensures forall i :: 0 <= i < |es| && !es[i].Skipped? && d in es[i].won ==> DomainOwner(r, d) == Some(es[i].Key())
    ensures DomainOwner(r, d).Some? ==> exists i :: 0 <= i < |es| && !es[i].Skipped? && d in es[i].won
  {
    forall i | 0 <= i < |es| && !es[i].Skipped? && d in es[i].won ensures DomainOwner(r, d) == Some(es[i].Key()) {
      assert Holds(r, es[i]);
      assert Lists(r.domains, es[i].Key(), d);
    }
    if DomainOwner(r, d).Some? {
      var i := OwnerHasEntry(r, es, |es|, d);
    }
  }

  /** The insertion loops of `build`: no insertion is ever refused. */
  method InsertEntries(router: SiteRouter, es: seq<Entry>)
    requires Deconflicted(es)
    requires router.View() == EmptyRoutes(router.tld)
    modifies router
    ensures router.View() == RoutesUpTo(router.tld, es, |es|)
  {
    for k := 0 to |es|
      invariant router.View() == RoutesUpTo(router.tld, es, k)
    {
      RoutesHoldEntries(router.tld, es, k);
      match es[k] {
        case Skipped =>
        case SiteEntry(site, won, primary) =>
          InsertNeverFails(router.View(), es, k);
          var outcome := router.InsertWithDomains(site, won, primary);
          assert outcome.Ok?;
        case ProxyEntry(proxy, won, primary) =>
          InsertNeverFails(router.View(), es, k);
          var outcome := router.InsertProxyWithDomains(proxy, won, primary);
          assert outcome.Ok?;
      }
    }
  }

  lemma {:induction false} RulesStayEmpty(tld: string, es: seq<Entry>, k: nat)
    requires k <= |es|
    ensures RoutesUpTo(tld, es, k).tld == tld
    ensures RoutesUpTo(tld, es, k).proxyRules == map[] && RoutesUpTo(tld, es, k).routeRules == map[]
  {
    if k != 0 { RulesStayEmpty(tld, es, k - 1); }
  }
}
