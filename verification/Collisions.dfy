/** The collision report of the doctor (bin/orckerd/src/site_domains.rs, `collisions`). */
module Collisions {
  import opened Text
  import opened Domains
  import opened Config
  import opened Router
  import opened Claims
  import opened SiteDomains
  import opened RouterBuild
  import opened Ownership

  datatype Collision = Collision(winner: string, losers: seq<string>)

  // ---- What should be reported ----

  /** The claimants that list `d`, shadowed ones included, in claimant order. */
  ghost function Wanters(cs: seq<Claimant>, d: Domain): seq<nat> {
    if cs == [] then []
    else
      var front := Wanters(cs[..|cs| - 1], d);
      if d in cs[|cs| - 1].effective then front + [|cs| - 1] else front
  }

  lemma {:induction false} WantersFacts(cs: seq<Claimant>, d: Domain)
    ensures forall k :: 0 <= k < |Wanters(cs, d)| ==> Wanters(cs, d)[k] < |cs| && d in cs[Wanters(cs, d)[k]].effective
    ensures forall i: nat :: i < |cs| && d in cs[i].effective ==> i in Wanters(cs, d)
    ensures forall j, k :: 0 <= j < k < |Wanters(cs, d)| ==> Wanters(cs, d)[j] < Wanters(cs, d)[k]
  {
    if cs != [] {
      WantersFacts(cs[..|cs| - 1], d);
    }
  }

  lemma WantersGrow(cs: seq<Claimant>, c: Claimant, d: Domain)
    ensures Wanters(cs + [c], d) == Wanters(cs, d) + if d in c.effective then [|cs|] else []
  {
    assert (cs + [c])[..|cs|] == cs;
  }

  /** Listed by two claimants at least, one of which may win. */
  ghost predicate Contested(cs: seq<Claimant>, d: Domain) {
    |Wanters(cs, d)| >= 2 && Owner(cs, d).Some?
  }

  /** The displays of `idxs` other than `w`, in order. */
  function Others(cs: seq<Claimant>, w: nat, idxs: seq<nat>): seq<string>
    requires forall k :: 0 <= k < |idxs| ==> idxs[k] < |cs|
  {
    if idxs == [] then []
    else
      var front := Others(cs, w, idxs[..|idxs| - 1]);
      var i := idxs[|idxs| - 1];
      if i != w then front + [cs[i].display] else front
  }

  ghost function Report(cs: seq<Claimant>, d: Domain): Collision
    requires Contested(cs, d)
  {
    WantersFacts(cs, d);
    var w := Owner(cs, d).value;
    Collision(cs[w].display, Others(cs, w, Wanters(cs, d)))
  }

  /** One report per contested domain, in the order of the domain strings. */
  ghost predicate Reports(cs: seq<Claimant>, ds: seq<Domain>, out: seq<Collision>) {
    && NoDup(ds) && LexSorted(ds)
    && (forall d :: d in ds <==> Contested(cs, d))
    && |out| == |ds|
    && (forall i :: 0 <= i < |ds| ==> out[i] == Report(cs, ds[i]))
  }

  /** The whole report. */
  ghost predicate IsReport(cs: seq<Claimant>, out: seq<Collision>) {
    exists ds :: Reports(cs, ds, out)
  }

  /** There is only one. */
  lemma ReportIsDetermined(cs: seq<Claimant>, out: seq<Collision>, other: seq<Collision>)
    requires IsReport(cs, out) && IsReport(cs, other)
    ensures out == other
  {
    var ds :| Reports(cs, ds, out);
    var es :| Reports(cs, es, other);
    SameElements(ds, es);
    SortedIsCanonical(ds, es);
  }

  // ---- How it is computed ----

  /** `wanted` lists, for exactly the domains in `order`, who wants them. */
  ghost predicate Tallies(cs: seq<Claimant>, order: seq<Domain>, wanted: map<Domain, seq<nat>>) {
    && NoDup(order)
    && (forall d :: d in order <==> d in wanted)
    && (forall d :: Wanters(cs, d) == if d in wanted then wanted[d] else [])
  }

  /** Counting one more domain of the last claimant. */
  lemma TallyNext(cs: seq<Claimant>, n: nat, k: nat, order: seq<Domain>, wanted: map<Domain, seq<nat>>)
    requires n < |cs| && NoDup(cs[n].effective) && k < |cs[n].effective|
    requires Tallies(Handled(cs, n, k), order, wanted)
    ensures var d := cs[n].effective[k];
            var order' := if d in wanted then order else order + [d];
            var before := if d in wanted then wanted[d] else [];
            Tallies(Handled(cs, n, k + 1), order', wanted[d := before + [n]])
  {
    var before, after, d := Handled(cs, n, k), Handled(cs, n, k + 1), cs[n].effective[k];
    forall e ensures WantsMore(before, after, d, n, e) {
      HandledWantsMore(cs, n, k, e);
    }
    TalliesGrow(before, after, d, n, order, wanted);
  }

  /** `e` is wanted by the same claimants in `cs'` as in `cs`, and by `n` too if it is `d`. */
  ghost predicate WantsMore(cs: seq<Claimant>, cs': seq<Claimant>, d: Domain, n: nat, e: Domain) {
    Wanters(cs', e) == Wanters(cs, e) + if e == d then [n] else []
  }

  lemma HandledWantsMore(cs: seq<Claimant>, n: nat, k: nat, e: Domain)
    requires n < |cs| && NoDup(cs[n].effective) && k < |cs[n].effective|
    ensures WantsMore(Handled(cs, n, k), Handled(cs, n, k + 1), cs[n].effective[k], n, e)
  {
    var d := cs[n].effective[k];
    WantersOfHandled(cs, n, k, e);
    WantersOfHandled(cs, n, k + 1, e);
    assert cs[n].effective[..k + 1] == cs[n].effective[..k] + [d];
    assert d !in cs[n].effective[..k];
  }

  lemma TalliesGrow(cs: seq<Claimant>, cs': seq<Claimant>, d: Domain, n: nat, order: seq<Domain>,
                    wanted: map<Domain, seq<nat>>)
    requires Tallies(cs, order, wanted) && (forall e :: WantsMore(cs, cs', d, n, e))
    ensures var order' := if d in wanted then order else order + [d];
            var before := if d in wanted then wanted[d] else [];
            Tallies(cs', order', wanted[d := before + [n]])
  {
    var before := if d in wanted then wanted[d] else [];
    var wanted' := wanted[d := before + [n]];
    forall e ensures Wanters(cs', e) == if e in wanted' then wanted'[e] else [] {
      assert WantsMore(cs, cs', d, n, e);
      assert Wanters(cs, e) == if e in wanted then wanted[e] else [];
      assert Wanters(cs, e) + [] == Wanters(cs, e);
    }
  }

  lemma WantersOfHandled(cs: seq<Claimant>, n: nat, k: nat, e: Domain)
    requires n < |cs| && k <= |cs[n].effective|
    ensures Wanters(Handled(cs, n, k), e) == Wanters(cs[..n], e) + if e in cs[n].effective[..k] then [n] else []
  {
    WantersGrow(cs[..n], cs[n].(effective := cs[n].effective[..k]), e);
  }

  lemma TallyIdle(cs: seq<Claimant>, n: nat, order: seq<Domain>, wanted: map<Domain, seq<nat>>)
    requires n < |cs| && Tallies(cs[..n], order, wanted)
    ensures Tallies(Handled(cs, n, 0), order, wanted)
  {
    forall d ensures Wanters(Handled(cs, n, 0), d) == Wanters(cs[..n], d) {
      WantersGrow(cs[..n], cs[n].(effective := []), d);
    }
  }

  method Tally(cs: seq<Claimant>) returns (order: seq<Domain>, wanted: map<Domain, seq<nat>>)
    requires forall i :: 0 <= i < |cs| ==> NoDup(cs[i].effective)
    ensures Tallies(cs, order, wanted)
  {
    order, wanted := [], map[];
    for n := 0 to |cs|
      invariant Tallies(cs[..n], order, wanted)
    {
      TallyIdle(cs, n, order, wanted);
      for k := 0 to |cs[n].effective|
        invariant Tallies(Handled(cs, n, k), order, wanted)
      {
        var d := cs[n].effective[k];
        TallyNext(cs, n, k, order, wanted);
        if d in wanted {
          wanted := wanted[d := wanted[d] + [n]];
        } else {
          order := order + [d];
          wanted := wanted[d := [n]];
        }
      }
      assert cs[n].effective[..|cs[n].effective|] == cs[n].effective;
      assert Handled(cs, n, |cs[n].effective|) == cs[..n + 1];
    }
    assert cs[..|cs|] == cs;
  }

  method CollectLosers(cs: seq<Claimant>, w: nat, idxs: seq<nat>) returns (losers: seq<string>)
    requires forall k :: 0 <= k < |idxs| ==> idxs[k] < |cs|
    ensures losers == Others(cs, w, idxs)
  {
    losers := [];
    for k := 0 to |idxs|
      invariant losers == Others(cs, w, idxs[..k])
    {
      assert idxs[..k + 1][..k] == idxs[..k];
      if idxs[k] != w {
        losers := losers + [cs[idxs[k]].display];
      }
    }
    assert idxs[..|idxs|] == idxs;
  }

  /** A contested domain loses to its winner every other claimant that lists it, so there is a loser. */
  lemma ContestedHasLosers(cs: seq<Claimant>, d: Domain)
    requires Contested(cs, d)
    ensures Report(cs, d).losers != []
    ensures |Report(cs, d).losers| == |Wanters(cs, d)| - 1
    ensures forall i: nat :: i < |cs| && d in cs[i].effective && Owner(cs, d) != Some(i) ==>
              cs[i].display in Report(cs, d).losers
  {
    WantersFacts(cs, d);
    var idxs, w := Wanters(cs, d), Owner(cs, d).value;
    assert IsOwner(cs, d, w);
    OthersFacts(cs, w, idxs);
  }

  lemma {:induction false} OthersFacts(cs: seq<Claimant>, w: nat, idxs: seq<nat>)
    requires forall x :: 0 <= x < |idxs| ==> idxs[x] < |cs|
    requires forall j, k :: 0 <= j < k < |idxs| ==> idxs[j] < idxs[k]
    ensures |Others(cs, w, idxs)| == |idxs| - if w in idxs then 1 else 0
    ensures forall k :: 0 <= k < |idxs| && idxs[k] != w ==> cs[idxs[k]].display in Others(cs, w, idxs)
  {
    if idxs != [] {
      var front := idxs[..|idxs| - 1];
      OthersFacts(cs, w, front);
      assert idxs == front + [idxs[|idxs| - 1]];
    }
  }

  lemma SortedCopy(a: seq<Domain>, b: seq<Domain>)
    requires NoDup(a) && multiset(a) == multiset(b)
    ensures NoDup(b) && forall d :: d in b <==> d in a
  {
    NoDupCounts(a);
    NoDupCounts(b);
    forall d ensures d in b <==> d in a {
      assert d in a <==> d in multiset(a);
      assert d in b <==> d in multiset(b);
    }
  }

  /** The report for one entry of the `wanted` map, if it earns one. */
  method ReportOne(cs: seq<Claimant>, claims: map<Domain, nat>, d: Domain, idxs: seq<nat>)
    returns (r: Option<Collision>)
    requires OwnersAre(cs, claims) && idxs == Wanters(cs, d)
    ensures r == if Contested(cs, d) then Some(Report(cs, d)) else None
  {
    WantersFacts(cs, d);
    if |idxs| < 2 || d !in claims {
      return None;
    }
    assert Owner(cs, d) == Some(claims[d]);
    var losers := CollectLosers(cs, claims[d], idxs);
    ContestedHasLosers(cs, d);
    r := if losers == [] then None else Some(Collision(cs[claims[d]].display, losers));
  }

  /** `Reports`, for the contested domains among `keys`. */
  ghost predicate ReportsAmong(cs: seq<Claimant>, keys: seq<Domain>, ds: seq<Domain>, out: seq<Collision>) {
    && NoDup(ds) && LexSorted(ds)
    && (forall d :: d in ds <==> d in keys && Contested(cs, d))
    && |out| == |ds|
    && (forall i :: 0 <= i < |ds| ==> Contested(cs, ds[i]) && out[i] == Report(cs, ds[i]))
  }

  lemma ReportsAmongNext(cs: seq<Claimant>, keys: seq<Domain>, d: Domain, ds: seq<Domain>, out: seq<Collision>)
    requires ReportsAmong(cs, keys, ds, out) && d !in keys
    requires forall k :: k in keys ==> LexLeq(k, d)
    ensures Contested(cs, d) ==> ReportsAmong(cs, keys + [d], ds + [d], out + [Report(cs, d)])
    ensures !Contested(cs, d) ==> ReportsAmong(cs, keys + [d], ds, out)
  {
  }

  /** The report names exactly the contested domains, each with the claimant that owns it as winner. */
  method FindCollisions(cs: seq<Claimant>) returns (out: seq<Collision>)
    requires forall i :: 0 <= i < |cs| ==> NoDup(cs[i].effective)
    ensures IsReport(cs, out)
  {
    var claims := BuildClaims(cs);
    ClaimsAreOwners(cs, claims);
    var order, wanted := Tally(cs);
    var keys := SortStrings(order);
    SortedCopy(order, keys);
    out := [];
    ghost var ds: seq<Domain> := [];
    for n := 0 to |keys|
      invariant ReportsAmong(cs, keys[..n], ds, out)
    {
      var d := keys[n];
      assert keys[..n + 1] == keys[..n] + [d];
      ReportsAmongNext(cs, keys[..n], d, ds, out);
      var r := ReportOne(cs, claims, d, wanted[d]);
      if r.Some? {
        out := out + [r.value];
        ds := ds + [d];
      }
    }
    assert keys[..|keys|] == keys;
    forall d | Contested(cs, d) ensures d in keys {
      assert Wanters(cs, d) != [];
    }
    assert Reports(cs, ds, out);
  }

  method CollisionReport(c: Cfg, sites: seq<Site>) returns (out: seq<Collision>)
    ensures IsReport(Claimants(MakePlan(c, sites)), out)
  {
    var plans := PlanSites(c, sites);
    var proxyPlans := PlanProxies(c, plans);
    PlanNamesAgree(c, sites);
    MakePlanIsGood(c, sites);
    var p := Plan(plans, proxyPlans);
    forall i | 0 <= i < Count(p) ensures NoDup(Claimants(p)[i].effective) {
      assert NoDup(EffectiveAt(p, i));
    }
    out := FindCollisions(Claimants(p));
  }

  /** The reported winner of a contested domain is the claimant the router routes it to. */
  lemma WinnerIsRouted(c: Cfg, sites: seq<Site>, d: Domain)
    requires Contested(Claimants(MakePlan(c, sites)), d)
    ensures var p, r := MakePlan(c, sites), Build(c, sites);
            exists n :: DomainOwner(r, d) == Some(n) &&
              (Report(Claimants(p), d).winner == if n in r.sites then n else "proxy:" + n)
  {
    var p, r := MakePlan(c, sites), Build(c, sites);
    BuildOwner(c, sites, d);
    var w := Owner(Claimants(p), d).value;
    StakesAreWants(p, w, d);
    EveryEligibleClaimantIsRouted(c, sites, w);
    MakePlanIsGood(c, sites);
    PlanHolds(c, p);
    assert DomainOwner(r, d) == Some(NameAt(p, w));
  }

  /** Claimant `i` lists the domain and is not the one routed it. */
  ghost predicate Misses(p: Plan, r: Routes, i: nat, d: Domain) {
    i < Count(p) && d in EffectiveAt(p, i) && !(EligibleAt(p, i) && DomainOwner(r, d) == Some(NameAt(p, i)))
  }

  lemma TwoWanters(cs: seq<Claimant>, d: Domain, w: nat)
    requires w < |cs| && d in cs[w].effective
    ensures |Wanters(cs, d)| >= 2 <==> exists i: nat :: i < |cs| && i != w && d in cs[i].effective
  {
    var ws := Wanters(cs, d);
    WantersFacts(cs, d);
    var k :| 0 <= k < |ws| && ws[k] == w;
    if |ws| >= 2 {
      var j := if k == 0 then 1 else 0;
      assert ws[j] != w && ws[j] < |cs|;
    }
    if i: nat :| i < |cs| && i != w && d in cs[i].effective {
      assert i in ws;
    }
  }

  lemma MissesIff(p: Plan, r: Routes, d: Domain, w: nat, i: nat)
    requires GoodPlan(p) && w < Count(p) && EligibleAt(p, w) && DomainOwner(r, d) == Some(NameAt(p, w)) && i < Count(p)
    ensures Misses(p, r, i, d) <==> i != w && d in Claimants(p)[i].effective
  {
    if EligibleAt(p, i) && NameAt(p, i) == NameAt(p, w) { EligibleNamesAreDistinct(p, i, w); }
  }

  /** A collision is reported exactly for a routed domain that some claimant, shadowed proxies included, lists and
      is not routed. */
  lemma ContestedIff(c: Cfg, sites: seq<Site>, d: Domain)
    ensures var p, r := MakePlan(c, sites), Build(c, sites);
            Contested(Claimants(p), d) <==> DomainOwner(r, d).Some? && exists i: nat :: Misses(p, r, i, d)
  {
    var p, r := MakePlan(c, sites), Build(c, sites);
    MakePlanIsGood(c, sites);
    BuildOwner(c, sites, d);
    if Owner(Claimants(p), d).Some? {
      var w := Owner(Claimants(p), d).value;
      assert IsOwner(Claimants(p), d, w);
      TwoWanters(Claimants(p), d, w);
      forall i: nat | i < Count(p) ensures Misses(p, r, i, d) <==> i != w && d in Claimants(p)[i].effective {
        MissesIff(p, r, d, w, i);
      }
    }
  }
}
