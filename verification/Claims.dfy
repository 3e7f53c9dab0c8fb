/** Who owns a domain when several claimants want it
    (bin/orckerd/src/site_domains.rs, `Claimant` and `build_claims`). */
module Claims {
  import opened Text
  import opened Domains

  /** One entry of the claimant sequence: every site plan, then every proxy plan. */
  datatype Claimant = Claimant(display: string, apex: Domain, effective: seq<Domain>, eligible: bool)

  predicate Wants(c: Claimant, d: Domain) {
    c.eligible && d in c.effective
  }

  /** Wanted for a reason other than being the claimant's own apex. */
  predicate WantsExplicitly(c: Claimant, d: Domain) {
    Wants(c, d) && d != c.apex
  }

  /** The claim order: explicit before implicit, then earlier before later. */
  predicate Beats(cs: seq<Claimant>, d: Domain, i: nat, j: nat)
    requires i < |cs| && j < |cs|
  {
    var ei, ej := WantsExplicitly(cs[i], d), WantsExplicitly(cs[j], d);
    (ei && !ej) || (ei == ej && i < j)
  }

  /** `i` is the claimant of `d` that no other claimant of `d` beats. */
  ghost predicate IsOwner(cs: seq<Claimant>, d: Domain, i: nat) {
    && i < |cs| && Wants(cs[i], d)
    && (forall j :: 0 <= j < |cs| && j != i && Wants(cs[j], d) ==> Beats(cs, d, i, j))
  }

  ghost predicate Wanted(cs: seq<Claimant>, d: Domain) {
    exists i :: 0 <= i < |cs| && Wants(cs[i], d)
  }

  /** The owner index of `d`, if any eligible claimant wants it. */
  ghost function Owner(cs: seq<Claimant>, d: Domain): (r: Option<nat>)
    ensures forall i: nat {:trigger IsOwner(cs, d, i)} :: IsOwner(cs, d, i) <==> r == Some(i)
  {
    if exists i :: IsOwner(cs, d, i) then
      var i :| IsOwner(cs, d, i); Some(i)
    else None
  }

  // ---- The one-pass loop ----

  datatype Claim = Claim(idx: nat, explicit: bool)

  /** `m` says who owns `d` in `cs`, and how: nobody when no eligible claimant wants it. */
  ghost predicate RecordsAt(cs: seq<Claimant>, m: map<Domain, Claim>, d: Domain) {
    && (d in m ==> IsOwner(cs, d, m[d].idx) && m[d].explicit == WantsExplicitly(cs[m[d].idx], d))
    && (Wanted(cs, d) ==> d in m)
  }

  ghost predicate Records(cs: seq<Claimant>, m: map<Domain, Claim>) {
    forall d :: RecordsAt(cs, m, d)
  }

  /** Two claimant sequences agree about `d` when corresponding entries want it the same way. */
  ghost predicate AgreeOn(cs: seq<Claimant>, cs': seq<Claimant>, d: Domain) {
    && |cs| == |cs'|
    && (forall j :: 0 <= j < |cs| ==>
          Wants(cs[j], d) == Wants(cs'[j], d) && WantsExplicitly(cs[j], d) == WantsExplicitly(cs'[j], d))
  }

  lemma AgreeingOwners(cs: seq<Claimant>, cs': seq<Claimant>, d: Domain)
    requires AgreeOn(cs, cs', d)
    ensures forall i: nat :: IsOwner(cs, d, i) <==> IsOwner(cs', d, i)
    ensures Wanted(cs, d) <==> Wanted(cs', d)
    ensures Owner(cs, d) == Owner(cs', d)
  {
    forall i: nat ensures IsOwner(cs, d, i) <==> IsOwner(cs', d, i) {
      if i < |cs| {
        assert forall j: nat :: j < |cs| ==> Beats(cs, d, i, j) == Beats(cs', d, i, j);
      }
    }
    assert Owner(cs, d).Some? ==> IsOwner(cs', d, Owner(cs, d).value);
  }

  /** The claimants the loop has handled: `n` whole ones and the first `k` domains of the next. */
  ghost function Handled(cs: seq<Claimant>, n: nat, k: nat): seq<Claimant>
    requires n < |cs| && k <= |cs[n].effective|
  {
    cs[..n] + [cs[n].(effective := cs[n].effective[..k])]
  }

  /** A claimant that wants nothing (a shadowed one, or one not looked at yet) changes no owner. */
  lemma RecordsIdleClaimant(cs: seq<Claimant>, c: Claimant, m: map<Domain, Claim>)
    requires Records(cs, m) && forall d :: !Wants(c, d)
    ensures Records(cs + [c], m)
  {
    forall d ensures RecordsAt(cs + [c], m, d) {
      assert RecordsAt(cs, m, d);
      if Wanted(cs + [c], d) {
        var i :| 0 <= i < |cs + [c]| && Wants((cs + [c])[i], d);
        assert Wants(cs[i], d);
      }
    }
  }

  /** One turn of the inner loop: the existing claim stays if explicit or if the new one is implicit. */
  lemma RecordsNextDomain(cs: seq<Claimant>, n: nat, k: nat, m: map<Domain, Claim>, m': map<Domain, Claim>)
    requires n < |cs| && cs[n].eligible && k < |cs[n].effective| && Records(Handled(cs, n, k), m)
    requires var d, explicit := cs[n].effective[k], cs[n].effective[k] != cs[n].apex;
             m' == if d in m && (m[d].explicit || !explicit) then m else m[d := Claim(n, explicit)]
    ensures Records(Handled(cs, n, k + 1), m')
  {
    var h, h', d := Handled(cs, n, k), Handled(cs, n, k + 1), cs[n].effective[k];
    assert h'[n].effective == h[n].effective + [d];
    forall e ensures RecordsAt(h', m', e) {
      assert RecordsAt(h, m, e);
      if e != d {
        AgreeingOwners(h, h', e);
      } else {
        assert Wants(h'[n], d);
        forall j | 0 <= j < n ensures Wants(h'[j], d) == Wants(h[j], d) && Wants(h[j], d) ==> d in m {
          if Wants(h[j], d) { assert Wanted(h, d); }
        }
      }
    }
  }

  /** The claim pass computes the declarative owner of every wanted domain, and nothing else. */
  method BuildClaims(cs: seq<Claimant>) returns (claims: map<Domain, nat>)
    ensures forall d :: d in claims <==> Wanted(cs, d)
    ensures forall d :: d in claims ==> IsOwner(cs, d, claims[d])
  {
    var m: map<Domain, Claim> := map[];
    for n := 0 to |cs|
      invariant Records(cs[..n], m)
    {
      if !cs[n].eligible {
        RecordsIdleClaimant(cs[..n], cs[n], m);
        assert cs[..n] + [cs[n]] == cs[..n + 1];
        continue;
      }
      RecordsIdleClaimant(cs[..n], cs[n].(effective := []), m);
      for k := 0 to |cs[n].effective|
        invariant Records(Handled(cs, n, k), m)
      {
        var d := cs[n].effective[k];
        var explicit := d != cs[n].apex;
        ghost var before := m;
        if !(d in m && (m[d].explicit || !explicit)) {
          m := m[d := Claim(n, explicit)];
        }
        RecordsNextDomain(cs, n, k, before, m);
      }
      assert cs[n].effective[..|cs[n].effective|] == cs[n].effective;
      assert Handled(cs, n, |cs[n].effective|) == cs[..n + 1];
    }
    assert cs[..|cs|] == cs;
    claims := map d | d in m :: m[d].idx;
    forall d
      ensures d in claims <==> Wanted(cs, d)
      ensures d in claims ==> IsOwner(cs, d, claims[d])
    {
      assert RecordsAt(cs, m, d);
    }
  }

  /** Every wanted domain has an owner. */
  lemma {:induction false} WantedHasOwner(cs: seq<Claimant>, d: Domain)
    requires Wanted(cs, d)
    ensures Owner(cs, d).Some?
  {
    var n := |cs| - 1;
    var front := cs[..n];
    if Wanted(front, d) {
      WantedHasOwner(front, d);
      var i := Owner(front, d).value;
      assert IsOwner(front, d, i);
      if Wants(cs[n], d) && WantsExplicitly(cs[n], d) && !WantsExplicitly(cs[i], d) {
        assert forall j :: 0 <= j < n && Wants(front[j], d) ==> !WantsExplicitly(front[j], d);
        assert IsOwner(cs, d, n);
      } else {
        assert forall j :: 0 <= j < n ==> front[j] == cs[j];
        assert IsOwner(cs, d, i);
      }
    } else {
      assert forall j :: 0 <= j < n ==> !Wants(front[j], d);
      assert forall j :: 0 <= j < n ==> front[j] == cs[j];
      assert IsOwner(cs, d, n);
    }
  }
}
