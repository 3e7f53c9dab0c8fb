/** Routable domain sub-parts and the effective-set algebra (crates/orcker-core/src/domain.rs). */
module Domains {
  import opened Text

  /** The part of a host left of the TLD; a leftmost `*` label is a single-label wildcard. */
  type Domain = string

  predicate IsWildcard(d: Domain) {
    "*." <= d
  }

  /** The one implicit domain of a claimant. */
  function Apex(name: string): Domain {
    ToAsciiLower(name)
  }

  lemma ApexOfName(n: Name)
    ensures Apex(n) == n && !IsWildcard(n)
  {
    LowerOfName(n);
    assert NameChar(n[0]);
  }

  predicate HasExact(ds: seq<Domain>) {
    exists i :: 0 <= i < |ds| && !IsWildcard(ds[i])
  }

  /** Append `added` to `out` in order, skipping what is already there. */
  function AppendNew(out: seq<Domain>, added: seq<Domain>): (r: seq<Domain>)
    ensures NoDup(out) ==> NoDup(r)
    ensures out <= r
    ensures forall d :: d in r <==> d in out || d in added
  {
    if added == [] then out
    else
      var r := AppendNew(out, added[..|added| - 1]);
      var d := added[|added| - 1];
      assert added == added[..|added| - 1] + [d];
      if d in r then r else r + [d]
  }

  /** `(apex unless suppressed) + added`, with the apex restored when no exact domain is left. */
  function EffectiveDomains(name: string, added: seq<Domain>, suppressed: seq<Domain>): (r: seq<Domain>)
  {
    var apex := Apex(name);
    var out := AppendNew(if apex in suppressed then [] else [apex], added);
    if HasExact(out) then out else [apex] + out
  }

  /** When the apex is implied: not suppressed, or restored for want of any exact domain. */
  predicate ImpliesApex(name: string, added: seq<Domain>, suppressed: seq<Domain>) {
    Apex(name) !in suppressed || !HasExact(added)
  }

  /** The apex is put in front exactly when it is suppressed and no exact domain was added. */
  lemma RestoredIff(n: Name, added: seq<Domain>, suppressed: seq<Domain>)
    ensures var out := AppendNew(if n in suppressed then [] else [n], added);
            HasExact(out) <==> n !in suppressed || HasExact(added)
  {
    ApexOfName(n);
    var out := AppendNew(if n in suppressed then [] else [n], added);
    if n !in suppressed {
      assert out[0] == n;
    } else if HasExact(added) {
      var i :| 0 <= i < |added| && !IsWildcard(added[i]);
      assert added[i] in out;
    } else {
      forall k | 0 <= k < |out| ensures IsWildcard(out[k]) {
        assert out[k] in added;
      }
    }
  }

  /** What the effective set is, as a set; it never repeats a domain and always has an exact one. */
  lemma EffectiveSet(n: Name, added: seq<Domain>, suppressed: seq<Domain>)
    ensures NoDup(EffectiveDomains(n, added, suppressed))
    ensures HasExact(EffectiveDomains(n, added, suppressed))
    ensures forall d :: d in EffectiveDomains(n, added, suppressed) <==>
                        d in added || (d == n && ImpliesApex(n, added, suppressed))
  {
    ApexOfName(n);
    RestoredIff(n, added, suppressed);
    var out := AppendNew(if n in suppressed then [] else [n], added);
    if !HasExact(out) {
      forall k | 0 <= k < |out| ensures out[k] != n { assert IsWildcard(out[k]); }
      assert ([n] + out)[0] == n;
    }
  }

  /** `x` occurs in `ds` before the first `y`. */
  ghost predicate Precedes(ds: seq<Domain>, x: Domain, y: Domain) {
    exists i :: 0 <= i < |ds| && ds[i] == x && forall j :: 0 <= j <= i ==> ds[j] != y
  }

  lemma {:induction false} AppendNewKeepsOrder(out: seq<Domain>, added: seq<Domain>, a: nat, b: nat)
    requires NoDup(out) && |out| <= a < b < |AppendNew(out, added)|
    ensures var r := AppendNew(out, added); Precedes(added, r[a], r[b])
  {
    var front, d := added[..|added| - 1], added[|added| - 1];
    var r, s := AppendNew(out, added), AppendNew(out, front);
    assert added == front + [d];
    if b < |s| {
      AppendNewKeepsOrder(out, front, a, b);
      var i :| 0 <= i < |front| && front[i] == s[a] && forall j :: 0 <= j <= i ==> front[j] != s[b];
      assert added[i] == r[a];
    } else {
      assert s[a] in s && s[a] !in out by { assert forall i :: 0 <= i < |out| ==> out[i] == s[i]; }
      var i :| 0 <= i < |front| && front[i] == s[a];
      assert added[i] == r[a] && r[b] == d;
      forall j | 0 <= j <= i ensures added[j] != d { assert front[j] in s; }
    }
  }

  /** The order of the set: the apex first when it is implied, then the extra domains as they were added. */
  lemma EffectiveOrder(n: Name, added: seq<Domain>, suppressed: seq<Domain>)
    ensures var r, lead := EffectiveDomains(n, added, suppressed), if ImpliesApex(n, added, suppressed) then 1 else 0;
            && (lead == 1 ==> r != [] && r[0] == n)
            && (forall a, b :: lead <= a < b < |r| ==> Precedes(added, r[a], r[b]))
  {
    ApexOfName(n);
    var base: seq<Domain> := if n in suppressed then [] else [n];
    var out, r := AppendNew(base, added), EffectiveDomains(n, added, suppressed);
    var lead, shift := if ImpliesApex(n, added, suppressed) then 1 else 0, |r| - |out|;
    RestoredIff(n, added, suppressed);
    forall a, b | lead <= a < b < |r| ensures Precedes(added, r[a], r[b]) {
      AppendNewKeepsOrder(base, added, a - shift, b - shift);
      assert r[a] == out[a - shift] && r[b] == out[b - shift];
    }
  }

  /** `effective_domains` as the source runs it. */
  method ComputeEffective(name: string, added: seq<Domain>, suppressed: seq<Domain>) returns (out: seq<Domain>)
    ensures out == EffectiveDomains(name, added, suppressed)
  {
    var apex := Apex(name);
    out := [];
    if apex !in suppressed {
      out := out + [apex];
    }
    ghost var base := out;
    assert base == if apex in suppressed then [] else [apex];
    for k := 0 to |added|
      invariant out == AppendNew(base, added[..k])
    {
      assert added[..k + 1][..k] == added[..k];
      if added[k] !in out {
        out := out + [added[k]];
      }
    }
    assert added[..|added|] == added;
    if !HasExact(out) {
      out := [apex] + out;
    }
  }

  function FirstExact(ds: seq<Domain>, fallback: Domain): Domain {
    if ds == [] then fallback
    else if !IsWildcard(ds[0]) then ds[0]
    else FirstExact(ds[1..], fallback)
  }

  /** The displayed domain: the stored one if exact and present, else the apex, else the first exact one. */
  function ChoosePrimary(name: string, effective: seq<Domain>, stored: Option<Domain>): Domain {
    if stored.Some? && !IsWildcard(stored.value) && stored.value in effective then stored.value
    else if Apex(name) in effective then Apex(name)
    else FirstExact(effective, Apex(name))
  }

  /** The primary is always concrete, and belongs to the set unless the set has no exact domain at all. */
  lemma {:induction false} FirstExactIsExact(ds: seq<Domain>, fallback: Domain)
    requires !IsWildcard(fallback)
    ensures !IsWildcard(FirstExact(ds, fallback))
    ensures HasExact(ds) ==> FirstExact(ds, fallback) in ds
  {
    if ds != [] && IsWildcard(ds[0]) {
      FirstExactIsExact(ds[1..], fallback);
      if HasExact(ds) {
        var i :| 0 <= i < |ds| && !IsWildcard(ds[i]);
        assert ds[1..][i - 1] == ds[i];
      }
    }
  }

  /** `d` is the first exact domain of `ds`. */
  ghost predicate IsFirstExact(ds: seq<Domain>, d: Domain) {
    exists i :: 0 <= i < |ds| && ds[i] == d && !IsWildcard(d) && forall j :: 0 <= j < i ==> IsWildcard(ds[j])
  }

  lemma {:induction false} FirstExactIsFirst(ds: seq<Domain>, fallback: Domain)
    ensures if HasExact(ds) then IsFirstExact(ds, FirstExact(ds, fallback)) else FirstExact(ds, fallback) == fallback
  {
    if ds != [] {
      var rest := ds[1..];
      FirstExactIsFirst(rest, fallback);
      if IsWildcard(ds[0]) {
        assert HasExact(ds) <==> HasExact(rest) by {
          assert forall i :: 0 <= i < |rest| ==> rest[i] == ds[i + 1];
          assert forall i :: 0 < i < |ds| ==> ds[i] == rest[i - 1];
        }
        if HasExact(rest) {
          var d := FirstExact(rest, fallback);
          var i :| 0 <= i < |rest| && rest[i] == d && !IsWildcard(d) && forall j :: 0 <= j < i ==> IsWildcard(rest[j]);
          assert ds[i + 1] == d && forall j :: 0 < j < i + 1 ==> ds[j] == rest[j - 1];
        }
      } else {
        assert IsFirstExact(ds, ds[0]);
      }
    }
  }

  /** Which domain is shown: the stored one while it is exact and in the set, else the apex while that is, else
      the first exact one; the apex again when the set has none. */
  lemma PrimaryIs(n: Name, effective: seq<Domain>, stored: Option<Domain>)
    ensures var d := ChoosePrimary(n, effective, stored);
            if stored.Some? && stored.value in effective && !IsWildcard(stored.value) then stored == Some(d)
            else if n in effective || !HasExact(effective) then d == n
            else IsFirstExact(effective, d)
  {
    ApexOfName(n);
    FirstExactIsFirst(effective, n);
  }

  lemma PrimaryIsConcrete(n: Name, effective: seq<Domain>, stored: Option<Domain>)
    ensures !IsWildcard(ChoosePrimary(n, effective, stored))
    ensures HasExact(effective) ==> ChoosePrimary(n, effective, stored) in effective
  {
    ApexOfName(n);
    FirstExactIsExact(effective, n);
  }
}
