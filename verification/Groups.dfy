/** Site groups over any run of requests (bin/orckerd/src/mutate.rs:804-962). */
module Groups {
  import opened Text
  import opened Config
  import opened Router
  import opened Mutate
  import opened Frames

  // ---- Trimming ----

  predicate Trimmed(s: string) {
    s == "" || (!IsSpace(s[0]) && !IsSpace(s[|s| - 1]))
  }

  lemma {:induction false} TrimStartFacts(s: string)
    ensures var t := TrimStart(s); t == "" || !IsSpace(t[0])
  {
    if s != "" && IsSpace(s[0]) { TrimStartFacts(s[1..]); }
  }

  lemma {:induction false} TrimEndFacts(s: string)
    ensures var t := TrimEnd(s); t <= s && (t == "" || !IsSpace(t[|t| - 1]))
  {
    if s != "" && IsSpace(s[|s| - 1]) { TrimEndFacts(s[..|s| - 1]); }
  }

  lemma TrimIsTrimmed(s: string)
    ensures Trimmed(Trim(s))
  {
    TrimStartFacts(s);
    TrimEndFacts(TrimStart(s));
  }

  ghost predicate AllSpace(s: string) {
    forall i :: 0 <= i < |s| ==> IsSpace(s[i])
  }

  lemma {:induction false} TrimStartTakesSpace(s: string) returns (before: string)
    ensures AllSpace(before) && s == before + TrimStart(s)
  {
    if s != "" && IsSpace(s[0]) {
      var rest := TrimStartTakesSpace(s[1..]);
      before := [s[0]] + rest;
    } else {
      before := "";
    }
  }

  lemma {:induction false} TrimEndTakesSpace(s: string) returns (after: string)
    ensures AllSpace(after) && s == TrimEnd(s) + after
  {
    if s != "" && IsSpace(s[|s| - 1]) {
      var rest := TrimEndTakesSpace(s[..|s| - 1]);
      after := rest + [s[|s| - 1]];
    } else {
      after := "";
    }
  }

  /** Trimming takes white space off both ends, all of it, and nothing else. */
  lemma TrimTakesSpace(s: string) returns (before: string, after: string)
    ensures AllSpace(before) && AllSpace(after) && s == before + Trim(s) + after && Trimmed(Trim(s))
  {
    TrimIsTrimmed(s);
    before := TrimStartTakesSpace(s);
    after := TrimEndTakesSpace(TrimStart(s));
    assert before + (Trim(s) + after) == before + Trim(s) + after;
  }

  // ---- The invariant ----

  ghost predicate GoodName(g: string) {
    Trimmed(g) && g != "" && !ReservedName(g)
  }

  ghost predicate GoodNames(order: seq<string>) {
    forall i :: 0 <= i < |order| ==> GoodName(order[i])
  }

  ghost predicate DistinctIgnoringCase(order: seq<string>) {
    forall i, j :: 0 <= i < j < |order| ==> !SameIgnoringCase(order[i], order[j])
  }

  ghost predicate MembersListed(g: GroupsSection) {
    forall s :: s in g.members ==> g.members[s] in g.order
  }

  /** Names trimmed, non-empty, not reserved and distinct ignoring case; every membership spelled as listed. */
  ghost predicate GroupsSound(g: GroupsSection) {
    GoodNames(g.order) && DistinctIgnoringCase(g.order) && MembersListed(g)
  }

  lemma SoundGroupsValidate(g: GroupsSection)
    requires GroupsSound(g)
    ensures ValidGroups(g)
  {
    forall k | k in g.members ensures exists i :: 0 <= i < |g.order| && SameIgnoringCase(g.order[i], g.members[k]) {
      var i :| 0 <= i < |g.order| && g.order[i] == g.members[k];
      assert SameIgnoringCase(g.order[i], g.members[k]);
    }
  }

  lemma CreateIsSound(c: Cfg, raw: string)
    requires GroupsSound(c.groups) && DoCreateGroup(c, raw).error.None?
    ensures GroupsSound(DoCreateGroup(c, raw).cfg.groups)
  {
    TrimIsTrimmed(raw);
    var g' := DoCreateGroup(c, raw).cfg.groups;
    forall s | s in g'.members ensures g'.members[s] in g'.order {
      assert c.groups.members[s] in c.groups.order;
    }
  }

  lemma WithoutGroupFacts(order: seq<string>, name: string)
    ensures forall g :: g in WithoutGroup(order, name) <==> g in order && !SameIgnoringCase(g, name)
    ensures DistinctIgnoringCase(order) ==> DistinctIgnoringCase(WithoutGroup(order, name))
  {
    FilterFacts(order, Not(GroupNamed(name)));
    var at := FilterPositions(order, Not(GroupNamed(name)));
  }

  lemma DeleteIsSound(c: Cfg, name: string)
    requires GroupsSound(c.groups)
    ensures GroupsSound(DoDeleteGroup(c, name).cfg.groups)
  {
    WithoutGroupFacts(c.groups.order, name);
    var g' := DoDeleteGroup(c, name).cfg.groups;
    forall i | 0 <= i < |g'.order| ensures GoodName(g'.order[i]) {
      assert g'.order[i] in c.groups.order;
    }
  }

  lemma PermutedStayDistinct(a: seq<string>, b: seq<string>)
    requires multiset(a) == multiset(b) && DistinctIgnoringCase(a)
    ensures DistinctIgnoringCase(b)
  {
    NoDupCounts(a);
    NoDupCounts(b);
    forall i, j | 0 <= i < j < |b| ensures !SameIgnoringCase(b[i], b[j]) {
      assert b[i] in multiset(a) && b[j] in multiset(a);
      var k :| 0 <= k < |a| && a[k] == b[i];
      var l :| 0 <= l < |a| && a[l] == b[j];
      assert k != l && !SameIgnoringCase(a[if k < l then k else l], a[if k < l then l else k]);
    }
  }

  lemma ReorderIsSound(c: Cfg, order: seq<string>)
    requires GroupsSound(c.groups) && DoSetGroupOrder(c, order).error.None?
    ensures GroupsSound(DoSetGroupOrder(c, order).cfg.groups)
  {
    PermutedStayDistinct(c.groups.order, order);
    forall i | 0 <= i < |order| ensures GoodName(order[i]) {
      assert order[i] in multiset(c.groups.order);
    }
    forall s | s in c.groups.members ensures c.groups.members[s] in order {
      assert c.groups.members[s] in multiset(c.groups.order);
    }
  }

  // ---- Renaming ----

  /** The position of the group a member belongs to. */
  ghost function Place(g: GroupsSection, s: string): (i: nat)
    requires GroupsSound(g) && s in g.members
    ensures i < |g.order| && g.order[i] == g.members[s]
  {
    var i: nat :| i < |g.order| && g.order[i] == g.members[s];
    i
  }

  lemma PlaceIs(g: GroupsSection, s: string, i: nat)
    requires GroupsSound(g) && s in g.members && i < |g.order| && g.order[i] == g.members[s]
    ensures Place(g, s) == i
  {
    var k := Place(g, s);
    assert SameIgnoringCase(g.order[k], g.order[i]);
    assert !(i < k) && !(k < i);
  }

  lemma RenameIsSound(c: Cfg, from: string, to: string)
    requires GroupsSound(c.groups) && DoRenameGroup(c, from, to).error.None?
    ensures GroupsSound(DoRenameGroup(c, from, to).cfg.groups)
  {
    TrimIsTrimmed(to);
    var g, g' := c.groups, DoRenameGroup(c, from, to).cfg.groups;
    var i := FindGroup(g.order, from);
    forall s | s in g'.members ensures g'.members[s] in g'.order {
      var k := Place(g, s);
      assert g'.members[s] == g'.order[k] by {
        if k != i { RenamedMember(g, i, from, s); }
      }
    }
  }

  /** Only members of the renamed group answer to the old name. */
  lemma RenamedMember(g: GroupsSection, i: nat, from: string, s: string)
    requires GroupsSound(g) && i < |g.order| && SameIgnoringCase(g.order[i], from) && s in g.members
    ensures SameIgnoringCase(g.members[s], from) <==> Place(g, s) == i
  {
    var k := Place(g, s);
    if SameIgnoringCase(g.members[s], from) {
      assert SameIgnoringCase(g.order[k], g.order[i]) && SameIgnoringCase(g.order[i], g.order[k]);
      assert !(i < k) && !(k < i);
    }
  }

  /** A rename keeps every group's position and every other name, and every member stays in the group at
      the same position. */
  lemma RenameKeepsPlaces(c: Cfg, from: string, to: string)
    requires GroupsSound(c.groups) && DoRenameGroup(c, from, to).error.None?
    ensures var g, g' := c.groups, DoRenameGroup(c, from, to).cfg.groups;
            && |g'.order| == |g.order|
            && (forall i :: 0 <= i < |g.order| ==>
                  g'.order[i] == if SameIgnoringCase(g.order[i], from) then Trim(to) else g.order[i])
            && g'.members.Keys == g.members.Keys
            && GroupsSound(g') && (forall s :: s in g.members ==> Place(g', s) == Place(g, s))
  {
    var g, g' := c.groups, DoRenameGroup(c, from, to).cfg.groups;
    var i := FindGroup(g.order, from);
    RenameIsSound(c, from, to);
    forall k | 0 <= k < |g.order| ensures SameIgnoringCase(g.order[k], from) <==> k == i {
      if SameIgnoringCase(g.order[k], from) {
        assert SameIgnoringCase(g.order[k], g.order[i]) && SameIgnoringCase(g.order[i], g.order[k]);
        assert !(i < k) && !(k < i);
      }
    }
    forall s | s in g.members ensures Place(g', s) == Place(g, s) {
      RenamedMember(g, i, from, s);
      PlaceIs(g', s, Place(g, s));
    }
  }

  /** Members share a group after a rename exactly when they did before. */
  lemma RenameKeepsPartition(c: Cfg, from: string, to: string, s: string, t: string)
    requires GroupsSound(c.groups) && DoRenameGroup(c, from, to).error.None?
    requires s in c.groups.members && t in c.groups.members
    ensures var g, g' := c.groups, DoRenameGroup(c, from, to).cfg.groups;
            g'.members[s] == g'.members[t] <==> g.members[s] == g.members[t]
  {
    var g, g' := c.groups, DoRenameGroup(c, from, to).cfg.groups;
    RenameKeepsPlaces(c, from, to);
    assert Place(g', s) == Place(g, s) && Place(g', t) == Place(g, t);
    if g'.members[s] == g'.members[t] { PlaceIs(g', s, Place(g', t)); }
    if g.members[s] == g.members[t] { PlaceIs(g, s, Place(g, t)); }
  }

  // ---- All requests ----

  /** Every accepted request keeps the groups sound. */
  lemma RequestKeepsGroups(c: Cfg, r: Routes, req: Request)
    requires GroupsSound(c.groups) && Apply(c, r, req).error.None?
    ensures GroupsSound(Apply(c, r, req).cfg.groups)
  {
    match req {
      case CreateGroup(name) => CreateIsSound(c, name);
      case DeleteGroup(name) => DeleteIsSound(c, name);
      case SetGroupOrder(order) => ReorderIsSound(c, order);
      case SetSiteGroup(site, group) =>
        if group.Some? { AssignIsSound(c, site, group.value); }
      case RenameGroup(from, to) => RenameIsSound(c, from, to);
      case _ => OthersKeepGroups(c, r, req);
    }
  }

  lemma AssignIsSound(c: Cfg, site: string, group: string)
    requires GroupsSound(c.groups) && DoSetSiteGroup(c, site, Some(group)).error.None?
    ensures GroupsSound(DoSetSiteGroup(c, site, Some(group)).cfg.groups)
    ensures var g' := DoSetSiteGroup(c, site, Some(group)).cfg.groups;
            ToAsciiLower(site) in g'.members && SameIgnoringCase(g'.members[ToAsciiLower(site)], group)
  {
    var i := FindGroup(c.groups.order, group);
    assert c.groups.order[i] in c.groups.order;
  }

  lemma OthersKeepGroups(c: Cfg, r: Routes, req: Request)
    requires !IsGroupRequest(req)
    ensures Apply(c, r, req).cfg.groups == c.groups
  {
    if IsFlagRequest(req) {
      FlagFrame(c, r, req);
    } else if IsDomainRequest(req) {
      DomainFrame(c, r, req);
    } else if IsRuleRequest(req) {
      RuleFrame(c, r, req);
    }
  }

  /** A deleted group takes exactly its own members with it and leaves the others where they were. */
  lemma DeleteForgetsExactly(c: Cfg, name: string, s: string)
    requires GroupsSound(c.groups)
    ensures var g, g' := c.groups, DoDeleteGroup(c, name).cfg.groups;
            && !HasGroup(g'.order, name)
            && (s in g'.members <==> s in g.members && !SameIgnoringCase(g.members[s], name))
            && (s in g'.members ==> g'.members[s] == g.members[s])
  {
    var g' := DoDeleteGroup(c, name).cfg.groups;
    WithoutGroupFacts(c.groups.order, name);
    assert forall i :: 0 <= i < |g'.order| ==> g'.order[i] in g'.order;
  }

  // ---- What each edit stores ----

  /** A group is created exactly under a trimmed name that is not empty, not reserved and not taken in any case,
      and then goes last. */
  lemma CreateAppends(c: Cfg, raw: string)
    ensures var o, name := DoCreateGroup(c, raw), Trim(raw);
            && (o.error.None? <==>
                  && name != "" && !SameIgnoringCase(name, "Unallocated")
                  && forall g :: g in c.groups.order ==> !SameIgnoringCase(g, name))
            && (o.error.None? ==>
                  && o.cfg == c.(groups := o.cfg.groups) && o.cfg.groups.members == c.groups.members
                  && |o.cfg.groups.order| == |c.groups.order| + 1
                  && c.groups.order <= o.cfg.groups.order && o.cfg.groups.order[|c.groups.order|] == name)
  {
    assert forall i :: 0 <= i < |c.groups.order| ==> c.groups.order[i] in c.groups.order;
  }

  /** An order is accepted exactly when it permutes the listed names, and is then the order. */
  lemma ReorderStores(c: Cfg, order: seq<string>)
    ensures var o := DoSetGroupOrder(c, order);
            && (o.error.None? <==> multiset(order) == multiset(c.groups.order))
            && (o.error.None? ==>
                  && o.cfg == c.(groups := o.cfg.groups)
                  && o.cfg.groups.order == order && o.cfg.groups.members == c.groups.members)
  {
  }

  /** A site is put in the listed group of the name in any case, or in none, and no other site moves. */
  lemma AssignStores(c: Cfg, site: string, group: Option<string>)
    ensures var o, key := DoSetSiteGroup(c, site, group), ToAsciiLower(site);
            && (o.error.None? <==> group.None? || exists g :: g in c.groups.order && SameIgnoringCase(g, group.value))
            && (o.error.None? ==>
                  var g' := o.cfg.groups;
                  && o.cfg == c.(groups := g') && g'.order == c.groups.order
                  && (key in g'.members <==> group.Some?)
                  && (group.Some? ==>
                        g'.members[key] in c.groups.order && SameIgnoringCase(g'.members[key], group.value))
                  && (forall s :: s != key ==> (s in g'.members <==> s in c.groups.members))
                  && (forall s :: s != key && s in g'.members && s in c.groups.members ==>
                        g'.members[s] == c.groups.members[s]))
  {
    assert forall i :: 0 <= i < |c.groups.order| ==> c.groups.order[i] in c.groups.order;
  }

  /** A deleted group is gone in every case, the other names stay in their order. */
  lemma DeleteStores(c: Cfg, name: string) returns (at: seq<nat>)
    ensures var o := DoDeleteGroup(c, name);
            var order, order' := c.groups.order, o.cfg.groups.order;
            && o.error.None? && o.cfg == c.(groups := o.cfg.groups)
            && (forall g :: g in order' <==> g in order && !SameIgnoringCase(g, name))
            && |at| == |order'| && (forall i :: 0 <= i < |at| ==> at[i] < |order| && order'[i] == order[at[i]])
            && (forall i, j :: 0 <= i < j < |at| ==> at[i] < at[j])
  {
    WithoutGroupFacts(c.groups.order, name);
    at := FilterPositions(c.groups.order, Not(GroupNamed(name)));
  }
}
