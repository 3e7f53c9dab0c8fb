/** What every reachable state of the daemon satisfies: the commit protocol run with the real handlers. */
module Runs {
  import opened Text
  import opened Domains
  import opened Config
  import opened Router
  import opened SiteDomains
  import opened RouterBuild
  import opened Mutate
  import opened Frames
  import opened DomainRequests
  import opened DeltaInvariant
  import opened DomainRelease
  import opened LinkUnlink
  import opened ProxyKeys
  import opened ProxyRequests
  import opened Upstreams
  import opened Groups
  import opened Commit

  ghost function Daemon(): Handlers {
    Handlers((c, sites) => Build(c, sites), (c, r, req) => Apply(c, r, req), (c, sites) => ScanOf(c, sites))
  }

  // ---- What a build reads ----

  /** A router depends on nothing but the TLD, the deltas, the proxies, the projects and the rules. */
  lemma BuildReads(c: Cfg, c': Cfg, sites: seq<Site>)
    requires c'.tld == c.tld && c'.domains == c.domains && c'.proxies == c.proxies && c'.projects == c.projects
    requires c'.proxyRules == c.proxyRules && c'.routeRules == c.routeRules
    ensures Build(c', sites) == Build(c, sites)
  {
    assert PlannedSites(c', sites) == PlannedSites(c, sites);
    var taken := Names(sites, SiteName);
    assert PlannedProxies(c', AllProxies(c'), taken) == PlannedProxies(c, AllProxies(c), taken);
  }

  lemma DaemonIgnoresOverlay()
    ensures IgnoresOverlay(Daemon())
  {
    var h := Daemon();
    forall c: Cfg, c': Cfg, sites | c' == c.(groups := c'.groups, settings := c'.settings)
      ensures h.build(c', sites) == h.build(c, sites)
    {
      BuildReads(c, c', sites);
    }
    forall c, r, req | IsGroupRequest(req)
      ensures h.apply(c, r, req).cfg == c.(groups := h.apply(c, r, req).cfg.groups)
    {
      GroupFrame(c, r, req);
    }
  }

  /** An accepted request that passes validation and meets a scan commits. */
  lemma AcceptedCommits(a: Live, req: Request, c: Cfg, sites: seq<Site>)
    requires !IsGroupRequest(req) && Apply(a.mem, a.router, req) == Done(c) && Validate(c) && ScanOf(c, sites)
    ensures Atomic(Daemon(), a, Committed(Mutation(req), c, sites), Live(c, c, Build(c, sites), sites, true))
  {
    assert Proposes(Daemon(), a, Mutation(req), c);
  }

  /** A committed LinkProject adds the project and nothing else, and unless a scanned site bears its name the
      router sends that to the project's loopback port. */
  lemma CommittedProjectIsRouted(a: Live, p: Project, c: Cfg, sites: seq<Site>, a': Live)
    requires Atomic(Daemon(), a, Committed(LinkProject(p), c, sites), a')
    ensures a'.mem == a.mem.(projects := a.mem.projects + [p]) && a'.disk == a'.mem
    ensures !Scanned(sites, p.name) ==>
              && p.name in a'.router.proxies
              && a'.router.proxies[p.name] == Proxy(p.name, Target("127.0.0.1", p.port), p.secure)
  {
    ValidUpstreamsAreRouted(c, sites, |a.mem.projects|);
  }

  /** Whenever the config mutex is free the router is the build of the in-memory config on the last scan,
      and once anything has been saved disk equals memory, in every interleaving. */
  lemma DaemonStaysInStep(run: seq<Sys>, steps: seq<Step>, n: nat)
    requires ConcurrentRun(Daemon(), run, steps) && InStep(Daemon(), run[0].live)
    requires n <= |steps| && run[n].holder.None?
    ensures var a := run[n].live; a.router == Build(a.mem, a.scan) && (a.saved ==> a.disk == a.mem)
  {
    DaemonIgnoresOverlay();
    RunStaysInStep(Daemon(), run, steps, n);
  }

  // ---- Invariants of the in-memory config ----

  ghost predicate Sound(c: Cfg, r: Routes) {
    LinkedKeys(c) && KnowsLinked(c, r) && ProxySideKeys(c) && GroupsSound(c.groups) && Validate(c)
  }

  lemma MutationIsSound(c: Cfg, r: Routes, req: Request, c': Cfg)
    requires LinkedKeys(c) && KnowsLinked(c, r) && ProxySideKeys(c) && GroupsSound(c.groups)
    requires Apply(c, r, req) == Done(c')
    ensures LinkedKeys(c') && ProxySideKeys(c') && GroupsSound(c'.groups)
  {
    RequestKeepsLinkedKeys(c, r, req);
    RequestKeepsProxyKeys(c, r, req);
    RequestKeepsGroups(c, r, req);
  }

  lemma SameLinkedKeeps(c: Cfg, c': Cfg, r: Routes)
    requires LinkedKeys(c) && KnowsLinked(c, r)
    requires c'.linked == c.linked && c'.domains == c.domains
    requires c'.proxyRules == c.proxyRules && c'.routeRules == c.routeRules
    ensures LinkedKeys(c') && KnowsLinked(c', r)
  {
    SameSitesReflexive(c.linked);
    SameLinked(c, c');
  }

  lemma SameSitesReflexive(sites: seq<Site>)
    ensures SameSites(sites, sites)
  {
  }

  /** The setters that skip validation cannot make a valid config invalid. */
  lemma UncheckedEditsStayValid(c: Cfg, e: SettingEdit)
    requires Validate(c) && !Checks(Setting(e))
    ensures Validate(c.(settings := Edited(c.settings, e)))
  {
    var c' := c.(settings := Edited(c.settings, e));
    SameSitesReflexive(c.linked);
    SameLinked(c, c');
    assert ValidRules(c', c'.proxyRules) && ValidRules(c', c'.routeRules);
    assert NoLoopingRules(c');
    assert ValidProjects(c') by {
      assert forall n :: IsProxy(c', n) <==> IsProxy(c, n);
    }
  }

  lemma CommitIsSound(a: Live, job: Job, c: Cfg, sites: seq<Site>, r: Routes)
    requires Sound(a.mem, a.router) && Proposes(Daemon(), a, job, c) && Rebuilds(job) && Validate(c)
    requires KnowsLinked(c, r)
    ensures Sound(c, r)
  {
    match job {
      case Mutation(req) => MutationIsSound(a.mem, a.router, req, c);
      case LinkProject(p) =>
        SameLinkedKeeps(a.mem, c, a.router);
        ShrinkKeepsKeys(a.mem, c);
    }
  }

  lemma OverlayIsSound(a: Live, job: Job, c: Cfg)
    requires Sound(a.mem, a.router) && Proposes(Daemon(), a, job, c) && !Rebuilds(job) && Dispatched(job)
    requires Checks(job) ==> Validate(c)
    ensures Sound(c, a.router)
  {
    match job {
      case GroupEdit(req) =>
        MutationIsSound(a.mem, a.router, req, c);
        GroupFrame(a.mem, a.router, req);
        SameLinkedKeeps(a.mem, c, a.router);
      case Setting(e) =>
        if !Checks(job) { UncheckedEditsStayValid(a.mem, e); }
        SameLinkedKeeps(a.mem, c, a.router);
        ShrinkKeepsKeys(a.mem, c);
    }
  }

  lemma AtomicKeepsSound(a: Live, e: Event, a': Live)
    requires Sound(a.mem, a.router) && Atomic(Daemon(), a, e, a')
    ensures Sound(a'.mem, a'.router)
  {
    match e {
      case Committed(job, c, sites) =>
        BuildKnowsLinked(c, sites);
        CommitIsSound(a, job, c, sites, a'.router);
      case Overlaid(job, c) => OverlayIsSound(a, job, c);
      case Rescanned(sites) => BuildKnowsLinked(a.mem, sites);
    }
  }

  lemma AtomicRunStaysSound(h: Handlers, run: seq<Live>, events: seq<Event>, n: nat)
    requires AtomicRun(h, run, events) && n <= |events| && Sound(run[0].mem, run[0].router)
    requires h == Daemon()
    ensures Sound(run[n].mem, run[n].router)
  {
    forall a: Live, e, a': Live | Sound(a.mem, a.router) && Atomic(Daemon(), a, e, a')
      ensures Sound(a'.mem, a'.router)
    {
      AtomicKeepsSound(a, e, a');
    }
    AtomicRunKeeps(h, (a: Live) => Sound(a.mem, a.router), run, events, n);
  }

  /** In every interleaving of mutations, project links, group edits, setters and rescans, the config the
      daemon holds when the mutex is free is valid, has linked-side records for linked sites only, and has
      sound groups. */
  lemma ReachableIsSound(run: seq<Sys>, steps: seq<Step>, n: nat)
    requires ConcurrentRun(Daemon(), run, steps) && Sound(run[0].live.mem, run[0].live.router)
    requires n <= |steps| && run[n].holder.None?
    ensures Sound(run[n].live.mem, run[n].live.router)
  {
    var states, events := RunRefines(Daemon(), run, steps, n);
    AtomicRunStaysSound(Daemon(), states, events, |events|);
  }

  /** A committed AddProxy in a sound state meets what its routing result asks for. */
  lemma CommittedProxyIsFresh(c: Cfg, r: Routes, name: Name, target: Target)
    requires ProxySideKeys(c) && DoAddProxy(c, r, Some(name), Some(target)).error.None?
    requires Validate(DoAddProxy(c, r, Some(name), Some(target)).cfg)
    ensures !IsProject(c, name) && name !in c.domains.proxy
  {
    var c' := DoAddProxy(c, r, Some(name), Some(target)).cfg;
    assert c'.proxies[|c.proxies|].name == name;
    assert IsProxy(c', name);
  }

  /** In any sound state, a committed AddProxy whose rebuild meets the same scan routes the proxy's apex to
      it and moves no other domain. */
  lemma ProxyGrantIsExact(c: Cfg, sites: seq<Site>, name: Name, target: Target)
    requires Sound(c, Build(c, sites))
    requires var o := DoAddProxy(c, Build(c, sites), Some(name), Some(target)); o.error.None? && Validate(o.cfg)
    ensures var r := Build(c, sites);
            GrantsOnly(r, Build(DoAddProxy(c, r, Some(name), Some(target)).cfg, sites), name, name)
  {
    CommittedProxyIsFresh(c, Build(c, sites), name, target);
    AddProxyGrants(c, sites, name, target);
  }

  // ---- Deltas, for claimants that keep their names ----

  /** Scans name parked sites after their directories, and Link keeps that name. */
  ghost predicate EventIsNamed(nameOf: Naming, a: Live, e: Event) {
    match e
    case Committed(job, c, sites) => NamedScan(nameOf, c, sites) && (job.Mutation? ==> KeepsNames(nameOf, job.req))
    case Overlaid(_, _) => true
    case Rescanned(sites) => NamedScan(nameOf, a.mem, sites)
  }

  ghost predicate NamedRun(nameOf: Naming, run: seq<Live>, events: seq<Event>) {
    && AtomicRun(Daemon(), run, events)
    && (forall i :: 0 <= i < |events| ==> EventIsNamed(nameOf, run[i], events[i]))
  }

  ghost predicate DeltasSound(nameOf: Naming, a: Live) {
    && DeltasAreWellFormed(nameOf, a.mem.domains) && LinkedKeepNames(nameOf, a.mem)
    && NamedScan(nameOf, a.mem, a.scan)
  }

  lemma NamedScanReads(nameOf: Naming, c: Cfg, c': Cfg, sites: seq<Site>)
    requires NamedScan(nameOf, c, sites) && c'.linked == c.linked
    ensures NamedScan(nameOf, c', sites)
  {
    SameSitesReflexive(c.linked);
    SameLinked(c, c');
  }

  lemma ProposalKeepsDeltas(nameOf: Naming, a: Live, job: Job, c: Cfg)
    requires DeltasSound(nameOf, a) && RoutesAreNamed(nameOf, a.mem, a.router)
    requires Proposes(Daemon(), a, job, c) && (job.Mutation? ==> KeepsNames(nameOf, job.req))
    requires Dispatched(job)
    ensures DeltasAreWellFormed(nameOf, c.domains) && LinkedKeepNames(nameOf, c)
    ensures !Rebuilds(job) ==> c.linked == a.mem.linked
  {
    match job {
      case Mutation(req) => RequestKeepsWellFormed(nameOf, a.mem, a.router, req);
      case GroupEdit(req) => GroupFrame(a.mem, a.router, req);
      case _ =>
    }
  }

  lemma AtomicKeepsDeltas(nameOf: Naming, a: Live, e: Event, a': Live)
    requires InStep(Daemon(), a) && DeltasSound(nameOf, a)
    requires Atomic(Daemon(), a, e, a') && EventIsNamed(nameOf, a, e)
    ensures DeltasSound(nameOf, a')
  {
    BuildIsNamed(nameOf, a.mem, a.scan);
    match e {
      case Committed(job, c, sites) => ProposalKeepsDeltas(nameOf, a, job, c);
      case Overlaid(job, c) =>
        ProposalKeepsDeltas(nameOf, a, job, c);
        NamedScanReads(nameOf, a.mem, c, a.scan);
      case Rescanned(sites) =>
    }
  }

  /** Over every run of whole handlers on claimants that keep their names, every stored delta stays
      well-formed. */
  lemma {:induction false} DeltasStayWellFormed(nameOf: Naming, run: seq<Live>, events: seq<Event>, n: nat)
    requires NamedRun(nameOf, run, events) && n <= |events|
    requires InStep(Daemon(), run[0]) && DeltasSound(nameOf, run[0])
    ensures InStep(Daemon(), run[n]) && DeltasSound(nameOf, run[n])
  {
    if n > 0 {
      DeltasStayWellFormed(nameOf, run, events, n - 1);
      DaemonIgnoresOverlay();
      AtomicKeepsInStep(Daemon(), run[n - 1], events[n - 1], run[n]);
      AtomicKeepsDeltas(nameOf, run[n - 1], events[n - 1], run[n]);
    }
  }

  predicate Grants(e: Event, raw: string, dom: Domain) {
    && e.Committed?
    && (e.job == Mutation(AddDomain(raw, Some(dom))) || e.job == Mutation(SetPrimaryDomain(raw, Some(dom))))
  }

  /** What a granting event did, in terms of the handlers. */
  lemma GrantFacts(a: Live, e: Event, a': Live, raw: string, dom: Domain)
    requires Atomic(Daemon(), a, e, a') && Grants(e, raw, dom)
    ensures Apply(a.mem, a.router, e.job.req) == Done(e.c) && a'.router == Build(e.c, e.sites)
  {
    assert Proposes(Daemon(), a, e.job, e.c);
  }

  lemma GrantIsExact(nameOf: Naming, c: Cfg, sites: seq<Site>, r: Routes, req: Request, c': Cfg, raw: string,
                     dom: Domain)
    requires NamedScan(nameOf, c, sites) && DeltasAreWellFormed(nameOf, c.domains)
    requires req == AddDomain(raw, Some(dom)) || req == SetPrimaryDomain(raw, Some(dom))
    requires r == Build(c, sites) && Apply(c, r, req) == Done(c')
    ensures GrantsOnly(r, Build(c', sites), ToAsciiLower(raw), dom)
  {
    GrantingOutcome(c, r, req, c', raw, dom);
    GrantsNothingElse(nameOf, c, sites, raw, dom);
  }

  lemma GrantingOutcome(c: Cfg, r: Routes, req: Request, c': Cfg, raw: string, dom: Domain)
    requires req == AddDomain(raw, Some(dom)) || req == SetPrimaryDomain(raw, Some(dom))
    requires Apply(c, r, req) == Done(c')
    ensures DoAddDomain(c, r, raw, Some(dom)) == Done(c') || DoSetPrimary(c, r, raw, Some(dom)) == Done(c')
  {
  }

  /** Anywhere in such a run, an accepted AddDomain or SetPrimaryDomain whose rebuild meets the same scan
      gives the named claimant that domain and moves no other. */
  lemma EveryGrantIsExact(nameOf: Naming, run: seq<Live>, events: seq<Event>, i: nat, raw: string, dom: Domain)
    requires NamedRun(nameOf, run, events) && i < |events|
    requires InStep(Daemon(), run[0]) && DeltasSound(nameOf, run[0])
    requires Grants(events[i], raw, dom) && events[i].sites == run[i].scan
    ensures GrantsOnly(run[i].router, run[i + 1].router, ToAsciiLower(raw), dom)
  {
    DeltasStayWellFormed(nameOf, run, events, i);
    var a, e := run[i], events[i];
    GrantFacts(a, e, run[i + 1], raw, dom);
    GrantIsExact(nameOf, a.mem, a.scan, a.router, e.job.req, e.c, raw, dom);
  }

  ghost function NamedApply(nameOf: Naming, c: Cfg, r: Routes, req: Request): Outcome {
    if KeepsNames(nameOf, req) then Apply(c, r, req) else Refused(c, Invalid)
  }

  /** The daemon in a world where scans name sites after directories and clients link under that name. */
  ghost function NamedDaemon(nameOf: Naming): Handlers {
    Handlers(
      (c, sites) => Build(c, sites), (c, r, req) => NamedApply(nameOf, c, r, req),
      (c, sites) => NamedScan(nameOf, c, sites))
  }

  lemma NamedDaemonIsDaemon(nameOf: Naming)
    ensures Extends(NamedDaemon(nameOf), Daemon())
  {
    var h, h' := NamedDaemon(nameOf), Daemon();
    forall c, r, req | NamedApply(nameOf, c, r, req).error.None? ensures h'.apply(c, r, req) == h.apply(c, r, req) {
      assert KeepsNames(nameOf, req) || NamedApply(nameOf, c, r, req) == Refused(c, Invalid);
    }
  }

  lemma NamedProposal(nameOf: Naming, a: Live, req: Request, c: Cfg)
    requires Proposes(NamedDaemon(nameOf), a, Mutation(req), c)
    ensures KeepsNames(nameOf, req)
  {
    assert NamedApply(nameOf, a.mem, a.router, req) == Done(c);
  }

  lemma NamedEvents(nameOf: Naming, h: Handlers, a: Live, e: Event, a': Live)
    requires h == NamedDaemon(nameOf) && Atomic(h, a, e, a')
    ensures EventIsNamed(nameOf, a, e)
  {
    if e.Committed? && e.job.Mutation? {
      NamedProposal(nameOf, a, e.job.req, e.c);
    }
  }

  /** In every interleaving in that world, the deltas of the config the daemon holds when the mutex is
      free are well-formed. */
  lemma ReachableDeltas(nameOf: Naming, run: seq<Sys>, steps: seq<Step>, n: nat)
    requires ConcurrentRun(NamedDaemon(nameOf), run, steps)
    requires InStep(Daemon(), run[0].live) && DeltasSound(nameOf, run[0].live)
    requires n <= |steps| && run[n].holder.None?
    ensures DeltasAreWellFormed(nameOf, run[n].live.mem.domains)
  {
    var states, events := RunRefines(NamedDaemon(nameOf), run, steps, n);
    NamedDaemonIsDaemon(nameOf);
    forall i | 0 <= i < |events|
      ensures Atomic(Daemon(), states[i], events[i], states[i + 1]) && EventIsNamed(nameOf, states[i], events[i])
    {
      AtomicTransfers(NamedDaemon(nameOf), Daemon(), states[i], events[i], states[i + 1]);
      NamedEvents(nameOf, NamedDaemon(nameOf), states[i], events[i], states[i + 1]);
    }
    DeltasStayWellFormed(nameOf, states, events, |events|);
  }
}
