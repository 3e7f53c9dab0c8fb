/** The commit protocol: handlers that interleave around the config mutex, one step at a time, and the
    atomic machine they refine (bin/orckerd/src/ipc_server.rs:966-1427, 1719-1752;
    bin/orckerd/src/fs_watch.rs:89-111). */
module Commit {
  import opened Text
  import opened Config
  import opened Router
  import opened Mutate

  /** The parts of the daemon the protocol calls but does not look into. */
  datatype Handlers = Handlers(
    build: (Cfg, seq<Site>) -> Routes,
    apply: (Cfg, Routes, Request) -> Outcome,
    scans: (Cfg, seq<Site>) -> bool)

  datatype SettingEdit =
    | MailPort(port: nat)
    | DnsPort(port: nat)
    | FallbackPorts(http: nat, https: nat)
    | UpdateChannel(channel: string)
    | MailEnabled(on: bool)
    | SymlinkProtection(on: bool)
    | McpEnabled(on: bool)
    | LanEnabled(on: bool)

  function Edited(s: Settings, e: SettingEdit): Settings {
    match e
    case MailPort(p) => s.(mailPort := p)
    case DnsPort(p) => s.(dnsPort := p)
    case FallbackPorts(h, t) => s.(fallbackHttp := h, fallbackHttps := t)
    case UpdateChannel(c) => s.(updateChannel := c)
    case MailEnabled(b) => s.(mailEnabled := b)
    case SymlinkProtection(b) => s.(symlinkProtection := b)
    case McpEnabled(b) => s.(mcpEnabled := b)
    case LanEnabled(b) => s.(lanEnabled := b)
  }

  /** The settings already say what a setter would write. */
  predicate Says(s: Settings, e: SettingEdit) {
    match e
    case MailPort(p) => s.mailPort == p
    case DnsPort(p) => s.dnsPort == p
    case FallbackPorts(h, t) => s.fallbackHttp == h && s.fallbackHttps == t
    case UpdateChannel(c) => s.updateChannel == c
    case MailEnabled(b) => s.mailEnabled == b
    case SymlinkProtection(b) => s.symlinkProtection == b
    case McpEnabled(b) => s.mcpEnabled == b
    case LanEnabled(b) => s.lanEnabled == b
  }

  /** Two setters of one field, or pair of fields. */
  predicate SameSetting(e: SettingEdit, f: SettingEdit) {
    || (e.MailPort? && f.MailPort?) || (e.DnsPort? && f.DnsPort?) || (e.FallbackPorts? && f.FallbackPorts?)
    || (e.UpdateChannel? && f.UpdateChannel?) || (e.MailEnabled? && f.MailEnabled?)
    || (e.SymlinkProtection? && f.SymlinkProtection?) || (e.McpEnabled? && f.McpEnabled?)
    || (e.LanEnabled? && f.LanEnabled?)
  }

  /** A setter writes its own setting and leaves every other as it was: afterwards the settings say what was set,
      and about any other setting what they said before. */
  lemma SettersWriteTheirOwn(s: Settings, e: SettingEdit, f: SettingEdit)
    ensures Says(Edited(s, e), e)
    ensures !SameSetting(e, f) ==> (Says(Edited(s, e), f) <==> Says(s, f))
    ensures SameSetting(e, f) ==> (Says(Edited(s, e), f) <==> e == f)
  {
  }

  // ---- State ----

  /** What is shared: memory, disk, the live router, and, for the record, the scan of the last rebuild
      and whether anything has been saved since startup. */
  datatype Live = Live(mem: Cfg, disk: Cfg, router: Routes, scan: seq<Site>, saved: bool)

  datatype Job =
    | Mutation(req: Request)
    | LinkProject(project: Project)
    | GroupEdit(req: Request)
    | Setting(edit: SettingEdit)
    | Rescan
    | Report

  /** Where a task stands between two of its atomic actions. */
  datatype Phase =
    | Waiting
    | Locked
    | Applied(candidate: Cfg)
    | Validated(candidate: Cfg)
    | Built(candidate: Cfg, sites: seq<Site>, router: Routes)
    | Saved(candidate: Cfg, sites: seq<Site>, router: Routes)
    | SavedOverlay(candidate: Cfg)
    | Swapped(sites: seq<Site>, router: Routes)
    | Finished

  datatype Task = Task(job: Job, phase: Phase)

  /** `base` remembers what the mutex holder found when it got the mutex. */
  datatype Sys = Sys(live: Live, base: Live, holder: Option<nat>, tasks: map<nat, Task>)

  predicate Rebuilds(job: Job) { job.Mutation? || job.LinkProject? }

  /** The boolean setters save without validating. */
  predicate Checks(job: Job) {
    match job
    case Setting(e) => e.MailPort? || e.DnsPort? || e.FallbackPorts? || e.UpdateChannel?
    case _ => true
  }

  /** Requests reach the handler meant for them; a zero DNS port is turned away before the lock. */
  predicate Dispatched(job: Job) {
    match job
    case Mutation(req) => !IsGroupRequest(req)
    case GroupEdit(req) => IsGroupRequest(req)
    case Setting(DnsPort(p)) => p != 0
    case _ => true
  }

  // ---- Steps ----

  /** Where a handler gives up: the delta is refused, validation, the scan or the save fails. */
  ghost predicate MayFail(h: Handlers, live: Live, job: Job, phase: Phase) {
    match phase
    case Locked =>
      (match job
       case Mutation(req) => h.apply(live.mem, live.router, req).error.Some?
       case GroupEdit(req) => h.apply(live.mem, live.router, req).error.Some?
       case LinkProject(_) => true
       case Rescan => true
       case _ => false)
    case Applied(c) => Checks(job) && !Validate(c)
    case Validated(_) => true
    case Built(_, _, _) => Rebuilds(job)
    case _ => false
  }

  /** The candidate config a handler prepares from what it finds. */
  ghost predicate Proposes(h: Handlers, live: Live, job: Job, c: Cfg) {
    match job
    case Mutation(req) => h.apply(live.mem, live.router, req) == Done(c)
    case GroupEdit(req) => h.apply(live.mem, live.router, req) == Done(c)
    case LinkProject(p) => c == live.mem.(projects := live.mem.projects + [p])
    case Setting(e) => c == live.mem.(settings := Edited(live.mem.settings, e))
    case _ => false
  }

  /** One action of the mutex holder, from phase `p` to phase `q`. */
  ghost predicate Moves(h: Handlers, job: Job, live: Live, p: Phase, live': Live, q: Phase) {
    match q
    case Applied(c) => p.Locked? && Proposes(h, live, job, c) && live' == live
    case Validated(c) => p == Applied(c) && (Checks(job) ==> Validate(c)) && live' == live
    case Built(c, sites, r) =>
      && (if job.Rescan? then p.Locked? && c == live.mem else Rebuilds(job) && p == Validated(c))
      && h.scans(c, sites) && r == h.build(c, sites) && live' == live
    case Saved(c, sites, r) => p == Built(c, sites, r) && Rebuilds(job) && live' == live.(disk := c, saved := true)
    case SavedOverlay(c) => p == Validated(c) && !Rebuilds(job) && live' == live.(disk := c, saved := true)
    case Swapped(sites, r) =>
      if job.Rescan? then p == Built(live.mem, sites, r) && live' == live
      else p.Saved? && p.sites == sites && p.router == r && live' == live.(mem := p.candidate)
    case Finished =>
      || (p.Swapped? && live' == live.(router := p.router, scan := p.sites))
      || (p.SavedOverlay? && live' == live.(mem := p.candidate))
      || (p.Locked? && job.Report? && live' == live)
    case _ => false
  }

  datatype Step =
    | Arrive(t: nat, job: Job)
    | Acquire(t: nat)
    | Move(t: nat, live: Live, phase: Phase)
    | Fail(t: nat)
    | Release(t: nat)

  ghost predicate Next(h: Handlers, s: Sys, st: Step, s': Sys) {
    match st
    case Arrive(t, job) => t !in s.tasks && Dispatched(job) && s' == s.(tasks := s.tasks[t := Task(job, Waiting)])
    case Acquire(t) =>
      && s.holder.None? && t in s.tasks && s.tasks[t].phase.Waiting?
      && s' == s.(holder := Some(t), base := s.live, tasks := s.tasks[t := s.tasks[t].(phase := Locked)])
    case Move(t, live, phase) =>
      && s.holder == Some(t) && t in s.tasks
      && Moves(h, s.tasks[t].job, s.live, s.tasks[t].phase, live, phase)
      && s' == s.(live := live, tasks := s.tasks[t := s.tasks[t].(phase := phase)])
    case Fail(t) =>
      && s.holder == Some(t) && t in s.tasks
      && MayFail(h, s.live, s.tasks[t].job, s.tasks[t].phase)
      && s' == s.(holder := None, tasks := s.tasks - {t})
    case Release(t) =>
      && s.holder == Some(t) && t in s.tasks && s.tasks[t].phase.Finished?
      && s' == s.(holder := None, tasks := s.tasks - {t})
  }

  // ---- The atomic machine ----

  /** What a successful handler does, in one go. */
  datatype Event =
    | Committed(job: Job, c: Cfg, sites: seq<Site>)
    | Overlaid(job: Job, c: Cfg)
    | Rescanned(sites: seq<Site>)

  ghost predicate Atomic(h: Handlers, a: Live, e: Event, a': Live) {
    match e
    case Committed(job, c, sites) =>
      && Rebuilds(job) && Dispatched(job) && Proposes(h, a, job, c) && Validate(c) && h.scans(c, sites)
      && a' == Live(c, c, h.build(c, sites), sites, true)
    case Overlaid(job, c) =>
      && !Rebuilds(job) && Dispatched(job) && Proposes(h, a, job, c) && (Checks(job) ==> Validate(c))
      && a' == a.(mem := c, disk := c, saved := true)
    case Rescanned(sites) =>
      && h.scans(a.mem, sites)
      && a' == a.(router := h.build(a.mem, sites), scan := sites)
  }

  /** What the rest of the daemon may take to be the state: while a handler holds the mutex, what it found. */
  function Abs(s: Sys): Live {
    if s.holder.None? then s.live else s.base
  }

  // ---- What the holder has done so far ----

  /** The proposal behind a candidate config, checked as far as the handler checks it. */
  ghost predicate Accepted(h: Handlers, base: Live, job: Job, c: Cfg) {
    Proposes(h, base, job, c) && (Checks(job) ==> Validate(c))
  }

  ghost predicate Progress(h: Handlers, base: Live, live: Live, job: Job, phase: Phase) {
    match phase
    case Waiting => false
    case Locked => live == base
    case Applied(c) => live == base && Proposes(h, base, job, c)
    case Validated(c) => live == base && Accepted(h, base, job, c)
    case Built(c, sites, r) =>
      && live == base && h.scans(c, sites) && r == h.build(c, sites)
      && (if job.Rescan? then c == base.mem else Rebuilds(job) && Accepted(h, base, job, c))
    case Saved(c, sites, r) =>
      && live == base.(disk := c, saved := true) && h.scans(c, sites) && r == h.build(c, sites)
      && Rebuilds(job) && Accepted(h, base, job, c)
    case SavedOverlay(c) =>
      live == base.(disk := c, saved := true) && !Rebuilds(job) && Accepted(h, base, job, c)
    case Swapped(sites, r) =>
      && h.scans(live.mem, sites) && r == h.build(live.mem, sites)
      && (if job.Rescan? then live == base
          else && live == base.(mem := live.mem, disk := live.mem, saved := true)
               && Rebuilds(job) && Accepted(h, base, job, live.mem))
    case Finished => live == base || exists e :: Atomic(h, base, e, live)
  }

  ghost predicate Inv(h: Handlers, s: Sys) {
    && (forall t :: t in s.tasks ==> Dispatched(s.tasks[t].job))
    && (forall t :: t in s.tasks && s.holder != Some(t) ==> s.tasks[t].phase.Waiting?)
    && (s.holder.Some? ==>
          && s.holder.value in s.tasks
          && Progress(h, s.base, s.live, s.tasks[s.holder.value].job, s.tasks[s.holder.value].phase))
  }

  lemma FinishingIsAtomic(h: Handlers, base: Live, live: Live, job: Job, p: Phase, live': Live)
    requires Dispatched(job) && Progress(h, base, live, job, p) && Moves(h, job, live, p, live', Finished)
    ensures Progress(h, base, live', job, Finished)
  {
    if p.Swapped? {
      if job.Rescan? {
        assert Atomic(h, base, Rescanned(p.sites), live');
      } else {
        assert Atomic(h, base, Committed(job, live.mem, p.sites), live');
      }
    } else if p.SavedOverlay? {
      assert Atomic(h, base, Overlaid(job, p.candidate), live');
    }
  }

  lemma MovesKeepProgress(h: Handlers, base: Live, live: Live, job: Job, p: Phase, live': Live, q: Phase)
    requires Dispatched(job) && Progress(h, base, live, job, p) && Moves(h, job, live, p, live', q)
    ensures Progress(h, base, live', job, q)
  {
    if q.Finished? {
      FinishingIsAtomic(h, base, live, job, p, live');
    }
  }

  lemma NextKeepsInv(h: Handlers, s: Sys, st: Step, s': Sys)
    requires Inv(h, s) && Next(h, s, st, s')
    ensures Inv(h, s')
  {
    if st.Move? {
      MovesKeepProgress(h, s.base, s.live, s.tasks[st.t].job, s.tasks[st.t].phase, st.live, st.phase);
    }
  }

  /** A handler that fails has changed neither memory, disk nor router. */
  lemma FailureChangesNothing(h: Handlers, s: Sys, t: nat, s': Sys)
    requires Inv(h, s) && Next(h, s, Fail(t), s')
    ensures s'.live == s.base && Abs(s') == Abs(s)
  {
  }

  ghost predicate StuttersOrActs(h: Handlers, a: Live, a': Live) {
    a' == a || exists e :: Atomic(h, a, e, a')
  }

  /** Every step of the concurrent machine is invisible or is one atomic event. */
  lemma NextRefines(h: Handlers, s: Sys, st: Step, s': Sys)
    requires Inv(h, s) && Next(h, s, st, s')
    ensures StuttersOrActs(h, Abs(s), Abs(s'))
  {
    if st.Fail? {
      FailureChangesNothing(h, s, st.t, s');
    }
  }

  // ---- Whole runs ----

  ghost predicate Init(s: Sys) {
    s.holder.None? && s.tasks == map[]
  }

  ghost predicate ConcurrentRun(h: Handlers, run: seq<Sys>, steps: seq<Step>) {
    && |run| == |steps| + 1 && Init(run[0])
    && (forall i :: 0 <= i < |steps| ==> Next(h, run[i], steps[i], run[i + 1]))
  }

  ghost predicate AtomicRun(h: Handlers, run: seq<Live>, events: seq<Event>) {
    && |run| == |events| + 1
    && (forall i :: 0 <= i < |events| ==> Atomic(h, run[i], events[i], run[i + 1]))
  }

  lemma ExtendRun(h: Handlers, run: seq<Live>, events: seq<Event>, e: Event, a: Live)
    requires AtomicRun(h, run, events) && Atomic(h, run[|events|], e, a)
    ensures AtomicRun(h, run + [a], events + [e])
  {
  }

  lemma {:induction false} RunKeepsInv(h: Handlers, run: seq<Sys>, steps: seq<Step>, n: nat)
    requires ConcurrentRun(h, run, steps) && n <= |steps|
    ensures Inv(h, run[n])
  {
    if n > 0 {
      RunKeepsInv(h, run, steps, n - 1);
      NextKeepsInv(h, run[n - 1], steps[n - 1], run[n]);
    }
  }

  /** Whatever the interleaving, the run so far amounts to some run of whole handlers, one after another. */
  lemma {:induction false} RunRefines(h: Handlers, run: seq<Sys>, steps: seq<Step>, n: nat)
    returns (states: seq<Live>, events: seq<Event>)
    requires ConcurrentRun(h, run, steps) && n <= |steps|
    ensures AtomicRun(h, states, events)
    ensures states[0] == run[0].live && states[|events|] == Abs(run[n])
  {
    if n == 0 {
      states, events := [run[0].live], [];
    } else {
      states, events := RunRefines(h, run, steps, n - 1);
      RunKeepsInv(h, run, steps, n - 1);
      NextRefines(h, run[n - 1], steps[n - 1], run[n]);
      if Abs(run[n]) != Abs(run[n - 1]) {
        var e :| Atomic(h, Abs(run[n - 1]), e, Abs(run[n]));
        states, events := states + [Abs(run[n])], events + [e];
      }
    }
  }

  /** Everything `h` accepts, `h'` accepts with the same result. */
  ghost predicate Extends(h: Handlers, h': Handlers) {
    && (forall c, sites :: h'.build(c, sites) == h.build(c, sites))
    && (forall c, sites :: h.scans(c, sites) ==> h'.scans(c, sites))
    && (forall c, r, req :: h.apply(c, r, req).error.None? ==> h'.apply(c, r, req) == h.apply(c, r, req))
  }

  lemma AtomicTransfers(h: Handlers, h': Handlers, a: Live, e: Event, a': Live)
    requires Extends(h, h') && Atomic(h, a, e, a')
    ensures Atomic(h', a, e, a')
  {
  }

  /** What every event keeps, every run of events keeps. */
  lemma {:induction false} AtomicRunKeeps(h: Handlers, keeps: Live -> bool, run: seq<Live>, events: seq<Event>, n: nat)
    requires AtomicRun(h, run, events) && n <= |events| && keeps(run[0])
    requires forall a, e, a' :: keeps(a) && Atomic(h, a, e, a') ==> keeps(a')
    ensures keeps(run[n])
  {
    if n > 0 {
      AtomicRunKeeps(h, keeps, run, events, n - 1);
      assert Atomic(h, run[n - 1], events[n - 1], run[n - 1 + 1]);
    }
  }

  // ---- What holds whenever the mutex is free ----

  /** Groups and settings play no part in building a router. */
  ghost predicate IgnoresOverlay(h: Handlers) {
    && (forall c: Cfg, c': Cfg, sites :: c' == c.(groups := c'.groups, settings := c'.settings) ==>
          h.build(c', sites) == h.build(c, sites))
    && (forall c, r, req :: IsGroupRequest(req) ==>
          h.apply(c, r, req).cfg == c.(groups := h.apply(c, r, req).cfg.groups))
  }

  /** The router is the one the in-memory config gives on the last scan, and once anything has been saved
      disk and memory agree. */
  ghost predicate InStep(h: Handlers, a: Live) {
    a.router == h.build(a.mem, a.scan) && (a.saved ==> a.disk == a.mem)
  }

  lemma AtomicKeepsInStep(h: Handlers, a: Live, e: Event, a': Live)
    requires IgnoresOverlay(h) && InStep(h, a) && Atomic(h, a, e, a')
    ensures InStep(h, a')
  {
    if e.Overlaid? {
      assert e.c == a.mem.(groups := e.c.groups, settings := e.c.settings);
    }
  }

  lemma AtomicRunStaysInStep(h: Handlers, run: seq<Live>, events: seq<Event>, n: nat)
    requires IgnoresOverlay(h) && AtomicRun(h, run, events) && InStep(h, run[0]) && n <= |events|
    ensures InStep(h, run[n])
  {
    forall a, e, a' | InStep(h, a) && Atomic(h, a, e, a') ensures InStep(h, a') {
      AtomicKeepsInStep(h, a, e, a');
    }
    AtomicRunKeeps(h, a => InStep(h, a), run, events, n);
  }

  /** In every interleaving, whenever the mutex is free, router, memory and disk are in step; a handler
      that has just been given the mutex finds them so. */
  lemma RunStaysInStep(h: Handlers, run: seq<Sys>, steps: seq<Step>, n: nat)
    requires IgnoresOverlay(h) && ConcurrentRun(h, run, steps) && InStep(h, run[0].live) && n <= |steps|
    ensures InStep(h, Abs(run[n]))
    ensures run[n].holder.None? ==> InStep(h, run[n].live)
    ensures run[n].holder.Some? ==>
              run[n].holder.value in run[n].tasks
              && (run[n].tasks[run[n].holder.value].phase.Locked? ==> InStep(h, run[n].live))
  {
    var states, events := RunRefines(h, run, steps, n);
    AtomicRunStaysInStep(h, states, events, |events|);
    RunKeepsInv(h, run, steps, n);
  }

  /** A reader without the mutex always sees a router built from one config: the one the current holder
      found or the one it is putting in place. */
  lemma RouterIsNeverTorn(h: Handlers, run: seq<Sys>, steps: seq<Step>, n: nat)
    requires IgnoresOverlay(h) && ConcurrentRun(h, run, steps) && InStep(h, run[0].live) && n <= |steps|
    ensures var s := run[n];
            || s.live.router == h.build(s.base.mem, s.base.scan)
            || s.live.router == h.build(s.live.mem, s.live.scan)
  {
    var s := run[n];
    RunStaysInStep(h, run, steps, n);
    RunKeepsInv(h, run, steps, n);
    if s.holder.Some? && s.tasks[s.holder.value].phase.Finished? && s.live != s.base {
      var e :| Atomic(h, s.base, e, s.live);
      AtomicKeepsInStep(h, s.base, e, s.live);
    }
  }

  /** Once a save has succeeded, disk agrees with memory at every moment the mutex is free afterwards. */
  lemma SavedStaysSaved(h: Handlers, run: seq<Sys>, steps: seq<Step>, n: nat, m: nat)
    requires IgnoresOverlay(h) && ConcurrentRun(h, run, steps) && InStep(h, run[0].live)
    requires n <= m <= |steps| && run[n].live.saved && run[m].holder.None?
    ensures run[m].live.saved && run[m].live.disk == run[m].live.mem
    decreases m - n
  {
    if n < m {
      RunKeepsInv(h, run, steps, n);
      SavedIsMonotone(h, run[n], steps[n], run[n + 1]);
      SavedStaysSaved(h, run, steps, n + 1, m);
    } else {
      RunStaysInStep(h, run, steps, m);
    }
  }

  lemma SavedIsMonotone(h: Handlers, s: Sys, st: Step, s': Sys)
    requires Next(h, s, st, s')
    ensures s.live.saved ==> s'.live.saved
  {
  }
}
