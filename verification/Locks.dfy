/** The daemon's locks as fair queues, the handlers' use of them, and when runs cannot get stuck
    (bin/orckerd/src/ipc_server.rs, bin/orckerd/src/fs_watch.rs:89-111, bin/orckerd/src/lan_setup.rs:156-167). */
module Locks {
  import opened Text

  datatype Lock = Config | Router | Wordpress | Laravel | Script | Code
  datatype Mode = Shared | Exclusive
  datatype Op = Acquire(lock: Lock, mode: Mode) | Release(lock: Lock)

  /** The order in which handlers are meant to take locks. */
  function Rank(l: Lock): nat {
    match l
    case Config => 0
    case Router => 1
    case Wordpress => 2
    case Laravel => 3
    case Script => 4
    case Code => 5
  }

  const RANKS := 6

  // ---- Programs ----

  /** The handlers, with the early exits that matter for locking. */
  datatype Handler =
    | MutationRefused | MutationCommitted
    | LinkRefused | LinkRepeated | LinkCommitted
    | GroupEdit | Setter
    | LanOff | Mint | MintRefused | Redeem
    | WatcherRescan
    | ListSites | ReadConfig | ReadBoth | ProxyLookup
    | ListProjects

  /** Take a lock for a moment. */
  function Brief(l: Lock, m: Mode): seq<Op> { [Acquire(l, m), Release(l)] }

  /** Writing the rebuilt router and the two detection maps, one guard at a time. */
  function Publish(): seq<Op> {
    Brief(Router, Exclusive) + Brief(Wordpress, Exclusive) + Brief(Laravel, Exclusive)
  }

  function UnderConfig(body: seq<Op>): seq<Op> {
    [Acquire(Config, Exclusive)] + body + [Release(Config)]
  }

  function Program(h: Handler): seq<Op> {
    match h
    case MutationRefused => UnderConfig(Brief(Router, Shared))
    case MutationCommitted => UnderConfig(Brief(Router, Shared) + Publish())
    case LinkRefused => UnderConfig([])
    case LinkRepeated => UnderConfig(Brief(Router, Shared))
    case LinkCommitted => UnderConfig(Publish()) + Brief(Router, Shared)
    case GroupEdit => UnderConfig(Brief(Router, Shared))
    case Setter => UnderConfig([])
    case LanOff => UnderConfig(Brief(Code, Exclusive))
    case Mint => UnderConfig(Brief(Script, Exclusive) + Brief(Code, Exclusive))
    case MintRefused => UnderConfig(Brief(Script, Exclusive))
    case Redeem => Brief(Code, Exclusive)
    case WatcherRescan => UnderConfig(Publish())
    case ListSites =>
      [Acquire(Router, Shared), Acquire(Wordpress, Shared), Acquire(Laravel, Shared),
       Release(Laravel), Release(Wordpress), Release(Router)]
    case ReadConfig => UnderConfig([])
    case ReadBoth => UnderConfig(Brief(Router, Shared))
    case ProxyLookup => Brief(Router, Shared)
    case ListProjects => [Acquire(Router, Shared), Acquire(Config, Exclusive), Release(Config), Release(Router)]
  }

  // ---- The lock order ----

  /** The handlers that rewrite the router. */
  predicate Publishes(h: Handler) { h.MutationCommitted? || h.LinkCommitted? || h.WatcherRescan? }

  /** A lock may be taken above those held, where `free` locks are only ever shared and so never in the way. */
  predicate Admits(l: Lock, m: Mode, held: set<Lock>, free: set<Lock>) {
    && (forall k :: k in held && k !in free ==> Rank(k) < Rank(l))
    && (l in free ==> m.Shared?)
  }

  /** Starting with `held`, every lock is taken in order, and `rest` is held at the end. */
  predicate Ordered(ops: seq<Op>, held: set<Lock>, rest: set<Lock>, free: set<Lock>) {
    if ops == [] then held == rest
    else match ops[0]
      case Acquire(l, m) => Admits(l, m, held, free) && Ordered(ops[1..], held + {l}, rest, free)
      case Release(l) => l in held && Ordered(ops[1..], held - {l}, rest, free)
  }

  lemma {:induction false} OrderedThen(a: seq<Op>, b: seq<Op>, held: set<Lock>, mid: set<Lock>, rest: set<Lock>,
                                       free: set<Lock>)
    requires Ordered(a, held, mid, free) && Ordered(b, mid, rest, free)
    ensures Ordered(a + b, held, rest, free)
  {
    if a == [] {
      assert a + b == b;
    } else {
      assert (a + b)[1..] == a[1..] + b;
      match a[0] {
        case Acquire(l, _) => OrderedThen(a[1..], b, held + {l}, mid, rest, free);
        case Release(l) => OrderedThen(a[1..], b, held - {l}, mid, rest, free);
      }
    }
  }

  lemma BriefIsOrdered(l: Lock, m: Mode, held: set<Lock>, free: set<Lock>)
    requires Admits(l, m, held, free) && l !in held
    ensures Ordered(Brief(l, m), held, held, free)
  {
    assert held + {l} - {l} == held;
    assert Brief(l, m)[1..] == [Release(l)] && [Release(l)][1..] == [];
    assert Ordered([Release(l)], held + {l}, held, free);
  }

  lemma PublishIsOrdered()
    ensures Ordered(Publish(), {Config}, {Config}, {})
  {
    var r, w, l := Brief(Router, Exclusive), Brief(Wordpress, Exclusive), Brief(Laravel, Exclusive);
    BriefIsOrdered(Router, Exclusive, {Config}, {});
    BriefIsOrdered(Wordpress, Exclusive, {Config}, {});
    BriefIsOrdered(Laravel, Exclusive, {Config}, {});
    OrderedThen(r, w, {Config}, {Config}, {Config}, {});
    OrderedThen(r + w, l, {Config}, {Config}, {Config}, {});
  }

  lemma UnderConfigIsOrdered(body: seq<Op>, free: set<Lock>)
    requires Ordered(body, {Config}, {Config}, free) && Config !in free
    ensures Ordered(UnderConfig(body), {}, {}, free)
  {
    var take, give: seq<Op> := [Acquire(Config, Exclusive)], [Release(Config)];
    assert take[1..] == [] && give[1..] == [];
    assert {} + {Config} == {Config} && {Config} - {Config} == {};
    assert Ordered(take, {}, {Config}, free) && Ordered(give, {Config}, {}, free);
    OrderedThen(take, body, {}, {Config}, {Config}, free);
    OrderedThen(take + body, give, {}, {Config}, {}, free);
  }

  lemma ListSitesIsOrdered(free: set<Lock>)
    ensures Ordered(Program(ListSites), {}, {}, free)
  {
    var p := Program(ListSites);
    assert p[1..][1..] == p[2..] && p[2..][1..] == p[3..] && p[3..][1..] == p[4..];
    assert p[4..][1..] == p[5..] && p[5..][1..] == [];
    var two, all := {Router, Wordpress}, {Router, Wordpress, Laravel};
    assert all - {Laravel} == two && two - {Wordpress} == {Router} && {Router} - {Router} == {};
    assert {} + {Router} == {Router} && {Router} + {Wordpress} == two && two + {Laravel} == all;
    assert Ordered(p[5..], {Router}, {}, free);
    assert Ordered(p[4..], two, {}, free);
    assert Ordered(p[3..], all, {}, free);
    assert Ordered(p[2..], two, {}, free);
    assert Ordered(p[1..], {Router}, {}, free);
  }

  lemma CommitIsOrdered()
    ensures Ordered(Program(MutationCommitted), {}, {}, {}) && Ordered(Program(LinkCommitted), {}, {}, {})
    ensures Ordered(Program(WatcherRescan), {}, {}, {})
  {
    PublishIsOrdered();
    UnderConfigIsOrdered(Publish(), {});
    BriefIsOrdered(Router, Shared, {Config}, {});
    OrderedThen(Brief(Router, Shared), Publish(), {Config}, {Config}, {Config}, {});
    UnderConfigIsOrdered(Brief(Router, Shared) + Publish(), {});
    BriefIsOrdered(Router, Shared, {}, {});
    OrderedThen(UnderConfig(Publish()), Brief(Router, Shared), {}, {}, {}, {});
  }

  /** A committing mutation shares the router first and takes it alone later. */
  lemma CommitTakesRouterAlone(free: set<Lock>)
    requires Router in free
    ensures !Ordered(Program(MutationCommitted), {}, {}, free)
  {
    var p := Program(MutationCommitted);
    var one, two := {} + {Config}, {} + {Config} + {Router};
    assert p[1..][1..] == p[2..] && p[2..][1..] == p[3..];
    assert p[0].Acquire? && p[1] == Acquire(Router, Shared) && p[2].Release? && p[3] == Acquire(Router, Exclusive);
    assert !Ordered(p[3..], two - {Router}, {}, free);
    assert !Ordered(p[2..], two, {}, free);
    assert !Ordered(p[1..], one, {}, free);
  }

  lemma MintIsOrdered(free: set<Lock>)
    requires free <= {Router}
    ensures Ordered(Program(Mint), {}, {}, free)
  {
    var s, c := Brief(Script, Exclusive), Brief(Code, Exclusive);
    BriefIsOrdered(Script, Exclusive, {Config}, free);
    BriefIsOrdered(Code, Exclusive, {Config}, free);
    OrderedThen(s, c, {Config}, {Config}, {Config}, free);
    UnderConfigIsOrdered(s + c, free);
  }

  lemma BriefUnderConfigIsOrdered(l: Lock, m: Mode, free: set<Lock>)
    requires l != Config && free <= {Router} && (l in free ==> m.Shared?)
    ensures Ordered(UnderConfig(Brief(l, m)), {}, {}, free)
  {
    BriefIsOrdered(l, m, {Config}, free);
    UnderConfigIsOrdered(Brief(l, m), free);
  }

  lemma ListProjectsIsOrderedIff(free: set<Lock>)
    requires free <= {Router}
    ensures Ordered(Program(ListProjects), {}, {}, free) <==> Router in free
  {
    var p := Program(ListProjects);
    assert p[1..][1..] == p[2..] && p[2..][1..] == p[3..] && p[3..][1..] == [];
    assert {} + {Router} == {Router};
    if Router in free {
      assert {Router} + {Config} - {Config} - {Router} == {};
      assert Ordered(p[3..], {Router} + {Config} - {Config}, {}, free);
      assert Ordered(p[2..], {Router} + {Config}, {}, free);
    }
    assert Ordered(p[1..], {Router}, {}, free) <==> Router in free;
  }

  lemma PublisherIsOrderedIff(h: Handler, free: set<Lock>)
    requires Publishes(h) && free <= {Router}
    ensures Ordered(Program(h), {}, {}, free) <==> free == {}
  {
    if free == {} {
      CommitIsOrdered();
    } else if h.MutationCommitted? {
      CommitTakesRouterAlone(free);
    } else {
      assert Program(h)[0] == Acquire(Config, Exclusive) && Program(h)[1..][0] == Acquire(Router, Exclusive);
    }
  }

  /** A handler that may run while the `free` locks count as harmless. */
  predicate Fits(h: Handler, free: set<Lock>) {
    (h.ListProjects? ==> Router in free) && (Publishes(h) ==> Router !in free)
  }

  /** Every handler but ListProjects takes its locks in order; so do all of them that leave the router shared,
      once shared router guards are disregarded. */
  lemma ProgramsAreOrdered(h: Handler, free: set<Lock>)
    requires free <= {Router}
    ensures Ordered(Program(h), {}, {}, free) <==> Fits(h, free)
  {
    match h {
      case MutationCommitted => PublisherIsOrderedIff(h, free);
      case LinkCommitted => PublisherIsOrderedIff(h, free);
      case WatcherRescan => PublisherIsOrderedIff(h, free);
      case Mint => MintIsOrdered(free);
      case ListSites => ListSitesIsOrdered(free);
      case ListProjects => ListProjectsIsOrderedIff(free);
      case Redeem => BriefIsOrdered(Code, Exclusive, {}, free);
      case ProxyLookup => BriefIsOrdered(Router, Shared, {}, free);
      case LanOff => BriefUnderConfigIsOrdered(Code, Exclusive, free);
      case MintRefused => BriefUnderConfigIsOrdered(Script, Exclusive, free);
      case LinkRefused => UnderConfigIsOrdered([], free);
      case Setter => UnderConfigIsOrdered([], free);
      case ReadConfig => UnderConfigIsOrdered([], free);
      case _ => BriefUnderConfigIsOrdered(Router, Shared, free);
    }
  }

  // ---- Tasks and fair queues ----

  /** What a task has yet to do, what it holds, and whether it is queued for its next lock. */
  datatype Task = Task(todo: seq<Op>, held: map<Lock, Mode>, queued: bool)

  /** Tasks are numbered as they start. */
  datatype State = State(tasks: seq<Task>, queue: Lock -> seq<nat>)

  datatype Step = Spawn(h: Handler) | Enqueue(t: nat) | Grant(t: nat) | GiveBack(t: nat)

  predicate Conflicts(a: Mode, b: Mode) { a.Exclusive? || b.Exclusive? }

  /** `u` holds the lock in a mode that excludes `m`. */
  predicate Excludes(s: State, u: nat, l: Lock, m: Mode) {
    u < |s.tasks| && l in s.tasks[u].held && Conflicts(m, s.tasks[u].held[l])
  }

  predicate Unfinished(s: State, t: nat) {
    t < |s.tasks| && s.tasks[t].todo != []
  }

  predicate Wants(s: State, t: nat) {
    Unfinished(s, t) && s.tasks[t].todo[0].Acquire?
  }

  /** The lock a task wants next. */
  function Wanted(s: State, t: nat): Lock
    requires Wants(s, t)
  {
    s.tasks[t].todo[0].lock
  }

  function WantedMode(s: State, t: nat): Mode
    requires Wants(s, t)
  {
    s.tasks[t].todo[0].mode
  }

  function Requeued(s: State, l: Lock, q: seq<nat>): Lock -> seq<nat> {
    k => if k == l then q else s.queue(k)
  }

  /** Locks are handed out first come, first served; a reader waits behind a queued writer. */
  ghost predicate Enabled(s: State, st: Step) {
    match st
    case Spawn(_) => true
    case Enqueue(t) => Wants(s, t) && !s.tasks[t].queued
    case Grant(t) =>
      && Wants(s, t) && s.tasks[t].queued
      && s.queue(Wanted(s, t)) != [] && s.queue(Wanted(s, t))[0] == t
      && (forall u :: !Excludes(s, u, Wanted(s, t), WantedMode(s, t)))
    case GiveBack(t) => Unfinished(s, t) && s.tasks[t].todo[0].Release?
  }

  ghost function After(s: State, st: Step): State
    requires Enabled(s, st)
  {
    match st
    case Spawn(h) => s.(tasks := s.tasks + [Task(Program(h), map[], false)])
    case Enqueue(t) =>
      var l := Wanted(s, t);
      State(s.tasks[t := s.tasks[t].(queued := true)], Requeued(s, l, s.queue(l) + [t]))
    case Grant(t) =>
      var l, task := Wanted(s, t), s.tasks[t];
      var task' := Task(task.todo[1..], task.held[l := WantedMode(s, t)], false);
      State(s.tasks[t := task'], Requeued(s, l, s.queue(l)[1..]))
    case GiveBack(t) =>
      var task := s.tasks[t];
      s.(tasks := s.tasks[t := Task(task.todo[1..], task.held - {task.todo[0].lock}, false)])
  }

  ghost predicate Init(s: State) {
    s.tasks == [] && forall l :: s.queue(l) == []
  }

  // ---- Invariants ----

  ghost predicate InQueue(s: State, t: nat, l: Lock) {
    Wants(s, t) && s.tasks[t].queued && Wanted(s, t) == l
  }

  /** The queues list exactly the tasks queued for them, each once. */
  ghost predicate QueuesAgree(s: State) {
    && (forall l :: NoDup(s.queue(l)))
    && (forall l, t :: t in s.queue(l) <==> InQueue(s, t, l))
    && (forall t: nat :: t < |s.tasks| && s.tasks[t].queued ==> Wants(s, t))
  }

  ghost predicate InOrder(task: Task, free: set<Lock>) {
    && Ordered(task.todo, task.held.Keys, {}, free)
    && (forall l :: l in task.held && l in free ==> task.held[l].Shared?)
  }

  ghost predicate TasksOrdered(s: State, free: set<Lock>) {
    forall t: nat :: t < |s.tasks| ==> InOrder(s.tasks[t], free)
  }

  /** Two tasks hold one lock only if both share it. */
  ghost predicate MutualExclusion(s: State) {
    forall t: nat, u: nat, l ::
      t < |s.tasks| && u < |s.tasks| && t != u && l in s.tasks[t].held && l in s.tasks[u].held ==>
        !Conflicts(s.tasks[t].held[l], s.tasks[u].held[l])
  }

  lemma StepKeepsExclusion(s: State, st: Step)
    requires MutualExclusion(s) && Enabled(s, st)
    ensures MutualExclusion(After(s, st))
  {
    if st.Grant? {
      var s', l, m := After(s, st), Wanted(s, st.t), WantedMode(s, st.t);
      forall t: nat, u: nat, k
        | t < |s'.tasks| && u < |s'.tasks| && t != u && k in s'.tasks[t].held && k in s'.tasks[u].held
        ensures !Conflicts(s'.tasks[t].held[k], s'.tasks[u].held[k])
      {
        assert !Excludes(s, t, l, m) && !Excludes(s, u, l, m);
      }
    }
  }

  lemma StepKeepsOrder(s: State, st: Step, free: set<Lock>)
    requires TasksOrdered(s, free) && Enabled(s, st) && free <= {Router} && (st.Spawn? ==> Fits(st.h, free))
    ensures TasksOrdered(After(s, st), free)
  {
    match st {
      case Spawn(h) =>
        ProgramsAreOrdered(h, free);
        assert After(s, st).tasks[|s.tasks|].held.Keys == {};
      case Enqueue(t) =>
        assert InOrder(s.tasks[t], free);
      case Grant(t) =>
        assert InOrder(s.tasks[t], free);
        assert After(s, st).tasks[t].held.Keys == s.tasks[t].held.Keys + {Wanted(s, t)};
      case GiveBack(t) =>
        assert InOrder(s.tasks[t], free);
        assert After(s, st).tasks[t].held.Keys == s.tasks[t].held.Keys - {s.tasks[t].todo[0].lock};
    }
  }

  lemma EnqueueKeepsQueues(s: State, t: nat)
    requires QueuesAgree(s) && Enabled(s, Enqueue(t))
    ensures QueuesAgree(After(s, Enqueue(t)))
  {
    var s', l := After(s, Enqueue(t)), Wanted(s, t);
    assert !InQueue(s, t, l);
    forall k, u ensures u in s'.queue(k) <==> InQueue(s', u, k) {
      assert InQueue(s, u, k) <==> u in s.queue(k);
    }
  }

  lemma GrantKeepsQueues(s: State, t: nat)
    requires QueuesAgree(s) && Enabled(s, Grant(t))
    ensures QueuesAgree(After(s, Grant(t)))
  {
    var s', l := After(s, Grant(t)), Wanted(s, t);
    var q := s.queue(l);
    assert q == [t] + q[1..];
    assert forall i, j :: 0 <= i < j < |q| ==> q[i] != q[j];
    assert t !in q[1..];
    forall k, u ensures u in s'.queue(k) <==> InQueue(s', u, k) {
      assert InQueue(s, u, k) <==> u in s.queue(k);
    }
  }

  lemma StepKeepsQueues(s: State, st: Step)
    requires QueuesAgree(s) && Enabled(s, st)
    ensures QueuesAgree(After(s, st))
  {
    match st {
      case Spawn(_) =>
        forall k, u ensures u in After(s, st).queue(k) <==> InQueue(After(s, st), u, k) {
          assert InQueue(s, u, k) <==> u in s.queue(k);
        }
      case Enqueue(t) => EnqueueKeepsQueues(s, t);
      case Grant(t) => GrantKeepsQueues(s, t);
      case GiveBack(t) =>
        forall k, u ensures u in After(s, st).queue(k) <==> InQueue(After(s, st), u, k) {
          assert InQueue(s, u, k) <==> u in s.queue(k);
        }
    }
  }

  // ---- Who waits for whom ----

  /** Position of a task in a queue. */
  ghost function Place(q: seq<nat>, t: nat): (i: nat)
    requires t in q
    ensures i < |q| && q[i] == t
  {
    var i: nat :| i < |q| && q[i] == t;
    i
  }

  ghost predicate Waiting(s: State, t: nat) {
    Wants(s, t) && s.tasks[t].queued
  }

  /** `u` must act before `t` can get the lock it is queued for: `u` holds it, or is ahead in the queue. */
  ghost predicate WaitsFor(s: State, t: nat, u: nat) {
    && Waiting(s, t) && u < |s.tasks|
    && var l := Wanted(s, t);
       || (u != t && Excludes(s, u, l, WantedMode(s, t)))
       || (t in s.queue(l) && u in s.queue(l) && Place(s.queue(l), u) < Place(s.queue(l), t))
  }

  ghost predicate Inv(s: State, free: set<Lock>) {
    QueuesAgree(s) && TasksOrdered(s, free)
  }

  /** A task that keeps another from its lock is not done, and only wants higher ones. */
  lemma HolderIsBusy(s: State, free: set<Lock>, t: nat, u: nat)
    requires TasksOrdered(s, free) && Wants(s, t) && Excludes(s, u, Wanted(s, t), WantedMode(s, t))
    ensures Unfinished(s, u)
    ensures Wants(s, u) ==> Rank(Wanted(s, t)) < Rank(Wanted(s, u))
  {
    var l := Wanted(s, t);
    assert InOrder(s.tasks[t], free) && InOrder(s.tasks[u], free);
    assert l in s.tasks[u].held.Keys;
  }

  /** Along a wait the wanted rank rises, or stays and the place in the queue improves. */
  ghost predicate Climbs(s: State, t: nat, u: nat)
    requires QueuesAgree(s) && Waiting(s, t) && Waiting(s, u)
  {
    assert t in s.queue(Wanted(s, t)) by { assert InQueue(s, t, Wanted(s, t)); }
    assert u in s.queue(Wanted(s, u)) by { assert InQueue(s, u, Wanted(s, u)); }
    || Rank(Wanted(s, t)) < Rank(Wanted(s, u))
    || (Wanted(s, t) == Wanted(s, u) && Place(s.queue(Wanted(s, u)), u) < Place(s.queue(Wanted(s, t)), t))
  }

  lemma WaitsClimb(s: State, free: set<Lock>, t: nat, u: nat)
    requires Inv(s, free) && WaitsFor(s, t, u) && Waiting(s, u)
    ensures Climbs(s, t, u)
  {
    var l := Wanted(s, t);
    if u != t && Excludes(s, u, l, WantedMode(s, t)) {
      HolderIsBusy(s, free, t, u);
    } else {
      assert InQueue(s, u, l);
    }
  }

  /** A chain of waits that ends where it started. */
  ghost predicate CircularWait(s: State, chain: seq<nat>) {
    && |chain| >= 2 && chain[0] == chain[|chain| - 1]
    && (forall i :: 0 <= i < |chain| - 1 ==> WaitsFor(s, chain[i], chain[i + 1]))
  }

  lemma {:induction false} ChainsClimb(s: State, free: set<Lock>, chain: seq<nat>, n: nat)
    requires Inv(s, free) && CircularWait(s, chain) && 1 <= n < |chain|
    ensures Waiting(s, chain[0]) && Waiting(s, chain[n]) && Climbs(s, chain[0], chain[n])
  {
    assert WaitsFor(s, chain[0], chain[1]);
    assert Waiting(s, chain[n]) by {
      if n < |chain| - 1 { assert WaitsFor(s, chain[n], chain[n + 1]); }
    }
    if n == 1 {
      WaitsClimb(s, free, chain[0], chain[1]);
    } else {
      ChainsClimb(s, free, chain, n - 1);
      assert WaitsFor(s, chain[n - 1], chain[n - 1 + 1]);
      WaitsClimb(s, free, chain[n - 1], chain[n]);
    }
  }

  /** Lock-ordered tasks never wait in a circle. */
  lemma NoCircularWait(s: State, free: set<Lock>, chain: seq<nat>)
    requires Inv(s, free)
    ensures !CircularWait(s, chain)
  {
    if CircularWait(s, chain) {
      ChainsClimb(s, free, chain, |chain| - 1);
    }
  }

  // ---- Progress ----

  ghost predicate Runs(s: State, st: Step) {
    Enabled(s, st) && !st.Spawn?
  }

  /** From any unfinished task, follow who it waits for to one that can run. */
  lemma {:induction false} SomethingRuns(s: State, free: set<Lock>, t: nat) returns (st: Step)
    requires Inv(s, free) && Unfinished(s, t)
    ensures Runs(s, st)
    decreases if Wants(s, t) then RANKS - Rank(Wanted(s, t)) else 0,
              if Waiting(s, t) && t in s.queue(Wanted(s, t)) then Place(s.queue(Wanted(s, t)), t) else 0
  {
    if !s.tasks[t].todo[0].Acquire? {
      return GiveBack(t);
    }
    if !s.tasks[t].queued {
      return Enqueue(t);
    }
    var l := Wanted(s, t);
    var q := s.queue(l);
    assert InQueue(s, t, l);
    if q[0] != t {
      var u := q[0];
      assert InQueue(s, u, l);
      PlaceOfHead(q);
      st := SomethingRuns(s, free, u);
    } else if u :| Excludes(s, u, l, WantedMode(s, t)) {
      HolderIsBusy(s, free, t, u);
      st := SomethingRuns(s, free, u);
    } else {
      st := Grant(t);
    }
  }

  lemma PlaceOfHead(q: seq<nat>)
    requires q != [] && NoDup(q)
    ensures Place(q, q[0]) == 0
  {
  }

  // ---- How much is left to do ----

  /** The steps the operations take: two to get a lock, one to give it back. */
  function Steps(todo: seq<Op>): nat {
    if todo == [] then 0 else (if todo[0].Acquire? then 2 else 1) + Steps(todo[1..])
  }

  function Left(task: Task): int {
    Steps(task.todo) - if task.queued then 1 else 0
  }

  function TotalLeft(tasks: seq<Task>): int {
    if tasks == [] then 0 else TotalLeft(tasks[..|tasks| - 1]) + Left(tasks[|tasks| - 1])
  }

  lemma {:induction false} TotalAfterUpdate(tasks: seq<Task>, t: nat, task: Task)
    requires t < |tasks|
    ensures TotalLeft(tasks[t := task]) == TotalLeft(tasks) - Left(tasks[t]) + Left(task)
  {
    var n := |tasks| - 1;
    if t == n {
      assert tasks[t := task][..n] == tasks[..n];
    } else {
      assert tasks[t := task][..n] == tasks[..n][t := task];
      TotalAfterUpdate(tasks[..n], t, task);
    }
  }

  /** Nothing is left exactly when every task is done. */
  lemma {:induction false} NothingLeftIff(s: State, n: nat)
    requires QueuesAgree(s) && n <= |s.tasks|
    ensures TotalLeft(s.tasks[..n]) >= 0
    ensures TotalLeft(s.tasks[..n]) == 0 <==> forall t: nat :: t < n ==> !Unfinished(s, t)
  {
    if n > 0 {
      NothingLeftIff(s, n - 1);
      assert s.tasks[..n][..n - 1] == s.tasks[..n - 1];
      assert s.tasks[n - 1].queued ==> Wants(s, n - 1);
      assert Left(s.tasks[n - 1]) == 0 <==> !Unfinished(s, n - 1);
      assert (forall t: nat :: t < n ==> !Unfinished(s, t)) <==>
             (forall t: nat :: t < n - 1 ==> !Unfinished(s, t)) && !Unfinished(s, n - 1);
    }
  }

  /** Every step of a running handler is one less to go. */
  lemma StepsCountDown(s: State, st: Step)
    requires Runs(s, st) && QueuesAgree(s)
    ensures TotalLeft(After(s, st).tasks) == TotalLeft(s.tasks) - 1
  {
    assert st.GiveBack? ==> !s.tasks[st.t].queued;
    TotalAfterUpdate(s.tasks, st.t, After(s, st).tasks[st.t]);
  }

  // ---- Runs ----

  ghost predicate LockRun(run: seq<State>, steps: seq<Step>) {
    && |run| == |steps| + 1 && Init(run[0])
    && (forall i :: 0 <= i < |steps| ==> Enabled(run[i], steps[i]) && run[i + 1] == After(run[i], steps[i]))
  }

  /** Only handlers of these kinds are started. */
  ghost predicate SpawnsOnly(steps: seq<Step>, kinds: set<Handler>) {
    forall i :: 0 <= i < |steps| && steps[i].Spawn? ==> steps[i].h in kinds
  }

  /** The router is read by one that then takes config, and written by one that has config. */
  ghost predicate Clash(kinds: set<Handler>) {
    ListProjects in kinds && exists h :: h in kinds && Publishes(h)
  }

  /** The locks that handlers of these kinds never stand in each other's way with. */
  function FreeFor(kinds: set<Handler>): set<Lock> {
    if ListProjects in kinds then {Router} else {}
  }

  lemma {:induction false} RunKeepsInv(run: seq<State>, steps: seq<Step>, kinds: set<Handler>, n: nat)
    requires LockRun(run, steps) && SpawnsOnly(steps, kinds) && !Clash(kinds) && n <= |steps|
    ensures Inv(run[n], FreeFor(kinds)) && MutualExclusion(run[n])
  {
    if n > 0 {
      RunKeepsInv(run, steps, kinds, n - 1);
      var s, st := run[n - 1], steps[n - 1];
      assert run[n - 1 + 1] == After(s, st);
      StepKeepsQueues(s, st);
      StepKeepsOrder(s, st, FreeFor(kinds));
      StepKeepsExclusion(s, st);
    }
  }

  /** Some handler is unfinished and none can move. */
  ghost predicate Stuck(s: State) {
    (exists t :: Unfinished(s, t)) && forall st :: !Runs(s, st)
  }

  /** Any number of handlers of kinds that do not clash, in any interleaving: locks exclude as they should,
      nobody waits in a circle, and as long as some handler is unfinished some handler can move. */
  lemma HandlersNeverDeadlock(run: seq<State>, steps: seq<Step>, kinds: set<Handler>, n: nat)
    requires LockRun(run, steps) && SpawnsOnly(steps, kinds) && !Clash(kinds) && n <= |steps|
    ensures MutualExclusion(run[n])
    ensures forall chain :: !CircularWait(run[n], chain)
    ensures !Stuck(run[n])
  {
    RunKeepsInv(run, steps, kinds, n);
    forall chain ensures !CircularWait(run[n], chain) {
      NoCircularWait(run[n], FreeFor(kinds), chain);
    }
    if t :| Unfinished(run[n], t) {
      var st := SomethingRuns(run[n], FreeFor(kinds), t);
    }
  }

  lemma {:induction false} CountsDown(run: seq<State>, steps: seq<Step>, kinds: set<Handler>, n: nat, m: nat)
    requires LockRun(run, steps) && SpawnsOnly(steps, kinds) && !Clash(kinds) && n <= m <= |steps|
    requires forall i :: n <= i < m ==> !steps[i].Spawn?
    ensures TotalLeft(run[m].tasks) == TotalLeft(run[n].tasks) - (m - n)
  {
    if n < m {
      CountsDown(run, steps, kinds, n, m - 1);
      RunKeepsInv(run, steps, kinds, m - 1);
      assert run[m - 1 + 1] == After(run[m - 1], steps[m - 1]);
      StepsCountDown(run[m - 1], steps[m - 1]);
    }
  }

  /** Once no more handlers of such kinds are started, what is left to do bounds every continuation, and a
      continuation that cannot go on has finished every handler. */
  lemma HandlersFinish(run: seq<State>, steps: seq<Step>, kinds: set<Handler>, n: nat)
    requires LockRun(run, steps) && SpawnsOnly(steps, kinds) && !Clash(kinds) && n <= |steps|
    requires forall i :: n <= i < |steps| ==> !steps[i].Spawn?
    ensures |steps| - n <= TotalLeft(run[n].tasks)
    ensures |steps| - n == TotalLeft(run[n].tasks) <==> forall t :: !Unfinished(run[|steps|], t)
    ensures (forall st :: !Runs(run[|steps|], st)) ==> forall t :: !Unfinished(run[|steps|], t)
  {
    var s := run[|steps|];
    CountsDown(run, steps, kinds, n, |steps|);
    RunKeepsInv(run, steps, kinds, |steps|);
    assert s.tasks[..|s.tasks|] == s.tasks;
    NothingLeftIff(s, |s.tasks|);
    HandlersNeverDeadlock(run, steps, kinds, |steps|);
  }

  // ---- Kinds that clash ----

  /** Two tasks, and the queues for config and router. */
  ghost predicate Looks(s: State, a: Task, b: Task, config: seq<nat>, router: seq<nat>) {
    s.tasks == [a, b] && s.queue(Config) == config && s.queue(Router) == router
  }

  /** The next operation takes config or the router. */
  predicate Takes(task: Task) {
    task.todo != [] && task.todo[0].Acquire? && (task.todo[0].lock.Config? || task.todo[0].lock.Router?)
  }

  /** What one step makes of a state of two tasks. */
  lemma LooksAfterEnqueue(s: State, t: nat, a: Task, b: Task, config: seq<nat>, router: seq<nat>)
    requires Looks(s, a, b, config, router) && t < 2
    requires var task := if t == 0 then a else b;
             Takes(task) && !task.queued
    ensures Enabled(s, Enqueue(t))
    ensures var task := if t == 0 then a else b;
            var task', s' := task.(queued := true), After(s, Enqueue(t));
            var config' := if task.todo[0].lock.Config? then config + [t] else config;
            var router' := if task.todo[0].lock.Router? then router + [t] else router;
            Looks(s', if t == 0 then task' else a, if t == 0 then b else task', config', router')
  {
  }

  lemma LooksAfterGrant(s: State, t: nat, a: Task, b: Task, config: seq<nat>, router: seq<nat>)
    requires Looks(s, a, b, config, router) && t < 2
    requires var task, other := if t == 0 then a else b, if t == 0 then b else a;
             && Takes(task) && task.queued
             && var l := task.todo[0].lock;
             && (l.Config? ==> config == [t]) && (l.Router? ==> router == [t])
             && l !in task.held
             && (l in other.held ==> !Conflicts(task.todo[0].mode, other.held[l]))
    ensures Enabled(s, Grant(t))
    ensures var task, s' := if t == 0 then a else b, After(s, Grant(t));
            var task' := Task(task.todo[1..], task.held[task.todo[0].lock := task.todo[0].mode], false);
            var config' := if task.todo[0].lock.Config? then [] else config;
            var router' := if task.todo[0].lock.Router? then [] else router;
            Looks(s', if t == 0 then task' else a, if t == 0 then b else task', config', router')
  {
  }

  lemma LooksAfterGiveBack(s: State, a: Task, b: Task)
    requires Looks(s, a, b, [], []) && b.todo != [] && b.todo[0].Release?
    ensures Enabled(s, GiveBack(1))
    ensures Looks(After(s, GiveBack(1)), a, Task(b.todo[1..], b.held - {b.todo[0].lock}, false), [], [])
  {
  }

  ghost predicate RunOf(run: seq<State>, steps: seq<Step>, kinds: set<Handler>) {
    LockRun(run, steps) && SpawnsOnly(steps, kinds)
  }

  lemma OneMore(run: seq<State>, steps: seq<Step>, kinds: set<Handler>, st: Step)
    returns (run': seq<State>, steps': seq<Step>)
    requires RunOf(run, steps, kinds) && Enabled(run[|steps|], st) && (st.Spawn? ==> st.h in kinds)
    ensures RunOf(run', steps', kinds) && run'[|steps'|] == After(run[|steps|], st)
  {
    run', steps' := run + [After(run[|steps|], st)], steps + [st];
    forall i | 0 <= i < |steps'|
      ensures Enabled(run'[i], steps'[i]) && run'[i + 1] == After(run'[i], steps'[i])
    {
      if i < |steps| {
        assert run'[i] == run[i] && run'[i + 1] == run[i + 1];
      }
    }
  }

  /** ListProjects gets its router guard and a publishing handler gets config. */
  lemma BothStart(kinds: set<Handler>, h: Handler) returns (run: seq<State>, steps: seq<Step>)
    requires ListProjects in kinds && h in kinds && Publishes(h)
    ensures RunOf(run, steps, kinds)
    ensures var a := Task(Program(ListProjects)[1..], map[Router := Shared], false);
            Looks(run[|steps|], a, Task(Program(h)[1..], map[Config := Exclusive], false), [], [])
  {
    var a, b := Task(Program(ListProjects), map[], false), Task(Program(h), map[], false);
    run, steps := [State([], l => [])], [];
    run, steps := OneMore(run, steps, kinds, Spawn(ListProjects));
    run, steps := OneMore(run, steps, kinds, Spawn(h));
    assert Looks(run[|steps|], a, b, [], []);
    LooksAfterEnqueue(run[|steps|], 0, a, b, [], []);
    run, steps := OneMore(run, steps, kinds, Enqueue(0));
    LooksAfterGrant(run[|steps|], 0, a.(queued := true), b, [], [0]);
    run, steps := OneMore(run, steps, kinds, Grant(0));
    var a' := Task(a.todo[1..], map[Router := Shared], false);
    LooksAfterEnqueue(run[|steps|], 1, a', b, [], []);
    run, steps := OneMore(run, steps, kinds, Enqueue(1));
    LooksAfterGrant(run[|steps|], 1, a', b.(queued := true), [1], []);
    run, steps := OneMore(run, steps, kinds, Grant(1));
  }

  /** A mutation first reads the router, beside ListProjects. */
  lemma ReadsRouter(run0: seq<State>, steps0: seq<Step>, kinds: set<Handler>, a: Task, q: seq<Op>)
    returns (run: seq<State>, steps: seq<Step>)
    requires RunOf(run0, steps0, kinds) && a.held == map[Router := Shared]
    requires |q| >= 2 && q[0] == Acquire(Router, Shared) && q[1] == Release(Router)
    requires Looks(run0[|steps0|], a, Task(q, map[Config := Exclusive], false), [], [])
    ensures RunOf(run, steps, kinds)
    ensures Looks(run[|steps|], a, Task(q[2..], map[Config := Exclusive], false), [], [])
  {
    run, steps := run0, steps0;
    LooksAfterEnqueue(run[|steps|], 1, a, Task(q, map[Config := Exclusive], false), [], []);
    run, steps := OneMore(run, steps, kinds, Enqueue(1));
    LooksAfterGrant(run[|steps|], 1, a, Task(q, map[Config := Exclusive], true), [], [1]);
    run, steps := OneMore(run, steps, kinds, Grant(1));
    var both := map[Config := Exclusive, Router := Shared];
    assert both - {Router} == map[Config := Exclusive] && q[1..][1..] == q[2..];
    LooksAfterGiveBack(run[|steps|], a, Task(q[1..], both, false));
    run, steps := OneMore(run, steps, kinds, GiveBack(1));
  }

  /** Each queues for what the other has. */
  lemma BothBlock(run0: seq<State>, steps0: seq<Step>, kinds: set<Handler>, p: seq<Op>, q: seq<Op>)
    returns (run: seq<State>, steps: seq<Step>)
    requires RunOf(run0, steps0, kinds)
    requires p != [] && p[0] == Acquire(Config, Exclusive) && q != [] && q[0] == Acquire(Router, Exclusive)
    requires var a := Task(p, map[Router := Shared], false);
             Looks(run0[|steps0|], a, Task(q, map[Config := Exclusive], false), [], [])
    ensures RunOf(run, steps, kinds)
    ensures var a := Task(p, map[Router := Shared], true);
            Looks(run[|steps|], a, Task(q, map[Config := Exclusive], true), [0], [1])
  {
    var a, b := Task(p, map[Router := Shared], false), Task(q, map[Config := Exclusive], false);
    run, steps := run0, steps0;
    LooksAfterEnqueue(run[|steps|], 1, a, b, [], []);
    run, steps := OneMore(run, steps, kinds, Enqueue(1));
    LooksAfterEnqueue(run[|steps|], 0, a, b.(queued := true), [], [1]);
    run, steps := OneMore(run, steps, kinds, Enqueue(0));
  }

  lemma BlockedIsStuck(s: State, p: seq<Op>, q: seq<Op>)
    requires p != [] && p[0] == Acquire(Config, Exclusive) && q != [] && q[0] == Acquire(Router, Exclusive)
    requires var a := Task(p, map[Router := Shared], true);
             Looks(s, a, Task(q, map[Config := Exclusive], true), [0], [1])
    ensures Stuck(s) && CircularWait(s, [0, 1, 0])
  {
    assert Unfinished(s, 0);
    assert Excludes(s, 1, Config, Exclusive) && Excludes(s, 0, Router, Exclusive);
    assert WaitsFor(s, 0, 1) && WaitsFor(s, 1, 0);
  }

  /** ListProjects, which takes the router before config, can end in a circular wait with any handler that
      publishes, and then neither can ever move. */
  lemma ClashDeadlocks(kinds: set<Handler>) returns (run: seq<State>, steps: seq<Step>)
    requires Clash(kinds)
    ensures RunOf(run, steps, kinds) && Stuck(run[|steps|]) && CircularWait(run[|steps|], [0, 1, 0])
  {
    var h :| h in kinds && Publishes(h);
    var p, q := Program(ListProjects)[1..], Program(h)[1..];
    run, steps := BothStart(kinds, h);
    if h.MutationCommitted? {
      run, steps := ReadsRouter(run, steps, kinds, Task(p, map[Router := Shared], false), q);
      q := q[2..];
    }
    run, steps := BothBlock(run, steps, kinds, p, q);
    BlockedIsStuck(run[|steps|], p, q);
  }

  /** Handlers of some kinds can get stuck exactly when ListProjects is among them together with a handler
      that rewrites the router. */
  lemma DeadlockIff(kinds: set<Handler>)
    ensures (exists run, steps :: RunOf(run, steps, kinds) && Stuck(run[|steps|])) <==>
            ListProjects in kinds && (MutationCommitted in kinds || LinkCommitted in kinds || WatcherRescan in kinds)
  {
    assert Publishes(MutationCommitted) && Publishes(LinkCommitted) && Publishes(WatcherRescan);
    if Clash(kinds) {
      var run, steps := ClashDeadlocks(kinds);
    } else if run, steps :| RunOf(run, steps, kinds) && Stuck(run[|steps|]) {
      HandlersNeverDeadlock(run, steps, kinds, |steps|);
    }
  }
}
