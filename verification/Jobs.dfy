/** The registry of background jobs (bin/orckerd/src/jobs.rs). */
module Jobs {
  import opened Text
  import opened Ansi

  const LOG_CAP: nat := 5000
  const TERMINAL_CAP: nat := 64

  // ---- Job ids ----

  function Digit(d: nat): char
    requires d < 10
  {
    ('0' as int + d) as char
  }

  predicate IsDigit(c: char) { '0' <= c <= '9' }

  function Decimal(n: nat): string {
    if n < 10 then [Digit(n)] else Decimal(n / 10) + [Digit(n % 10)]
  }

  function Value(s: string): nat
    requires forall i :: 0 <= i < |s| ==> IsDigit(s[i])
  {
    if s == "" then 0
    else
      assert IsDigit(s[|s| - 1]);
      10 * Value(s[..|s| - 1]) + (s[|s| - 1] as int - '0' as int)
  }

  /** `str::parse::<u64>`, without its range: digits, with an optional plus sign. */
  function ParseNat(s: string): Option<nat> {
    var digits := if s != "" && s[0] == '+' then s[1..] else s;
    if digits != "" && forall i :: 0 <= i < |digits| ==> IsDigit(digits[i]) then Some(Value(digits)) else None
  }

  /** What follows the last dash, or everything. */
  function AfterLastDash(s: string): string {
    if s == "" then ""
    else if s[|s| - 1] == '-' then ""
    else AfterLastDash(s[..|s| - 1]) + [s[|s| - 1]]
  }

  function IdOf(n: nat): string { "job-" + Decimal(n) }

  function IdSuffix(id: string): nat {
    match ParseNat(AfterLastDash(id))
    case Some(n) => n
    case None => 0
  }

  lemma {:induction false} DecimalReads(n: nat)
    ensures Decimal(n) != "" && (forall i :: 0 <= i < |Decimal(n)| ==> IsDigit(Decimal(n)[i]))
    ensures Value(Decimal(n)) == n
  {
    if n >= 10 {
      DecimalReads(n / 10);
      var d := Decimal(n / 10);
      assert (d + [Digit(n % 10)])[..|d|] == d;
    } else {
      assert [Digit(n)][..0] == "";
    }
  }

  lemma {:induction false} AfterDashIsTail(head: string, tail: string)
    requires '-' !in tail
    ensures AfterLastDash(head + "-" + tail) == tail
  {
    var s := head + "-" + tail;
    if tail != "" {
      var front := tail[..|tail| - 1];
      AfterDashIsTail(head, front);
      assert s[|s| - 1] == tail[|tail| - 1] && tail[|tail| - 1] in tail;
      assert s[..|s| - 1] == head + "-" + front;
    } else {
      assert s[|s| - 1] == '-';
    }
  }

  /** The suffix of a printed id is the number it was printed from, so ids sort by creation. */
  lemma SuffixInverts(n: nat)
    ensures IdSuffix(IdOf(n)) == n
  {
    DecimalReads(n);
    assert IsDigit(Decimal(n)[0]);
    AfterDashIsTail("job", Decimal(n));
    assert IdOf(n) == "job" + "-" + Decimal(n);
  }

  // ---- Jobs ----

  datatype JobState = Running | Succeeded | Failed | Cancelled

  /** `dropped` counts the lines evicted ahead of `log`. */
  datatype Job = Job(state: JobState, phase: string, log: seq<string>, dropped: nat, error: Option<string>)

  datatype Progress = Progress(state: JobState, phase: string, log: seq<string>, nextCursor: nat, error: Option<string>)

  type Registry = map<string, Job>

  const FRESH := Job(Running, "Starting", [], 0, None)

  /** A line appended and the excess over the cap evicted from the front. */
  function Pushed(job: Job, line: string): Job {
    var log := job.log + [line];
    if |log| > LOG_CAP then
      var over := |log| - LOG_CAP;
      job.(log := log[over..], dropped := job.dropped + over)
    else job.(log := log)
  }

  function Polled(job: Job, cursor: nat): Progress {
    var skip := if cursor >= job.dropped then cursor - job.dropped else 0;
    var start := if skip <= |job.log| then skip else |job.log|;
    Progress(job.state, job.phase, job.log[start..], job.dropped + |job.log|, job.error)
  }

  // ---- Pruning ----

  predicate IsTerminal(job: Job) { !job.state.Running? }

  function Terminal(m: Registry): set<string> {
    set id | id in m && IsTerminal(m[id])
  }

  /** `m'` is `m` less its oldest terminal jobs over the cap, `age` telling the order of creation. */
  ghost predicate Pruned(age: string -> nat, m: Registry, m': Registry) {
    && m'.Keys <= m.Keys && (forall id :: id in m' ==> m'[id] == m[id])
    && (forall id :: id in m && m[id].state.Running? ==> id in m')
    && |Terminal(m')| == (if |Terminal(m)| <= TERMINAL_CAP then |Terminal(m)| else TERMINAL_CAP)
    && (forall gone, kept :: gone in Terminal(m) && gone !in m' && kept in Terminal(m') ==> age(gone) < age(kept))
  }

  ghost predicate DistinctAges(age: string -> nat, m: Registry) {
    forall a, b :: a in m && b in m && a != b ==> age(a) != age(b)
  }

  lemma UnequalOfOneSize<T>(a: set<T>, b: set<T>) returns (x: T, y: T)
    requires |a| == |b| && a != b
    ensures x in a && x !in b && y in b && y !in a
  {
    assert a == (a * b) + (a - b) && b == (a * b) + (b - a);
    assert a - b != {} || b - a != {};
    assert |a - b| == |b - a|;
    assert a - b != {} && b - a != {};
    x :| x in a - b;
    y :| y in b - a;
  }

  /** The pruned registry is determined: no other choice of victims would do. */
  lemma PruningIsDetermined(age: string -> nat, m: Registry, a: Registry, b: Registry)
    requires Pruned(age, m, a) && Pruned(age, m, b)
    ensures a == b
  {
    if Terminal(a) != Terminal(b) {
      var x, y := UnequalOfOneSize(Terminal(a), Terminal(b));
      assert false;
    }
    forall id ensures id in a <==> id in b {
      assert id in a && IsTerminal(a[id]) ==> id in Terminal(a) && id in Terminal(b);
      assert id in b && IsTerminal(b[id]) ==> id in Terminal(b) && id in Terminal(a);
    }
    assert a.Keys == b.Keys;
  }

  ghost predicate SortedBy(key: string -> nat, ids: seq<string>) {
    forall i, j :: 0 <= i < j < |ids| ==> key(ids[i]) <= key(ids[j])
  }

  method InsertByKey(key: string -> nat, r: seq<string>, id: string) returns (r': seq<string>)
    requires SortedBy(key, r)
    ensures SortedBy(key, r') && multiset(r') == multiset(r) + multiset{id}
  {
    var k := 0;
    while k < |r| && key(r[k]) <= key(id)
      invariant 0 <= k <= |r|
      invariant forall i :: 0 <= i < k ==> key(r[i]) <= key(id)
    {
      k := k + 1;
    }
    assert forall j :: k <= j < |r| ==> key(id) <= key(r[j]);
    r' := r[..k] + [id] + r[k..];
    assert r == r[..k] + r[k..];
  }

  /** `sort_by_key`. */
  method SortByKey(key: string -> nat, ids: seq<string>) returns (r: seq<string>)
    ensures SortedBy(key, r) && multiset(r) == multiset(ids)
  {
    r := [];
    for n := 0 to |ids|
      invariant SortedBy(key, r) && multiset(r) == multiset(ids[..n])
    {
      assert ids[..n + 1] == ids[..n] + [ids[n]];
      r := InsertByKey(key, r, ids[n]);
    }
    assert ids[..|ids|] == ids;
  }

  /** The terminal ids in whatever order the map yields them. */
  method CollectTerminal(m: Registry) returns (ids: seq<string>)
    ensures NoDup(ids) && (forall id :: id in ids <==> id in Terminal(m))
  {
    ids := [];
    var todo := Terminal(m);
    while todo != {}
      invariant todo <= Terminal(m)
      invariant NoDup(ids) && (forall id :: id in ids <==> id in Terminal(m) && id !in todo)
      decreases todo
    {
      var id :| id in todo;
      ids := ids + [id];
      todo := todo - {id};
    }
  }

  lemma {:induction false} CountOfSeq<T>(s: seq<T>)
    requires NoDup(s)
    ensures |(set x | x in s)| == |s|
  {
    if s != [] {
      var front, x := s[..|s| - 1], s[|s| - 1];
      assert s == front + [x];
      CountOfSeq(front);
      assert (set y | y in s) == (set y | y in front) + {x};
    }
  }

  lemma TerminalCount(m: Registry, ids: seq<string>)
    requires NoDup(ids) && (forall id :: id in ids <==> id in Terminal(m))
    ensures |Terminal(m)| == |ids|
  {
    CountOfSeq(ids);
    assert (set x | x in ids) == Terminal(m);
  }

  /** `prune_terminal`. */
  method PruneTerminal(age: string -> nat, m: Registry) returns (m': Registry)
    requires DistinctAges(age, m)
    ensures Pruned(age, m, m')
  {
    var terminal := |Terminal(m)|;
    if terminal <= TERMINAL_CAP {
      return m;
    }
    var found := CollectTerminal(m);
    var victims := SortByKey(age, found);
    SortedCopies(m, found, victims);
    var over := terminal - TERMINAL_CAP;
    m' := m;
    for i := 0 to over
      invariant m'.Keys == m.Keys - (set id | id in victims[..i])
      invariant forall id :: id in m' ==> m'[id] == m[id]
    {
      assert victims[..i + 1] == victims[..i] + [victims[i]];
      m' := m' - {victims[i]};
    }
    RestIsPruned(age, m, m', victims, over);
  }

  lemma SortedCopies(m: Registry, found: seq<string>, victims: seq<string>)
    requires NoDup(found) && multiset(found) == multiset(victims)
    requires forall id :: id in found <==> id in Terminal(m)
    ensures NoDup(victims) && (forall id :: id in victims <==> id in Terminal(m)) && |victims| == |Terminal(m)|
  {
    NoDupCounts(found);
    NoDupCounts(victims);
    forall id ensures id in victims <==> id in Terminal(m) {
      assert id in victims <==> id in multiset(victims);
      assert id in found <==> id in multiset(found);
    }
    TerminalCount(m, victims);
  }

  /** `m'` is `m` without the first `over` of its terminal ids, which `victims` lists. */
  ghost predicate Dropped(m: Registry, m': Registry, victims: seq<string>, over: nat) {
    && NoDup(victims) && (forall id :: id in victims <==> id in Terminal(m)) && over <= |victims|
    && m'.Keys == m.Keys - (set id | id in victims[..over]) && (forall id :: id in m' ==> m'[id] == m[id])
  }

  lemma RestIsTerminal(m: Registry, m': Registry, victims: seq<string>, over: nat)
    requires Dropped(m, m', victims, over)
    ensures forall id :: id in victims[over..] <==> id in Terminal(m')
    ensures |Terminal(m')| == |victims| - over
  {
    var rest := victims[over..];
    assert victims == victims[..over] + rest;
    forall id ensures id in rest <==> id in Terminal(m') {
      if id in rest {
        var j :| 0 <= j < |rest| && rest[j] == id;
        assert victims[over + j] == id;
        assert id !in victims[..over];
        assert id in victims;
      }
      if id in Terminal(m') { assert id in victims; }
    }
    assert NoDup(rest);
    TerminalCount(m', rest);
  }

  lemma DroppedIsOlder(age: string -> nat, m: Registry, m': Registry, victims: seq<string>, over: nat,
                       gone: string, kept: string)
    requires Dropped(m, m', victims, over) && DistinctAges(age, m) && SortedBy(age, victims)
    requires gone in Terminal(m) && gone !in m' && kept in Terminal(m')
    ensures age(gone) < age(kept)
  {
    RestIsTerminal(m, m', victims, over);
    assert gone in victims[..over];
    var i :| 0 <= i < over && victims[i] == gone;
    var rest := victims[over..];
    var j :| 0 <= j < |rest| && rest[j] == kept;
    assert victims[over + j] == kept;
    assert age(victims[i]) <= age(victims[over + j]);
  }

  lemma RestIsPruned(age: string -> nat, m: Registry, m': Registry, victims: seq<string>, over: nat)
    requires Dropped(m, m', victims, over) && DistinctAges(age, m) && SortedBy(age, victims)
    requires |victims| == |Terminal(m)| == TERMINAL_CAP + over && over > 0
    ensures Pruned(age, m, m')
  {
    RestIsTerminal(m, m', victims, over);
    forall gone, kept | gone in Terminal(m) && gone !in m' && kept in Terminal(m') ensures age(gone) < age(kept) {
      DroppedIsOlder(age, m, m', victims, over, gone, kept);
    }
    assert forall x :: x in victims[..over] ==> x in victims;
  }

  lemma InsertedIsPruned(age: string -> nat, m: Registry, m': Registry, id: string)
    requires Pruned(age, m, m') && id !in m
    ensures m'[id := FRESH] - {id} == m' && |Terminal(m'[id := FRESH])| <= TERMINAL_CAP
  {
    assert Terminal(m'[id := FRESH]) == Terminal(m');
  }

  // ---- The registry ----

  /** Ids were printed from distinct numbers already handed out, and logs respect the cap. */
  ghost predicate Sound(m: Registry, next: nat) {
    && (forall id :: id in m ==> IdSuffix(id) < next && id == IdOf(IdSuffix(id)))
    && (forall id :: id in m ==> |m[id].log| <= LOG_CAP)
  }

  lemma SoundIsDistinct(m: Registry, next: nat)
    requires Sound(m, next)
    ensures DistinctAges(IdSuffix, m)
  {
    forall a, b | a in m && b in m && a != b ensures IdSuffix(a) != IdSuffix(b) {
      assert a == IdOf(IdSuffix(a)) && b == IdOf(IdSuffix(b));
    }
  }

  class JobRegistry {
    var jobs: Registry
    var next: nat

    ghost predicate Valid()
      reads this
    {
      Sound(jobs, next)
    }

    constructor ()
      ensures Valid() && jobs == map[] && next == 0
    {
      jobs, next := map[], 0;
    }

    /** The atomic counter, taken before the lock. */
    method Reserve() returns (id: string)
      requires Valid()
      modifies this`next
      ensures Valid() && next == old(next) + 1 && id == IdOf(old(next)) && id !in jobs
    {
      SuffixInverts(next);
      id := IdOf(next);
      next := next + 1;
    }

    /** The rest of `create`, under the lock, for an id reserved earlier. */
    method Insert(id: string)
      requires Valid() && id == IdOf(IdSuffix(id)) && IdSuffix(id) < next
      modifies this`jobs
      ensures Valid()
      ensures exists m :: Pruned(IdSuffix, old(jobs), m) && jobs == m[id := FRESH]
    {
      SoundIsDistinct(jobs, next);
      var pruned := PruneTerminal(IdSuffix, jobs);
      jobs := pruned[id := FRESH];
    }

    /** `create` with nothing in between: the new job runs, running jobs are all still there, at most the
        cap of terminal ones is left, and those that went are the oldest. */
    method Create() returns (id: string)
      requires Valid()
      modifies this
      ensures Valid() && id == IdOf(old(next)) && next == old(next) + 1
      ensures id !in old(jobs) && id in jobs && jobs[id] == FRESH
      ensures Pruned(IdSuffix, old(jobs), jobs - {id}) && |Terminal(jobs)| <= TERMINAL_CAP
    {
      id := Reserve();
      SuffixInverts(next - 1);
      Insert(id);
      ghost var m: Registry :| Pruned(IdSuffix, old(jobs), m) && jobs == m[id := FRESH];
      InsertedIsPruned(IdSuffix, old(jobs), m, id);
    }

    method PushLog(id: string, raw: string)
      requires Valid()
      modifies this`jobs
      ensures Valid()
      ensures jobs == if id in old(jobs) && Strip(raw) != "" then old(jobs)[id := Pushed(old(jobs)[id], Strip(raw))]
                      else old(jobs)
    {
      var line := RunStrip(raw);
      if line == "" {
        return;
      }
      if id in jobs {
        var job := jobs[id];
        job := job.(log := job.log + [line]);
        if |job.log| > LOG_CAP {
          var over := |job.log| - LOG_CAP;
          job := job.(log := job.log[over..]);
          job := job.(dropped := job.dropped + over);
        }
        assert job == Pushed(jobs[id], line);
        jobs := jobs[id := job];
      }
    }

    method Finish(id: string, state: JobState, error: Option<string>)
      requires Valid()
      modifies this`jobs
      ensures Valid() && jobs.Keys == old(jobs.Keys)
      ensures id in jobs ==> jobs[id] == old(jobs)[id].(state := state, error := error)
      ensures forall k :: k in jobs && k != id ==> jobs[k] == old(jobs)[k]
      ensures id in jobs ==>
                (forall cursor ::
                   Polled(jobs[id], cursor) == Polled(old(jobs)[id], cursor).(state := state, error := error))
    {
      if id in jobs {
        jobs := jobs[id := jobs[id].(state := state, error := error)];
      }
    }

    method Poll(id: string, cursor: nat) returns (r: Option<Progress>)
      ensures r == if id in jobs then Some(Polled(jobs[id], cursor)) else None
    {
      if id !in jobs {
        return None;
      }
      var job := jobs[id];
      var total := job.dropped + |job.log|;
      var start := if cursor < job.dropped then 0 else cursor - job.dropped;
      if start > |job.log| {
        start := |job.log|;
      }
      return Some(Progress(job.state, job.phase, job.log[start..], total, job.error));
    }
  }
}
