/** One-time remote-setup codes: minting, revoking and redeeming as interleaved steps
    (bin/orckerd/src/lan_setup.rs:115-221, bin/orckerd/src/ipc_server.rs:1104-1180). */
module LanSetup {
  import opened Text

  // ---- The code slot ----

  /** A minted code; `id` numbers the mints and is not part of what is served. */
  datatype SetupCode = SetupCode(value: string, expires: nat, used: bool, id: nat)

  const CODE_TTL: nat := 900

  predicate Redeemable(slot: Option<SetupCode>, now: nat, candidate: string) {
    slot.Some? && !slot.value.used && now < slot.value.expires && slot.value.value == candidate
  }

  function Redeemed(slot: Option<SetupCode>, now: nat, candidate: string): Option<SetupCode> {
    if Redeemable(slot, now, candidate) then Some(slot.value.(used := true)) else slot
  }

  /** Compare without an early exit, once the lengths agree. */
  method ConstantTimeEq(a: string, b: string) returns (same: bool)
    ensures same <==> a == b
  {
    if |a| != |b| {
      return false;
    }
    same := true;
    for i := 0 to |a|
      invariant same <==> a[..i] == b[..i]
    {
      assert a[..i + 1] == a[..i] + [a[i]] && b[..i + 1] == b[..i] + [b[i]];
      var equal := a[i] == b[i];
      same := same && equal;
    }
    assert a[..|a|] == a && b[..|b|] == b;
  }

  class CodeSlot {
    var code: Option<SetupCode>

    constructor ()
      ensures code == None
    {
      code := None;
    }

    /** `consume_code`, from the moment it has the slot's lock; `now` was read before that. */
    method Consume(now: nat, candidate: string) returns (ok: bool)
      modifies this
      ensures ok == Redeemable(old(code), now, candidate)
      ensures code == Redeemed(old(code), now, candidate)
    {
      if code.None? {
        return false;
      }
      var same := ConstantTimeEq(code.value.value, candidate);
      if code.value.used || code.value.expires <= now || !same {
        return false;
      }
      code := Some(code.value.(used := true));
      ok := true;
    }
  }

  // ---- Requests ----

  /** `str::split('&')`. */
  function Split(q: string): (pairs: seq<string>)
    ensures |pairs| >= 1
  {
    if q == "" then [""]
    else
      var rest := Split(q[1..]);
      if q[0] == '&' then [""] + rest else [[q[0]] + rest[0]] + rest[1..]
  }

  function Joined(pairs: seq<string>): string
    requires pairs != []
  {
    if |pairs| == 1 then pairs[0] else pairs[0] + "&" + Joined(pairs[1..])
  }

  lemma {:induction false} SplitJoins(q: string)
    ensures Joined(Split(q)) == q
    ensures forall i :: 0 <= i < |Split(q)| ==> '&' !in Split(q)[i]
  {
    if q != "" {
      SplitJoins(q[1..]);
      var rest := Split(q[1..]);
      assert q == [q[0]] + q[1..];
      if q[0] == '&' {
        assert ([""] + rest)[1..] == rest;
        assert Joined([""] + rest) == "" + "&" + Joined(rest);
      } else {
        JoinedGrows(q[0], rest);
      }
    }
  }

  lemma JoinedGrows(c: char, pairs: seq<string>)
    requires pairs != []
    ensures Joined([[c] + pairs[0]] + pairs[1..]) == [c] + Joined(pairs)
  {
    var more := [[c] + pairs[0]] + pairs[1..];
    assert more[1..] == pairs[1..];
    if |pairs| > 1 {
      assert Joined(more) == [c] + pairs[0] + "&" + Joined(pairs[1..]);
    }
  }

  lemma {:induction false} SplitOfOne(q: string)
    requires '&' !in q
    ensures Split(q) == [q]
  {
    if q != "" {
      assert q == [q[0]] + q[1..];
      SplitOfOne(q[1..]);
    }
  }

  const CODE_KEY := "code="

  /** Piece `i` of a query is the first to give a non-empty `code`, and `v` is what it gives. */
  ghost predicate FirstCodeAt(pairs: seq<string>, i: nat, v: string) {
    && i < |pairs| && v != "" && pairs[i] == "code=" + v
    && (forall j, w :: 0 <= j < i && pairs[j] == "code=" + w ==> w == "")
  }

  /** `v` is the code a query carries. */
  ghost predicate Carries(query: string, v: string) {
    exists i: nat :: FirstCodeAt(Split(query), i, v)
  }

  /** A query carries at most one code. */
  lemma CarriesOne(query: string, v: string, w: string)
    requires Carries(query, v) && Carries(query, w)
    ensures v == w
  {
    var pairs := Split(query);
    var i: nat :| FirstCodeAt(pairs, i, v);
    var j: nat :| FirstCodeAt(pairs, j, w);
    assert i == j;
    assert v == pairs[i][5..] && w == pairs[i][5..];
  }

  /** A query that is a code parameter and nothing else carries that code. */
  lemma LinkCarriesItsCode(v: string)
    requires v != "" && '&' !in v
    ensures Carries("code=" + v, v)
  {
    SplitOfOne("code=" + v);
    assert FirstCodeAt(["code=" + v], 0, v);
  }

  /** `extract_code`: the text after `code=` in the first piece that has any. */
  method ExtractCode(query: Option<string>) returns (r: Option<string>)
    ensures forall v :: r == Some(v) <==> query.Some? && Carries(query.value, v)
  {
    if query.None? {
      return None;
    }
    var pairs := Split(query.value);
    for i := 0 to |pairs|
      invariant forall j, w :: 0 <= j < i && pairs[j] == "code=" + w ==> w == ""
    {
      if CODE_KEY <= pairs[i] {
        var v := pairs[i][|CODE_KEY|..];
        assert pairs[i] == "code=" + v;
        if v != "" {
          assert FirstCodeAt(pairs, i, v);
          forall w | Carries(query.value, w) ensures w == v { CarriesOne(query.value, v, w); }
          return Some(v);
        }
      }
    }
    return None;
  }

  /** The query of a link handed out for the stored code, while that can be redeemed. */
  predicate IsLinkFor(slot: Option<SetupCode>, now: nat, query: Option<string>) {
    && slot.Some? && !slot.value.used && now < slot.value.expires
    && slot.value.value != "" && '&' !in slot.value.value && query == Some("code=" + slot.value.value)
  }

  datatype Decision = Script | NotAllowed | Forbidden | NotFound

  /** `decide`: the script goes out exactly when a GET of the one route carries a code that redeems, which uses
      the code up; in particular for a link made of the stored code. */
  method Decide(slot: CodeSlot, now: nat, isGet: bool, path: string, query: Option<string>) returns (d: Decision)
    modifies slot
    ensures d.NotAllowed? <==> !isGet
    ensures d.NotFound? <==> isGet && path != "/remote-setup"
    ensures d.Script? <==>
              && isGet && path == "/remote-setup" && query.Some? && old(slot.code).Some?
              && !old(slot.code).value.used && now < old(slot.code).value.expires
              && Carries(query.value, old(slot.code).value.value)
    ensures slot.code == if d.Script? then Some(old(slot.code).value.(used := true)) else old(slot.code)
    ensures isGet && path == "/remote-setup" && IsLinkFor(old(slot.code), now, query) ==> d.Script?
  {
    if slot.code.Some? && slot.code.value.value != "" && '&' !in slot.code.value.value {
      LinkCarriesItsCode(slot.code.value.value);
    }
    if !isGet {
      return NotAllowed;
    }
    if path != "/remote-setup" {
      return NotFound;
    }
    var code := ExtractCode(query);
    if code.None? {
      assert forall v :: !(query.Some? && Carries(query.value, v));
      return Forbidden;
    }
    var ok := slot.Consume(now, code.value);
    d := if ok then Script else Forbidden;
  }

  // ---- The protocol ----

  /** Everything that takes the config mutex, and redemptions, which do not. */
  datatype Job = Mint(value: string, ready: bool) | SetLan(on: bool) | OtherConfigUse | Redemption(candidate: string)

  datatype Phase = Waiting | Locked | Checked | Stamped(expires: nat) | Swapped | Finished | Captured(now: nat)

  datatype Task = Task(job: Job, phase: Phase)

  /** A successful redemption: which mint, the clock it read, and the clock when it took the slot. */
  datatype Receipt = Receipt(id: nat, captured: nat, at: nat, expires: nat)

  /** Mints numbered below `revoked` have been revoked. */
  datatype Sys = Sys(
    lan: bool, slot: Option<SetupCode>, clock: nat, holder: Option<nat>, tasks: map<nat, Task>,
    minted: nat, revoked: nat, receipts: seq<Receipt>)

  datatype Step =
    | Tick(amount: nat)
    | Arrive(t: nat, job: Job)
    | Acquire(t: nat)
    | Release(t: nat)
    | Check(t: nat)
    | Stamp(t: nat)
    | Store(t: nat)
    | Switch(t: nat)
    | Clear(t: nat)
    | ReadClock(t: nat)
    | Attempt(t: nat)

  predicate At(s: Sys, t: nat, phase: Phase) {
    t in s.tasks && s.tasks[t].phase == phase
  }

  /** The mutex holder `t` is at `phase`. */
  predicate HolderAt(s: Sys, t: nat, phase: Phase) {
    s.holder == Some(t) && At(s, t, phase)
  }

  function Advance(s: Sys, t: nat, phase: Phase): map<nat, Task>
    requires t in s.tasks
  {
    s.tasks[t := s.tasks[t].(phase := phase)]
  }

  /** Where a handler lets go of the mutex: refused, failed to save, nothing to do, or done. */
  predicate MayRelease(s: Sys, job: Job, phase: Phase) {
    match phase
    case Locked => (job.Mint? && (!s.lan || !job.ready)) || job.SetLan? || job.OtherConfigUse?
    case Swapped => job.SetLan? && job.on
    case Finished => true
    case _ => false
  }

  predicate Enabled(s: Sys, st: Step) {
    match st
    case Tick(_) => true
    case Arrive(t, _) => t !in s.tasks
    case Acquire(t) => s.holder.None? && At(s, t, Waiting) && !s.tasks[t].job.Redemption?
    case Release(t) => s.holder == Some(t) && t in s.tasks && MayRelease(s, s.tasks[t].job, s.tasks[t].phase)
    case Check(t) => HolderAt(s, t, Locked) && s.tasks[t].job.Mint? && s.tasks[t].job.ready && s.lan
    case Stamp(t) => HolderAt(s, t, Checked)
    case Store(t) => s.holder == Some(t) && t in s.tasks && s.tasks[t].phase.Stamped? && s.tasks[t].job.Mint?
    case Switch(t) => HolderAt(s, t, Locked) && s.tasks[t].job.SetLan?
    case Clear(t) => HolderAt(s, t, Swapped) && s.tasks[t].job.SetLan? && !s.tasks[t].job.on
    case ReadClock(t) => At(s, t, Waiting) && s.tasks[t].job.Redemption?
    case Attempt(t) => t in s.tasks && s.tasks[t].phase.Captured? && s.tasks[t].job.Redemption?
  }

  predicate Succeeds(s: Sys, t: nat)
    requires Enabled(s, Attempt(t))
  {
    Redeemable(s.slot, s.tasks[t].phase.now, s.tasks[t].job.candidate)
  }

  ghost function After(s: Sys, st: Step): Sys
    requires Enabled(s, st)
  {
    match st
    case Tick(amount) => s.(clock := s.clock + amount)
    case Arrive(t, job) => s.(tasks := s.tasks[t := Task(job, Waiting)])
    case Acquire(t) => s.(holder := Some(t), tasks := Advance(s, t, Locked))
    case Release(t) => s.(holder := None, tasks := s.tasks - {t})
    case Check(t) => s.(tasks := Advance(s, t, Checked))
    case Stamp(t) => s.(tasks := Advance(s, t, Stamped(s.clock + CODE_TTL)))
    case Store(t) =>
      s.(slot := Some(SetupCode(s.tasks[t].job.value, s.tasks[t].phase.expires, false, s.minted)),
         minted := s.minted + 1, tasks := Advance(s, t, Finished))
    case Switch(t) => s.(lan := s.tasks[t].job.on, tasks := Advance(s, t, Swapped))
    case Clear(t) => s.(slot := None, revoked := s.minted, tasks := Advance(s, t, Finished))
    case ReadClock(t) => s.(tasks := Advance(s, t, Captured(s.clock)))
    case Attempt(t) =>
      var now := s.tasks[t].phase.now;
      if Succeeds(s, t) then
        s.(slot := Redeemed(s.slot, now, s.tasks[t].job.candidate), tasks := s.tasks - {t},
           receipts := s.receipts + [Receipt(s.slot.value.id, now, s.clock, s.slot.value.expires)])
      else s.(tasks := s.tasks - {t})
  }

  // ---- Invariants ----

  ghost predicate HasReceipt(s: Sys, id: nat) {
    exists i :: 0 <= i < |s.receipts| && s.receipts[i].id == id
  }

  /** The slot holds the newest mint, still alive, and marked used exactly once it has a receipt. */
  ghost predicate SlotSound(s: Sys) {
    s.slot.Some? ==>
      && s.revoked <= s.slot.value.id && s.slot.value.id + 1 == s.minted
      && (s.slot.value.used <==> HasReceipt(s, s.slot.value.id))
  }

  /** No mint has two receipts, and each was redeemed on a clock reading before its expiry. */
  ghost predicate ReceiptsSound(s: Sys) {
    && (forall i, j :: 0 <= i < j < |s.receipts| ==> s.receipts[i].id != s.receipts[j].id)
    && (forall i :: 0 <= i < |s.receipts| ==>
          var r := s.receipts[i]; r.id < s.minted && r.captured < r.expires && r.captured <= r.at <= s.clock)
  }

  ghost predicate TasksSound(s: Sys) {
    && (forall t :: t in s.tasks && s.holder != Some(t) ==>
          || s.tasks[t].phase.Waiting?
          || (s.tasks[t].phase.Captured? && s.tasks[t].job.Redemption? && s.tasks[t].phase.now <= s.clock))
    && (s.holder.Some? ==> s.holder.value in s.tasks && HolderSound(s, s.tasks[s.holder.value]))
    && s.revoked <= s.minted
  }

  /** With LAN off the slot is empty, but for the moment between switching it off and clearing the slot. */
  ghost predicate HolderSound(s: Sys, task: Task) {
    && !task.job.Redemption?
    && (task.phase.Checked? || task.phase.Stamped? ==> task.job.Mint? && s.lan)
    && (task.phase.Captured? || task.phase.Waiting? ==> false)
    && (task.phase.Swapped? ==> task.job.SetLan? && s.lan == task.job.on)
  }

  ghost predicate Clearing(s: Sys) {
    && s.holder.Some? && s.holder.value in s.tasks
    && s.tasks[s.holder.value].job == SetLan(false) && s.tasks[s.holder.value].phase.Swapped?
  }

  ghost predicate OffIsEmpty(s: Sys) {
    !s.lan && !Clearing(s) ==> s.slot.None?
  }

  ghost predicate Inv(s: Sys) {
    SlotSound(s) && ReceiptsSound(s) && TasksSound(s) && OffIsEmpty(s)
  }

  ghost predicate Init(s: Sys) {
    s.slot.None? && s.holder.None? && s.tasks == map[] && s.minted == 0 && s.revoked == 0 && s.receipts == []
  }

  lemma AttemptKeepsReceipts(s: Sys, t: nat)
    requires Inv(s) && Enabled(s, Attempt(t))
    ensures SlotSound(After(s, Attempt(t))) && ReceiptsSound(After(s, Attempt(t)))
  {
    var s' := After(s, Attempt(t));
    if Succeeds(s, t) {
      assert s'.receipts[|s.receipts|].id == s.slot.value.id;
      assert !HasReceipt(s, s.slot.value.id);
      assert s.holder != Some(t);
    } else {
      assert s'.receipts == s.receipts;
      assert s.slot.Some? ==> (HasReceipt(s', s.slot.value.id) <==> HasReceipt(s, s.slot.value.id));
    }
  }

  lemma StoreKeepsReceipts(s: Sys, t: nat)
    requires Inv(s) && Enabled(s, Store(t))
    ensures SlotSound(After(s, Store(t))) && ReceiptsSound(After(s, Store(t)))
  {
    var s' := After(s, Store(t));
    assert s'.receipts == s.receipts;
    assert !HasReceipt(s', s.minted);
  }

  lemma OthersKeepReceipts(s: Sys, st: Step)
    requires Inv(s) && Enabled(s, st) && !st.Attempt? && !st.Store?
    ensures SlotSound(After(s, st)) && ReceiptsSound(After(s, st))
  {
    var s' := After(s, st);
    assert s'.receipts == s.receipts;
    assert s.slot.Some? ==> (HasReceipt(s', s.slot.value.id) <==> HasReceipt(s, s.slot.value.id));
  }

  lemma StepKeepsTasks(s: Sys, st: Step)
    requires Inv(s) && Enabled(s, st)
    ensures TasksSound(After(s, st)) && OffIsEmpty(After(s, st))
  {
    var s' := After(s, st);
    if s.holder.Some? {
      assert HolderSound(s, s.tasks[s.holder.value]);
    }
  }

  lemma StepKeepsInv(s: Sys, st: Step)
    requires Inv(s) && Enabled(s, st)
    ensures Inv(After(s, st))
  {
    StepKeepsTasks(s, st);
    if st.Attempt? {
      AttemptKeepsReceipts(s, st.t);
    } else if st.Store? {
      StoreKeepsReceipts(s, st.t);
    } else {
      OthersKeepReceipts(s, st);
    }
  }

  // ---- Runs ----

  ghost predicate CodeRun(run: seq<Sys>, steps: seq<Step>) {
    && |run| == |steps| + 1 && Init(run[0])
    && (forall i :: 0 <= i < |steps| ==> Enabled(run[i], steps[i]) && run[i + 1] == After(run[i], steps[i]))
  }

  lemma {:induction false} RunKeepsInv(run: seq<Sys>, steps: seq<Step>, n: nat)
    requires CodeRun(run, steps) && n <= |steps|
    ensures Inv(run[n])
  {
    if n > 0 {
      RunKeepsInv(run, steps, n - 1);
      StepKeepsInv(run[n - 1], steps[n - 1]);
    }
  }

  /** In every interleaving each minted code is redeemed at most once, always on a clock reading before its
      expiry, and whenever the config mutex is free and LAN is off no code is stored. */
  lemma CodesAreOneTime(run: seq<Sys>, steps: seq<Step>, n: nat)
    requires CodeRun(run, steps) && n <= |steps|
    ensures forall i, j :: 0 <= i < j < |run[n].receipts| ==> run[n].receipts[i].id != run[n].receipts[j].id
    ensures forall i :: 0 <= i < |run[n].receipts| ==> run[n].receipts[i].captured < run[n].receipts[i].expires
    ensures run[n].holder.None? && !run[n].lan ==> run[n].slot.None?
  {
    RunKeepsInv(run, steps, n);
  }

  /** Only the newest code can be redeemed, and never a revoked one. */
  lemma RedemptionIsOfTheNewest(run: seq<Sys>, steps: seq<Step>, n: nat)
    requires CodeRun(run, steps) && n < |steps| && steps[n].Attempt? && Succeeds(run[n], steps[n].t)
    ensures run[n].revoked <= run[n].slot.value.id && run[n].slot.value.id + 1 == run[n].minted
    ensures run[n + 1].slot == Some(run[n].slot.value.(used := true))
  {
    RunKeepsInv(run, steps, n);
  }

  lemma {:induction false} SlotIsNewerThan(run: seq<Sys>, steps: seq<Step>, n: nat, m: nat)
    requires CodeRun(run, steps) && n <= m <= |steps| && run[n].slot.None?
    ensures run[n].minted <= run[m].minted
    ensures run[m].slot.Some? ==> run[m].slot.value.id >= run[n].minted
    decreases m
  {
    if n < m {
      SlotIsNewerThan(run, steps, n, m - 1);
      assert run[m] == After(run[m - 1], steps[m - 1]);
    }
  }

  /** Once LAN has been switched off, only codes minted afterwards can ever be redeemed. */
  lemma RevocationIsFinal(run: seq<Sys>, steps: seq<Step>, n: nat, m: nat)
    requires CodeRun(run, steps) && n <= m < |steps| && run[n].holder.None? && !run[n].lan
    requires steps[m].Attempt? && Succeeds(run[m], steps[m].t)
    ensures run[m].slot.value.id >= run[n].minted
  {
    RunKeepsInv(run, steps, n);
    SlotIsNewerThan(run, steps, n, m);
  }

  /** Steps of peers only: guesses, all wrong, and the passing of time. */
  ghost predicate OnlyWrongGuesses(run: seq<Sys>, steps: seq<Step>, n: nat, m: nat)
    requires CodeRun(run, steps) && n <= m <= |steps|
  {
    forall i :: n <= i < m ==>
      match steps[i]
      case Tick(_) => true
      case Arrive(_, job) => job.Redemption?
      case ReadClock(_) => true
      case Attempt(t) => run[i].slot.Some? ==> run[i].tasks[t].job.candidate != run[i].slot.value.value
      case _ => false
  }

  /** No number of wrong guesses touches the stored code: the right one still redeems until it expires. */
  lemma {:induction false} WrongGuessesChangeNothing(run: seq<Sys>, steps: seq<Step>, n: nat, m: nat)
    requires CodeRun(run, steps) && n <= m <= |steps| && OnlyWrongGuesses(run, steps, n, m)
    ensures run[m].slot == run[n].slot && run[m].receipts == run[n].receipts
    ensures forall now, v :: Redeemable(run[m].slot, now, v) <==> Redeemable(run[n].slot, now, v)
    decreases m
  {
    if n < m {
      WrongGuessesChangeNothing(run, steps, n, m - 1);
      assert run[m] == After(run[m - 1], steps[m - 1]);
    }
  }

  // ---- Waiting for the slot ----

  /** A run of its own that goes on from any state. */
  ghost predicate Path(run: seq<Sys>, steps: seq<Step>) {
    && |run| == |steps| + 1
    && (forall i :: 0 <= i < |steps| ==> Enabled(run[i], steps[i]) && run[i + 1] == After(run[i], steps[i]))
  }

  lemma PathsJoin(run1: seq<Sys>, steps1: seq<Step>, run2: seq<Sys>, steps2: seq<Step>)
    requires Path(run1, steps1) && Path(run2, steps2) && run2[0] == run1[|steps1|]
    ensures Path(run1 + run2[1..], steps1 + steps2)
    ensures (run1 + run2[1..])[|steps1 + steps2|] == run2[|steps2|]
  {
    var run, steps := run1 + run2[1..], steps1 + steps2;
    forall i | 0 <= i < |steps| ensures Enabled(run[i], steps[i]) && run[i + 1] == After(run[i], steps[i]) {
      if i >= |steps1| {
        assert run[i] == run2[i - |steps1|] && run[i + 1] == run2[i - |steps1| + 1];
      }
    }
  }

  lemma MintStarts(s: Sys, v: string) returns (run: seq<Sys>, steps: seq<Step>)
    requires s.lan && s.holder.None? && s.tasks == map[]
    ensures Path(run, steps) && run[0] == s
    ensures run[|steps|] == s.(holder := Some(1), tasks := map[1 := Task(Mint(v, true), Checked)])
  {
    var job := Mint(v, true);
    var s1 := After(s, Arrive(1, job));
    assert s1 == s.(tasks := map[1 := Task(job, Waiting)]);
    var s2 := After(s1, Acquire(1));
    assert s2 == s.(holder := Some(1), tasks := map[1 := Task(job, Locked)]);
    run := [s, s1, s2, After(s2, Check(1))];
    steps := [Arrive(1, job), Acquire(1), Check(1)];
  }

  lemma MintEnds(s: Sys, v: string) returns (run: seq<Sys>, steps: seq<Step>)
    requires s.holder == Some(1) && s.tasks == map[1 := Task(Mint(v, true), Checked)]
    ensures Path(run, steps) && run[0] == s
    ensures run[|steps|] == s.(holder := None, tasks := map[], minted := s.minted + 1,
                               slot := Some(SetupCode(v, s.clock + CODE_TTL, false, s.minted)))
  {
    var s1 := After(s, Stamp(1));
    assert s1 == s.(tasks := map[1 := Task(Mint(v, true), Stamped(s.clock + CODE_TTL))]);
    var s2 := After(s1, Store(1));
    run := [s, s1, s2, After(s2, Release(1))];
    steps := [Stamp(1), Store(1), Release(1)];
  }

  lemma RedeemAfter(s: Sys, wait: nat) returns (run: seq<Sys>, steps: seq<Step>)
    requires s.tasks == map[] && s.slot.Some? && !s.slot.value.used && s.clock < s.slot.value.expires
    ensures Path(run, steps) && run[0] == s
    ensures var receipt := Receipt(s.slot.value.id, s.clock, s.clock + wait, s.slot.value.expires);
            run[|steps|].receipts == s.receipts + [receipt]
  {
    var v := s.slot.value.value;
    var s1 := After(s, Arrive(2, Redemption(v)));
    var s2 := After(s1, ReadClock(2));
    var s3 := After(s2, Tick(wait));
    run := [s, s1, s2, s3, After(s3, Attempt(2))];
    steps := [Arrive(2, Redemption(v)), ReadClock(2), Tick(wait), Attempt(2)];
  }

  /** The reading, not the redemption, is what precedes expiry: a peer that reads the clock in time and then
      waits for the slot, for however long, still redeems. */
  lemma RedemptionCanBeLate(s: Sys, v: string, wait: nat) returns (run: seq<Sys>, steps: seq<Step>)
    requires Init(s) && s.lan
    ensures CodeRun(run, steps)
    ensures var r := run[|steps|].receipts;
            |r| == 1 && r[0].at == r[0].captured + wait && r[0].expires == r[0].captured + CODE_TTL
  {
    var run1, steps1 := MintStarts(s, v);
    var run2, steps2 := MintEnds(run1[|steps1|], v);
    var run3, steps3 := RedeemAfter(run2[|steps2|], wait);
    PathsJoin(run1, steps1, run2, steps2);
    PathsJoin(run1 + run2[1..], steps1 + steps2, run3, steps3);
    run, steps := run1 + run2[1..] + run3[1..], steps1 + steps2 + steps3;
  }
}
