/** A job's output from the producer to the polling client, in every interleaving
    (bin/orckerd/src/jobs.rs:84-133, bin/orckerd/src/ipc_server.rs:879-926, bin/orcker/src/lib.rs:702-738). */
module JobStream {
  import opened Text
  import opened Ansi
  import opened Jobs

  // ---- The log of one job ----

  /** The lines that end up in a log: stripped, blank ones left out. */
  function Lines(raw: seq<string>): seq<string> {
    if raw == [] then []
    else
      var front, line := Lines(raw[..|raw| - 1]), Strip(raw[|raw| - 1]);
      if line == "" then front else front + [line]
  }

  lemma LinesGrow(raw: seq<string>, line: string)
    ensures Lines(raw + [line]) == if Strip(line) == "" then Lines(raw) else Lines(raw) + [Strip(line)]
  {
    assert (raw + [line])[..|raw|] == raw;
  }

  lemma {:induction false} LinesExtend(raw: seq<string>, more: seq<string>)
    ensures Lines(raw) <= Lines(raw + more)
  {
    if more != [] {
      var front := more[..|more| - 1];
      LinesExtend(raw, front);
      assert raw + more == (raw + front) + [more[|more| - 1]];
      LinesGrow(raw + front, more[|more| - 1]);
    } else {
      assert raw + more == raw;
    }
  }

  /** How many of the first `n` lines have been evicted by the time the `n`-th is in. */
  function Evicted(n: nat): nat { if n > LOG_CAP then n - LOG_CAP else 0 }

  /** The job holds exactly the last lines of what was pushed. */
  ghost predicate Holds(job: Job, pushed: seq<string>) {
    job.dropped == Evicted(|pushed|) && job.log == pushed[Evicted(|pushed|)..]
  }

  lemma PushHolds(job: Job, pushed: seq<string>, line: string)
    requires Holds(job, pushed)
    ensures Holds(Pushed(job, line), pushed + [line])
  {
    var more := pushed + [line];
    assert job.log + [line] == more[Evicted(|pushed|)..];
    if |more| > LOG_CAP {
      assert more[Evicted(|pushed|)..][|job.log| + 1 - LOG_CAP..] == more[Evicted(|more|)..];
    }
  }

  /** What the drain task does to the job with one raw line. */
  function Logged(job: Job, line: string): Job {
    if line != "" then Pushed(job, line) else job
  }

  lemma LogOne(job: Job, raw: seq<string>, line: string)
    requires Holds(job, Lines(raw))
    ensures Holds(Logged(job, Strip(line)), Lines(raw + [line])) && Lines(raw) <= Lines(raw + [line])
  {
    LinesGrow(raw, line);
    if Strip(line) != "" {
      PushHolds(job, Lines(raw), Strip(line));
    }
  }

  /** A poll by a client that is not ahead returns everything it lacks that is still there. */
  lemma PollReturns(job: Job, pushed: seq<string>, cursor: nat)
    requires Holds(job, pushed) && cursor <= |pushed|
    ensures var r := Polled(job, cursor);
            && r.nextCursor == |pushed| && r.log == Delivered(pushed, PollOf(cursor, |pushed|))
            && r.state == job.state && r.phase == job.phase && r.error == job.error
  {
    var skip := if cursor >= job.dropped then cursor - job.dropped else 0;
    assert pushed[Evicted(|pushed|)..][skip..] == pushed[Evicted(|pushed|) + skip..];
  }

  // ---- Polls and what they print ----

  /** One successful poll: the cursor it was made with and the one it returned. */
  datatype PollOf = PollOf(from: nat, to: nat)

  function First(p: PollOf): nat { if p.from >= Evicted(p.to) then p.from else Evicted(p.to) }

  ghost predicate Consecutive(polls: seq<PollOf>, cursor: nat) {
    if polls == [] then cursor == 0
    else
      var p := polls[|polls| - 1];
      p.to == cursor && p.from <= cursor && Consecutive(polls[..|polls| - 1], p.from)
  }

  function Delivered(pushed: seq<string>, p: PollOf): seq<string>
    requires p.from <= p.to <= |pushed|
  {
    pushed[First(p)..p.to]
  }

  /** Everything a sequence of polls printed. */
  ghost function Transcript(pushed: seq<string>, polls: seq<PollOf>, cursor: nat): seq<string>
    requires Consecutive(polls, cursor) && cursor <= |pushed|
    decreases |polls|
  {
    if polls == [] then []
    else Transcript(pushed, polls[..|polls| - 1], polls[|polls| - 1].from) + Delivered(pushed, polls[|polls| - 1])
  }

  lemma {:induction false} TranscriptReadsPrefix(pushed: seq<string>, more: seq<string>, polls: seq<PollOf>,
                                                 cursor: nat)
    requires Consecutive(polls, cursor) && cursor <= |pushed| && pushed <= more
    ensures Transcript(more, polls, cursor) == Transcript(pushed, polls, cursor)
    decreases |polls|
  {
    if polls != [] {
      var p := polls[|polls| - 1];
      TranscriptReadsPrefix(pushed, more, polls[..|polls| - 1], p.from);
      assert more[First(p)..p.to] == pushed[First(p)..p.to];
    }
  }

  function Range(a: nat, b: nat): seq<nat>
    requires a <= b
  {
    seq(b - a, i requires 0 <= i < b - a => a + i)
  }

  /** The positions of the printed lines among those pushed. */
  ghost function Positions(polls: seq<PollOf>, cursor: nat): seq<nat>
    requires Consecutive(polls, cursor)
    decreases |polls|
  {
    if polls == [] then []
    else Positions(polls[..|polls| - 1], polls[|polls| - 1].from) + Range(First(polls[|polls| - 1]), cursor)
  }

  /** Line `k` was polled for and still there when it was. */
  ghost predicate CaughtInTime(polls: seq<PollOf>, k: nat) {
    exists i :: 0 <= i < |polls| && polls[i].from <= k < polls[i].to && Evicted(polls[i].to) <= k
  }

  lemma CaughtGrows(front: seq<PollOf>, p: PollOf, k: nat)
    ensures CaughtInTime(front + [p], k) <==> CaughtInTime(front, k) || (First(p) <= k < p.to)
  {
    var polls := front + [p];
    if CaughtInTime(front, k) {
      var i :| 0 <= i < |front| && front[i].from <= k < front[i].to && Evicted(front[i].to) <= k;
      assert polls[i] == front[i];
    }
    if First(p) <= k < p.to { assert polls[|front|] == p; }
    if CaughtInTime(polls, k) {
      var i :| 0 <= i < |polls| && polls[i].from <= k < polls[i].to && Evicted(polls[i].to) <= k;
      assert i < |front| ==> polls[i] == front[i];
    }
  }

  /** Strictly increasing, all below `m`. */
  ghost predicate Rises(a: seq<nat>, m: nat) {
    (forall i :: 0 <= i < |a| ==> a[i] < m) && (forall i, j :: 0 <= i < j < |a| ==> a[i] < a[j])
  }

  lemma RisingThenRange(a: seq<nat>, m: nat, lo: nat, hi: nat)
    requires Rises(a, m) && m <= lo <= hi
    ensures Rises(a + Range(lo, hi), hi)
  {
  }

  lemma {:induction false} PositionsRise(polls: seq<PollOf>, cursor: nat)
    requires Consecutive(polls, cursor)
    ensures Rises(Positions(polls, cursor), cursor)
    decreases |polls|
  {
    if polls != [] {
      var p := polls[|polls| - 1];
      PositionsRise(polls[..|polls| - 1], p.from);
      RisingThenRange(Positions(polls[..|polls| - 1], p.from), p.from, First(p), cursor);
    }
  }

  lemma {:induction false} PositionsAreCaught(polls: seq<PollOf>, cursor: nat, k: nat)
    requires Consecutive(polls, cursor)
    ensures k in Positions(polls, cursor) <==> CaughtInTime(polls, k)
    decreases |polls|
  {
    if polls != [] {
      var front, p := polls[..|polls| - 1], polls[|polls| - 1];
      PositionsAreCaught(front, p.from, k);
      assert polls == front + [p];
      CaughtGrows(front, p, k);
      if First(p) <= k < cursor { assert Range(First(p), cursor)[k - First(p)] == k; }
    }
  }

  /** `out` are the elements of `pushed` at the positions `at`. */
  ghost predicate ReadsAt(pushed: seq<string>, at: seq<nat>, out: seq<string>) {
    |out| == |at| && forall i :: 0 <= i < |at| ==> at[i] < |pushed| && out[i] == pushed[at[i]]
  }

  lemma ReadsAppend(pushed: seq<string>, a: seq<nat>, x: seq<string>, b: seq<nat>, y: seq<string>)
    requires ReadsAt(pushed, a, x) && ReadsAt(pushed, b, y)
    ensures ReadsAt(pushed, a + b, x + y)
  {
  }

  lemma {:induction false} TranscriptReads(pushed: seq<string>, polls: seq<PollOf>, cursor: nat)
    requires Consecutive(polls, cursor) && cursor <= |pushed|
    ensures ReadsAt(pushed, Positions(polls, cursor), Transcript(pushed, polls, cursor))
    decreases |polls|
  {
    if polls != [] {
      var p := polls[|polls| - 1];
      TranscriptReads(pushed, polls[..|polls| - 1], p.from);
      var b, o := Range(First(p), cursor), Delivered(pushed, p);
      assert ReadsAt(pushed, b, o);
      var front := polls[..|polls| - 1];
      ReadsAppend(pushed, Positions(front, p.from), Transcript(pushed, front, p.from), b, o);
    }
  }

  /** The printed lines are pushed lines, in order and without repeats, and they are exactly those caught
      before eviction. */
  lemma TranscriptIsExact(pushed: seq<string>, polls: seq<PollOf>, cursor: nat)
    requires Consecutive(polls, cursor) && cursor <= |pushed|
    ensures var at, out := Positions(polls, cursor), Transcript(pushed, polls, cursor);
            ReadsAt(pushed, at, out) && Rises(at, cursor) && forall k: nat :: k in at <==> CaughtInTime(polls, k)
  {
    PositionsRise(polls, cursor);
    TranscriptReads(pushed, polls, cursor);
    forall k: nat ensures k in Positions(polls, cursor) <==> CaughtInTime(polls, k) {
      PositionsAreCaught(polls, cursor, k);
    }
  }

  /** No poll was more than the cap behind. */
  ghost predicate KeptUp(polls: seq<PollOf>) {
    forall i :: 0 <= i < |polls| ==> polls[i].to - polls[i].from <= LOG_CAP
  }

  /** Nothing is missing exactly when the client never fell more than the cap behind. */
  lemma {:induction false} NothingMissedIff(pushed: seq<string>, polls: seq<PollOf>, cursor: nat)
    requires Consecutive(polls, cursor) && cursor <= |pushed|
    ensures |Transcript(pushed, polls, cursor)| <= cursor
    ensures Transcript(pushed, polls, cursor) == pushed[..cursor] <==> KeptUp(polls)
    ensures |Transcript(pushed, polls, cursor)| == cursor <==> KeptUp(polls)
    decreases |polls|
  {
    if polls != [] {
      var front, p := polls[..|polls| - 1], polls[|polls| - 1];
      NothingMissedIff(pushed, front, p.from);
      assert polls == front + [p];
      assert KeptUp(polls) <==> KeptUp(front) && p.to - p.from <= LOG_CAP;
      assert pushed[..p.from] + pushed[p.from..cursor] == pushed[..cursor];
    }
  }

  // ---- The protocol ----

  /** `sent` is all the producer wrote, `channel` what the drain task has yet to take. */
  datatype Sys = Sys(
    sent: seq<string>, channel: seq<string>, closed: bool, job: Option<Job>,
    cursor: nat, printed: seq<string>, polls: seq<PollOf>, finished: bool, gone: bool)

  datatype Step = Send(line: string) | Close | Drain | Finish(state: JobState) | Remove | Poll

  /** Removal by a later `create` takes terminal jobs only; `finish` waits for the drain task to end. */
  predicate Enabled(s: Sys, st: Step) {
    match st
    case Send(_) => !s.closed
    case Close => !s.closed
    case Drain => s.channel != []
    case Finish(state) => !state.Running? && s.closed && s.channel == [] && s.job.Some? && s.job.value.state.Running?
    case Remove => s.job.Some? && IsTerminal(s.job.value)
    case Poll => !s.finished
  }

  function After(s: Sys, st: Step): Sys
    requires Enabled(s, st)
  {
    match st
    case Send(line) => s.(sent := s.sent + [line], channel := s.channel + [line])
    case Close => s.(closed := true)
    case Drain =>
      s.(channel := s.channel[1..], job := if s.job.Some? then Some(Logged(s.job.value, Strip(s.channel[0]))) else None)
    case Finish(state) => s.(job := Some(s.job.value.(state := state)))
    case Remove => s.(job := None)
    case Poll =>
      if s.job.None? then s.(finished := true, gone := true)
      else
        var r := Polled(s.job.value, s.cursor);
        s.(cursor := r.nextCursor, printed := s.printed + r.log, polls := s.polls + [PollOf(s.cursor, r.nextCursor)],
           finished := !r.state.Running?)
  }

  ghost predicate Init(s: Sys) {
    s == Sys([], [], false, Some(FRESH), 0, [], [], false, false)
  }

  /** What has reached the log so far. */
  function Taken(s: Sys): seq<string>
    requires |s.channel| <= |s.sent|
  {
    Lines(s.sent[..|s.sent| - |s.channel|])
  }

  ghost predicate ProducerSound(s: Sys) {
    && |s.channel| <= |s.sent| && s.channel == s.sent[|s.sent| - |s.channel|..]
    && (s.job.Some? ==> Holds(s.job.value, Taken(s)))
    && (s.job.None? || IsTerminal(s.job.value) ==> s.closed && s.channel == [])
  }

  ghost predicate ClientSound(s: Sys)
    requires ProducerSound(s)
  {
    && s.cursor <= |Taken(s)| && Consecutive(s.polls, s.cursor)
    && s.printed == Transcript(Taken(s), s.polls, s.cursor)
    && (s.finished && !s.gone ==> s.closed && s.channel == [] && s.cursor == |Taken(s)| && s.polls != [])
    && (s.gone ==> s.finished)
  }

  ghost predicate Inv(s: Sys) { ProducerSound(s) && ClientSound(s) }

  lemma DrainTakes(s: Sys)
    requires ProducerSound(s) && s.channel != []
    ensures ProducerSound(After(s, Drain))
    ensures Taken(s) <= Taken(After(s, Drain))
  {
    var n := |s.sent| - |s.channel|;
    var raw, line := s.sent[..n], s.channel[0];
    assert s.sent[n..][0] == line && s.sent[n..][1..] == s.sent[n + 1..];
    assert s.sent[..n + 1] == raw + [line];
    LogOne(s.job.value, raw, line);
  }

  lemma SendKeeps(s: Sys, line: string)
    requires ProducerSound(s) && !s.closed
    ensures ProducerSound(After(s, Send(line))) && Taken(After(s, Send(line))) == Taken(s)
  {
    var s' := After(s, Send(line));
    var n := |s.sent| - |s.channel|;
    assert s'.sent[..n] == s.sent[..n];
  }

  lemma PollKeeps(s: Sys)
    requires Inv(s) && !s.finished
    ensures Inv(After(s, Poll))
  {
    var s' := After(s, Poll);
    if s.job.Some? {
      PollReturns(s.job.value, Taken(s), s.cursor);
      var p := PollOf(s.cursor, |Taken(s)|);
      assert s'.polls[..|s.polls|] == s.polls && s'.polls[|s.polls|] == p;
      assert Consecutive(s'.polls, |Taken(s)|);
    }
  }

  lemma StepKeepsInv(s: Sys, st: Step)
    requires Inv(s) && Enabled(s, st)
    ensures Inv(After(s, st))
  {
    match st {
      case Send(line) => SendKeeps(s, line);
      case Drain =>
        DrainTakes(s);
        TranscriptReadsPrefix(Taken(s), Taken(After(s, Drain)), s.polls, s.cursor);
      case Poll => PollKeeps(s);
      case _ => assert After(s, st).sent[..|s.sent| - |s.channel|] == s.sent[..|s.sent| - |s.channel|];
    }
  }

  // ---- Runs ----

  ghost predicate StreamRun(run: seq<Sys>, steps: seq<Step>) {
    && |run| == |steps| + 1 && Init(run[0])
    && (forall i :: 0 <= i < |steps| ==> Enabled(run[i], steps[i]) && run[i + 1] == After(run[i], steps[i]))
  }

  lemma {:induction false} RunKeepsInv(run: seq<Sys>, steps: seq<Step>, n: nat)
    requires StreamRun(run, steps) && n <= |steps|
    ensures Inv(run[n])
  {
    if n > 0 {
      RunKeepsInv(run, steps, n - 1);
      StepKeepsInv(run[n - 1], steps[n - 1]);
    } else {
      assert run[0].sent[..0] == [];
    }
  }

  /** In every interleaving the client has printed the producer's non-blank stripped lines, up to its
      cursor, in order and once each, less exactly those evicted before it polled for them. */
  lemma ClientPrintsInOrder(run: seq<Sys>, steps: seq<Step>, n: nat)
    requires StreamRun(run, steps) && n <= |steps|
    ensures var s, all := run[n], Lines(run[n].sent);
            && s.cursor <= |all| && Consecutive(s.polls, s.cursor)
            && s.printed == Transcript(all, s.polls, s.cursor)
            && (s.printed == all[..s.cursor] <==> KeptUp(s.polls))
  {
    var s := run[n];
    RunKeepsInv(run, steps, n);
    var k := |s.sent| - |s.channel|;
    assert s.sent == s.sent[..k] + s.sent[k..];
    LinesExtend(s.sent[..k], s.sent[k..]);
    TranscriptReadsPrefix(Taken(s), Lines(s.sent), s.polls, s.cursor);
    NothingMissedIff(Lines(s.sent), s.polls, s.cursor);
  }

  /** A client that stopped on a terminal state has seen everything the producer wrote: its last poll ended
      at the last line, and if it kept up it printed them all. */
  lemma TerminalPollDeliversTheTail(run: seq<Sys>, steps: seq<Step>, n: nat)
    requires StreamRun(run, steps) && n <= |steps| && run[n].finished && !run[n].gone
    ensures var s, all := run[n], Lines(run[n].sent);
            && s.closed && s.polls != [] && s.polls[|s.polls| - 1].to == |all|
            && Consecutive(s.polls, |all|) && s.printed == Transcript(all, s.polls, |all|)
            && (s.printed == all <==> KeptUp(s.polls))
  {
    var s := run[n];
    RunKeepsInv(run, steps, n);
    ClientPrintsInOrder(run, steps, n);
    assert s.sent[..|s.sent|] == s.sent;
    assert Lines(s.sent)[..s.cursor] == Lines(s.sent);
  }
}
