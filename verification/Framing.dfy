/** Bounded newline framing over a buffered reader (bin/orcker/src/mcp_cmd.rs:225-278). */
module Framing {

  newtype Byte = b: int | 0 <= b < 256

  const NEWLINE: Byte := 10
  const MAX_LINE_BYTES: nat := 1024 * 1024

  // ---- Splitting a stream, as the protocol means it ----

  /** No newline among the first `k` bytes. */
  predicate Clear(s: seq<Byte>, k: nat)
    requires k <= |s|
  {
    forall i :: 0 <= i < k ==> s[i] != NEWLINE
  }

  /** Index of the first newline, or the length. */
  function LineEnd(s: seq<Byte>): (k: nat)
    ensures k <= |s| && Clear(s, k) && (k < |s| ==> s[k] == NEWLINE)
  {
    if s == [] then 0 else if s[0] == NEWLINE then 0 else 1 + LineEnd(s[1..])
  }

  /** The first message with its terminator, if it has one. */
  function FirstLine(s: seq<Byte>): seq<Byte> {
    if LineEnd(s) < |s| then s[..LineEnd(s) + 1] else s
  }

  function AfterFirstLine(s: seq<Byte>): seq<Byte> { s[|FirstLine(s)|..] }

  /** The stream cut after every newline. */
  function Segments(s: seq<Byte>): seq<seq<Byte>>
    decreases |s|
  {
    if s == [] then [] else [FirstLine(s)] + Segments(AfterFirstLine(s))
  }

  datatype Input = Line(bytes: seq<Byte>) | TooLong | Eof

  /** The cap counts a message without its terminator. */
  function Framed(line: seq<Byte>): Input {
    if LineEnd(line) <= MAX_LINE_BYTES then Line(line) else TooLong
  }

  /** What one read of a stream should return. */
  function NextInput(s: seq<Byte>): Input {
    if s == [] then Eof else Framed(FirstLine(s))
  }

  function Concat(ss: seq<seq<Byte>>): seq<Byte> {
    if ss == [] then [] else ss[0] + Concat(ss[1..])
  }

  /** A newline ends the segment and occurs nowhere else in it. */
  ghost predicate EndsLine(seg: seq<Byte>) {
    seg != [] && seg[|seg| - 1] == NEWLINE && Clear(seg, |seg| - 1)
  }

  lemma LineEndIs(s: seq<Byte>, k: nat)
    requires k <= |s| && Clear(s, k) && (k < |s| ==> s[k] == NEWLINE)
    ensures LineEnd(s) == k
  {
  }

  lemma FirstLineFacts(s: seq<Byte>)
    requires s != []
    ensures FirstLine(s) != [] && s == FirstLine(s) + AfterFirstLine(s)
    ensures LineEnd(FirstLine(s)) == LineEnd(s)
    ensures EndsLine(FirstLine(s)) || (AfterFirstLine(s) == [] && Clear(FirstLine(s), |FirstLine(s)|))
  {
    LineEndIs(FirstLine(s), LineEnd(s));
  }

  /** Cutting loses nothing, and every cut but the last is at a newline. */
  lemma {:induction false} SegmentsAreLossless(s: seq<Byte>)
    ensures Concat(Segments(s)) == s
    ensures forall i :: 0 <= i < |Segments(s)| - 1 ==> EndsLine(Segments(s)[i])
    ensures forall i :: 0 <= i < |Segments(s)| ==>
              var seg := Segments(s)[i]; seg != [] && (EndsLine(seg) || (i == |Segments(s)| - 1 && Clear(seg, |seg|)))
    decreases |s|
  {
    if s != [] {
      FirstLineFacts(s);
      var rest := AfterFirstLine(s);
      SegmentsAreLossless(rest);
      assert Segments(s)[1..] == Segments(rest);
      assert rest == [] ==> Segments(rest) == [];
    }
  }

  /** Whatever cutting satisfies that is the same cutting. */
  lemma {:induction false} SegmentsAreUnique(s: seq<Byte>, cut: seq<seq<Byte>>)
    requires Concat(cut) == s
    requires forall i :: 0 <= i < |cut| ==>
               cut[i] != [] && (EndsLine(cut[i]) || (i == |cut| - 1 && Clear(cut[i], |cut[i]|)))
    ensures cut == Segments(s)
    decreases |cut|
  {
    if cut != [] {
      var c, rest := cut[0], Concat(cut[1..]);
      assert s == c + rest;
      if EndsLine(c) {
        LineEndIs(s, |c| - 1);
      } else {
        assert cut[1..] == [];
        assert s == c;
        LineEndIs(s, |s|);
      }
      assert FirstLine(s) == c;
      assert AfterFirstLine(s) == rest;
      SegmentsAreUnique(rest, cut[1..]);
    }
  }

  // ---- The reader ----

  /** A `BufRead` over a stream that arrives in arbitrary non-empty chunks. */
  class Reader {
    var chunks: seq<seq<Byte>>

    ghost predicate Valid()
      reads this
    {
      forall i :: 0 <= i < |chunks| ==> chunks[i] != []
    }

    /** What is still to be read. */
    ghost function Remaining(): seq<Byte>
      reads this
    {
      Concat(chunks)
    }

    constructor (arrivals: seq<seq<Byte>>)
      requires forall i :: 0 <= i < |arrivals| ==> arrivals[i] != []
      ensures Valid() && Remaining() == Concat(arrivals)
    {
      chunks := arrivals;
    }

    /** `fill_buf`: the chunk that has arrived, empty only at the end of input. */
    method FillBuf() returns (available: seq<Byte>)
      requires Valid()
      ensures available == (if chunks == [] then [] else chunks[0])
      ensures available <= Remaining() && (available == [] <==> Remaining() == [])
    {
      if chunks == [] {
        return [];
      }
      available := chunks[0];
    }

    /** `consume`, of at most what `fill_buf` offered. */
    method Consume(n: nat)
      requires Valid() && (n == 0 || (chunks != [] && n <= |chunks[0]|))
      modifies this
      ensures Valid() && Remaining() == old(Remaining())[n..]
    {
      if n == 0 {
        return;
      }
      var left := chunks[0][n..];
      assert chunks[0] + Concat(chunks[1..]) == Remaining();
      if left == [] {
        chunks := chunks[1..];
      } else {
        chunks := [left] + chunks[1..];
        assert chunks[1..] == old(chunks)[1..];
      }
    }

    /** One round of either loop below: take what is there, up to `room` bytes and no further than a newline. */
    method TakeSome(room: nat) returns (got: seq<Byte>, done: bool)
      requires Valid() && chunks != [] && room > 0
      modifies this
      ensures Valid() && got != [] && |got| <= room
      ensures old(Remaining()) == got + Remaining()
      ensures if done then EndsLine(got) else Clear(got, |got|)
    {
      var chunk := FillBuf();
      var available := if |chunk| <= room then chunk else chunk[..room];
      var k := LineEnd(available);
      done := k < |available|;
      var used := if done then k + 1 else k;
      got := available[..used];
      ghost var before := Remaining();
      assert before == chunks[0] + Concat(chunks[1..]);
      assert before[..used] == got;
      Consume(used);
      assert before == before[..used] + before[used..];
    }

    /** `read_until(b'\n')` on a reader limited to `limit` bytes. */
    method ReadUntil(limit: nat) returns (buf: seq<Byte>)
      requires Valid()
      modifies this
      ensures Valid()
      ensures buf == Limited(old(Remaining()), limit) && old(Remaining()) == buf + Remaining()
    {
      buf := [];
      ghost var all := Remaining();
      while true
        invariant Valid() && |buf| <= limit && all == buf + Remaining() && Clear(buf, |buf|)
        decreases |Remaining()|
      {
        if chunks == [] || |buf| == limit {
          LimitedWhole(all, limit, buf);
          return;
        }
        var got, done := TakeSome(limit - |buf|);
        assert all == buf + got + Remaining();
        if done {
          LimitedLine(all, limit, buf, got);
          buf := buf + got;
          return;
        }
        buf := buf + got;
      }
    }

    /** `discard_to_newline`. */
    method DiscardToNewline()
      requires Valid()
      modifies this
      ensures Valid() && Remaining() == AfterFirstLine(old(Remaining()))
    {
      ghost var all := Remaining();
      ghost var gone: seq<Byte> := [];
      while true
        invariant Valid() && all == gone + Remaining() && Clear(gone, |gone|)
        decreases |Remaining()|
      {
        if chunks == [] {
          LineEndIs(all, |all|);
          return;
        }
        var got, done := TakeSome(|chunks[0]|);
        assert all == gone + got + Remaining();
        if done {
          LineEndIs(all, |gone| + |got| - 1);
          return;
        }
        gone := gone + got;
      }
    }

    /** `read_line`. */
    method ReadLine() returns (r: Input)
      requires Valid()
      modifies this
      ensures Valid()
      ensures r == NextInput(old(Remaining())) && Remaining() == AfterFirstLine(old(Remaining()))
      ensures |Remaining()| < |old(Remaining())| || r.Eof?
    {
      ghost var all := Remaining();
      var buf := ReadUntil(MAX_LINE_BYTES + 1);
      if buf == [] {
        return Eof;
      }
      FirstLineFacts(all);
      if |buf| > MAX_LINE_BYTES && buf[|buf| - 1] != NEWLINE {
        OverlongLine(all, Remaining());
        DiscardToNewline();
        return TooLong;
      }
      ShortLine(all);
      return Line(buf);
    }

    /** The session's read loop: every input up to the end of the stream. */
    method ReadAll() returns (inputs: seq<Input>)
      requires Valid()
      modifies this
      ensures Valid() && Remaining() == []
      ensures inputs == Inputs(old(Remaining()))
    {
      inputs := [];
      ghost var all := Remaining();
      while true
        invariant Valid() && inputs + Inputs(Remaining()) == Inputs(all)
        decreases |Remaining()|
      {
        ghost var before := Remaining();
        var input := ReadLine();
        if input.Eof? {
          return;
        }
        OneInput(before, inputs, input);
        inputs := inputs + [input];
      }
    }
  }

  lemma OneInput(s: seq<Byte>, done: seq<Input>, input: Input)
    requires input == NextInput(s) && !input.Eof?
    ensures done + [input] + Inputs(AfterFirstLine(s)) == done + Inputs(s)
  {
  }

  // ---- What a limited read sees ----

  /** At most `limit` bytes, stopping after a newline. */
  function Limited(s: seq<Byte>, limit: nat): seq<Byte> {
    var line := FirstLine(s);
    if |line| <= limit then line else line[..limit]
  }

  lemma LimitedWhole(all: seq<Byte>, limit: nat, buf: seq<Byte>)
    requires buf <= all && Clear(buf, |buf|) && |buf| <= limit && (buf == all || |buf| == limit)
    ensures buf == Limited(all, limit)
  {
    var k := LineEnd(all);
    assert forall i :: 0 <= i < |buf| ==> all[i] == buf[i];
    assert |buf| <= k;
    assert FirstLine(all)[..|buf|] == buf;
  }

  lemma LimitedLine(all: seq<Byte>, limit: nat, was: seq<Byte>, got: seq<Byte>)
    requires was + got <= all && Clear(was, |was|) && EndsLine(got) && |was| + |got| <= limit
    ensures Limited(all, limit) == was + got
  {
    var k := |was| + |got| - 1;
    assert forall i :: 0 <= i <= k ==> all[i] == (was + got)[i];
    LineEndIs(all, k);
    assert all[..k + 1] == was + got;
  }

  /** Skipping a clear beginning does not change where the first line ends. */
  lemma SkipClear(all: seq<Byte>, n: nat)
    requires n <= LineEnd(all)
    ensures AfterFirstLine(all[n..]) == AfterFirstLine(all)
  {
    var rest := all[n..];
    assert forall i :: 0 <= i < |rest| ==> rest[i] == all[n + i];
    LineEndIs(rest, LineEnd(all) - n);
    assert |FirstLine(rest)| == |FirstLine(all)| - n;
  }

  lemma OverlongLine(all: seq<Byte>, rest: seq<Byte>)
    requires var buf := Limited(all, MAX_LINE_BYTES + 1);
             all == buf + rest && |buf| > MAX_LINE_BYTES && buf[|buf| - 1] != NEWLINE
    ensures NextInput(all) == TooLong
    ensures AfterFirstLine(rest) == AfterFirstLine(all)
  {
    var n, k := MAX_LINE_BYTES + 1, LineEnd(all);
    FirstLineFacts(all);
    assert k != n - 1 && k >= n - 1;
    assert rest == all[n..];
    SkipClear(all, n);
  }

  lemma ShortLine(all: seq<Byte>)
    requires all != []
    requires var buf := Limited(all, MAX_LINE_BYTES + 1);
             buf != [] && (|buf| <= MAX_LINE_BYTES || buf[|buf| - 1] == NEWLINE)
    ensures Limited(all, MAX_LINE_BYTES + 1) == FirstLine(all) && NextInput(all) == Line(FirstLine(all))
  {
    FirstLineFacts(all);
    assert |FirstLine(all)| <= MAX_LINE_BYTES + 1;
  }

  /** The inputs of a whole stream. */
  function Inputs(s: seq<Byte>): seq<Input>
    decreases |s|
  {
    if s == [] then [] else [NextInput(s)] + Inputs(AfterFirstLine(s))
  }

  /** Reading a stream to its end yields its newline split, segment by segment: a message up to the cap as a
      line, a longer one as too long. */
  lemma {:induction false} InputsAreFramedSegments(s: seq<Byte>)
    ensures |Inputs(s)| == |Segments(s)|
    ensures forall i :: 0 <= i < |Inputs(s)| ==> Inputs(s)[i] == Framed(Segments(s)[i])
    decreases |s|
  {
    if s != [] {
      InputsAreFramedSegments(AfterFirstLine(s));
    }
  }
}
