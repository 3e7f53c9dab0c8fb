/** Removing terminal escape sequences from log lines (bin/orckerd/src/ansi.rs). */
module Ansi {

  const ESC: char := '\U{1B}'
  const BEL: char := '\U{7}'

  predicate IsParameter(c: char) { '0' <= c <= '?' }
  predicate IsIntermediate(c: char) { ' ' <= c <= '/' }
  predicate IsFinal(c: char) { '@' <= c <= '~' }
  predicate IsIntroducer(c: char) { c in {']', 'P', 'X', '^', '_'} }

  // ---- What is stripped ----

  /** End of the longest stretch of parameter characters from `j`. */
  function ParametersEnd(s: string, j: nat): (k: nat)
    requires j <= |s|
    ensures j <= k <= |s|
    decreases |s| - j
  {
    if j < |s| && IsParameter(s[j]) then ParametersEnd(s, j + 1) else j
  }

  function IntermediatesEnd(s: string, j: nat): (k: nat)
    requires j <= |s|
    ensures j <= k <= |s|
    decreases |s| - j
  {
    if j < |s| && IsIntermediate(s[j]) then IntermediatesEnd(s, j + 1) else j
  }

  /** End of a control sequence whose parameters start at `j`; a missing final character is not waited for. */
  function ControlEnd(s: string, j: nat): (k: nat)
    requires j <= |s|
    ensures j <= k <= |s|
  {
    var m := IntermediatesEnd(s, ParametersEnd(s, j));
    if m < |s| && IsFinal(s[m]) then m + 1 else m
  }

  /** End of a control string whose body starts at `j`: past BEL or ESC `\`, or the end of the text. */
  function StringEnd(s: string, j: nat): (k: nat)
    requires j <= |s|
    ensures j <= k <= |s|
    decreases |s| - j
  {
    if j == |s| then j
    else if s[j] == BEL then j + 1
    else if s[j] == ESC && j + 1 < |s| && s[j + 1] == '\\' then j + 2
    else StringEnd(s, j + 1)
  }

  /** End of the escape sequence that starts at `i`. */
  function EscapeEnd(s: string, i: nat): (k: nat)
    requires i < |s| && s[i] == ESC
    ensures i < k <= |s|
  {
    if i + 1 == |s| then i + 1
    else if s[i + 1] == '[' then ControlEnd(s, i + 2)
    else if IsIntroducer(s[i + 1]) then StringEnd(s, i + 2)
    else i + 2
  }

  /** What is left of the text from `i` on. */
  function StripFrom(s: string, i: nat): string
    requires i <= |s|
    decreases |s| - i
  {
    if i == |s| then ""
    else if s[i] != ESC then [s[i]] + StripFrom(s, i + 1)
    else StripFrom(s, EscapeEnd(s, i))
  }

  function Strip(s: string): string { StripFrom(s, 0) }

  // ---- The loops ----

  method SkipControl(s: string, i: nat) returns (j: nat)
    requires i <= |s|
    ensures j == ControlEnd(s, i)
  {
    j := i;
    while j < |s| && IsParameter(s[j])
      invariant j <= |s| && ParametersEnd(s, j) == ParametersEnd(s, i)
    {
      j := j + 1;
    }
    while j < |s| && IsIntermediate(s[j])
      invariant j <= |s| && IntermediatesEnd(s, j) == IntermediatesEnd(s, ParametersEnd(s, i))
    {
      j := j + 1;
    }
    if j < |s| && IsFinal(s[j]) {
      j := j + 1;
    }
  }

  method SkipString(s: string, i: nat) returns (j: nat)
    requires i <= |s|
    ensures j == StringEnd(s, i)
  {
    j := i;
    while true
      invariant j <= |s| && StringEnd(s, j) == StringEnd(s, i)
      decreases |s| - j
    {
      if j == |s| {
        break;
      } else if s[j] == BEL {
        j := j + 1;
        break;
      } else if s[j] == ESC && j + 1 < |s| && s[j + 1] == '\\' {
        j := j + 2;
        break;
      } else {
        j := j + 1;
      }
    }
  }

  /** `strip`. */
  method RunStrip(s: string) returns (out: string)
    ensures out == Strip(s)
  {
    out := "";
    var i := 0;
    while i < |s|
      invariant i <= |s| && out + StripFrom(s, i) == Strip(s)
    {
      if s[i] != ESC {
        assert out + StripFrom(s, i) == out + [s[i]] + StripFrom(s, i + 1);
        out := out + [s[i]];
        i := i + 1;
      } else if i + 1 == |s| {
        i := i + 1;
      } else if s[i + 1] == '[' {
        i := SkipControl(s, i + 2);
      } else if IsIntroducer(s[i + 1]) {
        i := SkipString(s, i + 2);
      } else {
        i := i + 2;
      }
    }
  }

  // ---- Every input ----

  predicate Subsequence(a: string, b: string) {
    if a == "" then true
    else if b == "" then false
    else if a[0] == b[0] && Subsequence(a[1..], b[1..]) then true
    else Subsequence(a, b[1..])
  }

  lemma {:induction false} SkippedSubsequence(a: string, b: string, k: nat)
    requires k <= |b| && Subsequence(a, b[k..])
    ensures Subsequence(a, b)
  {
    if k > 0 {
      assert b[1..][k - 1..] == b[k..];
      SkippedSubsequence(a, b[1..], k - 1);
    }
  }

  /** Nothing is invented or reordered, and no ESC survives. */
  lemma {:induction false} StripKeepsOrder(s: string, i: nat)
    requires i <= |s|
    ensures ESC !in StripFrom(s, i) && Subsequence(StripFrom(s, i), s[i..])
    decreases |s| - i
  {
    if i < |s| {
      if s[i] != ESC {
        StripKeepsOrder(s, i + 1);
        var r := StripFrom(s, i + 1);
        assert ([s[i]] + r)[1..] == r && s[i..][1..] == s[i + 1..];
      } else {
        var k := EscapeEnd(s, i);
        StripKeepsOrder(s, k);
        assert s[i..][k - i..] == s[k..];
        SkippedSubsequence(StripFrom(s, k), s[i..], k - i);
      }
    }
  }

  lemma {:induction false} StripOfPlain(s: string, i: nat)
    requires i <= |s| && ESC !in s
    ensures StripFrom(s, i) == s[i..]
    decreases |s| - i
  {
    if i < |s| {
      assert s[i] in s;
      StripOfPlain(s, i + 1);
    }
  }

  /** For every input: no ESC, a subsequence of the input, and stripping again changes nothing. */
  lemma StripIsClean(s: string)
    ensures ESC !in Strip(s) && Subsequence(Strip(s), s) && Strip(Strip(s)) == Strip(s)
  {
    StripKeepsOrder(s, 0);
    assert s[0..] == s;
    StripOfPlain(Strip(s), 0);
  }

  // ---- What every input consists of ----

  /** The two ways to end a control string. */
  datatype Terminator = Bell | StringTerminator

  function EndOf(t: Terminator): string { if t.Bell? then [BEL] else [ESC, '\\'] }

  /** Plain text and complete escape sequences: control sequences per section 5.4 of ECMA-48, control
      strings per section 5.6 of ECMA-48 (BEL also ends one), and two-character escapes; and what is left of
      them when the text breaks off: a control sequence without its final character, a control string that
      is never ended, a lone ESC. */
  datatype Piece =
    | Plain(text: string)
    | Control(parameters: string, intermediates: string, final: char)
    | ControlString(introducer: char, body: string, end: Terminator)
    | TwoCharacter(c: char)
    | Cut(parameters: string, intermediates: string)
    | Open(introducer: char, body: string)
    | Lone

  ghost predicate AllParameters(s: string) { forall i :: 0 <= i < |s| ==> IsParameter(s[i]) }
  ghost predicate AllIntermediates(s: string) { forall i :: 0 <= i < |s| ==> IsIntermediate(s[i]) }

  /** Nothing in a control string's body ends it. */
  ghost predicate Endless(body: string) {
    BEL !in body && forall i :: 0 <= i < |body| - 1 ==> !(body[i] == ESC && body[i + 1] == '\\')
  }

  ghost predicate WellFormed(p: Piece) {
    match p
    case Plain(text) => ESC !in text
    case Control(ps, mids, f) => AllParameters(ps) && AllIntermediates(mids) && IsFinal(f)
    case ControlString(c, body, _) => IsIntroducer(c) && Endless(body)
    case TwoCharacter(c) => c != '[' && !IsIntroducer(c)
    case Cut(ps, mids) => AllParameters(ps) && AllIntermediates(mids)
    case Open(c, body) => IsIntroducer(c) && Endless(body)
    case Lone => true
  }

  /** A piece may stand before `rest`: what breaks off is not continued there. */
  ghost predicate Before(p: Piece, rest: string) {
    match p
    case Cut(ps, mids) =>
      rest == "" || (!IsIntermediate(rest[0]) && !IsFinal(rest[0]) && (mids == "" ==> !IsParameter(rest[0])))
    case Open(_, _) => rest == ""
    case Lone => rest == ""
    case _ => true
  }

  function Render(p: Piece): string {
    match p
    case Plain(text) => text
    case Control(ps, mids, f) => [ESC, '['] + ps + mids + [f]
    case ControlString(c, body, e) => [ESC, c] + body + EndOf(e)
    case TwoCharacter(c) => [ESC, c]
    case Cut(ps, mids) => [ESC, '['] + ps + mids
    case Open(c, body) => [ESC, c] + body
    case Lone => [ESC]
  }

  function TextOf(p: Piece): string { if p.Plain? then p.text else "" }

  function RenderAll(ps: seq<Piece>): string {
    if ps == [] then "" else Render(ps[0]) + RenderAll(ps[1..])
  }

  function AllText(ps: seq<Piece>): string {
    if ps == [] then "" else TextOf(ps[0]) + AllText(ps[1..])
  }

  lemma {:induction false} ParametersStop(s: string, j: nat, k: nat)
    requires j <= k <= |s| && (forall i :: j <= i < k ==> IsParameter(s[i])) && (k < |s| ==> !IsParameter(s[k]))
    ensures ParametersEnd(s, j) == k
    decreases k - j
  {
    if j < k { ParametersStop(s, j + 1, k); }
  }

  lemma {:induction false} IntermediatesStop(s: string, j: nat, k: nat)
    requires j <= k <= |s| && (forall i :: j <= i < k ==> IsIntermediate(s[i])) && (k < |s| ==> !IsIntermediate(s[k]))
    ensures IntermediatesEnd(s, j) == k
    decreases k - j
  {
    if j < k { IntermediatesStop(s, j + 1, k); }
  }

  predicate EndsStringAt(s: string, i: nat)
    requires i < |s|
  {
    s[i] == BEL || (s[i] == ESC && i + 1 < |s| && s[i + 1] == '\\')
  }

  /** Nothing in the body ends the string early. */
  lemma {:induction false} StringStops(s: string, j: nat, k: nat)
    requires j <= k <= |s| && forall i: nat :: j <= i < k ==> !EndsStringAt(s, i)
    ensures StringEnd(s, j) == StringEnd(s, k)
    decreases k - j
  {
    if j < k {
      assert !EndsStringAt(s, j);
      StringStops(s, j + 1, k);
    }
  }

  /** The characters of a control sequence, up to its final one, in place. */
  lemma ControlAt(ps: string, mids: string, rest: string)
    requires AllParameters(ps) && AllIntermediates(mids)
    ensures var s, m := [ESC, '['] + ps + mids + rest, 2 + |ps|;
            var n := m + |mids|;
            && |s| == n + |rest| && s[0] == ESC && s[1] == '[' && (rest != "" ==> s[n] == rest[0])
            && (forall i :: 2 <= i < m ==> IsParameter(s[i])) && (forall i :: m <= i < n ==> IsIntermediate(s[i]))
  {
    var s, m := [ESC, '['] + ps + mids + rest, 2 + |ps|;
    forall i | 2 <= i < m ensures IsParameter(s[i]) {
      assert s[i] == ps[i - 2];
    }
    forall i | m <= i < m + |mids| ensures IsIntermediate(s[i]) {
      assert s[i] == mids[i - m];
    }
  }

  /** A control sequence extends to its final character, or up to what cannot continue it. */
  lemma ControlIsSkipped(ps: string, mids: string, rest: string)
    requires AllParameters(ps) && AllIntermediates(mids)
    requires rest == "" || (!IsIntermediate(rest[0]) && (mids == "" ==> !IsParameter(rest[0])))
    ensures var s, n := [ESC, '['] + ps + mids + rest, 2 + |ps| + |mids|;
            s[0] == ESC && EscapeEnd(s, 0) == if rest != "" && IsFinal(rest[0]) then n + 1 else n
  {
    var s, m := [ESC, '['] + ps + mids + rest, 2 + |ps|;
    ControlAt(ps, mids, rest);
    ParametersStop(s, 2, m);
    IntermediatesStop(s, m, m + |mids|);
  }

  lemma StringIsSkipped(c: char, body: string, end: string, rest: string)
    requires IsIntroducer(c) && Endless(body)
    requires end == [BEL] || end == [ESC, '\\'] || (end == "" && rest == "")
    ensures var s := [ESC, c] + body + end + rest; s[0] == ESC && EscapeEnd(s, 0) == 2 + |body| + |end|
  {
    var s, n := [ESC, c] + body + end + rest, 2 + |body|;
    assert forall i :: 2 <= i < n ==> s[i] == body[i - 2];
    assert end != "" ==> s[n] == end[0];
    assert |end| == 2 ==> s[n + 1] == end[1];
    forall i: nat | 2 <= i < n ensures !EndsStringAt(s, i) {
      assert body[i - 2] in body;
      assert i + 1 < n ==> s[i + 1] == body[i - 2 + 1];
    }
    StringStops(s, 2, n);
  }

  lemma EscapeIsSkipped(p: Piece, rest: string)
    requires WellFormed(p) && !p.Plain? && Before(p, rest)
    ensures var s := Render(p) + rest; s[0] == ESC && EscapeEnd(s, 0) == |Render(p)|
  {
    match p {
      case Control(ps, mids, f) =>
        assert Render(p) + rest == [ESC, '['] + ps + mids + ([f] + rest);
        ControlIsSkipped(ps, mids, [f] + rest);
      case Cut(ps, mids) => ControlIsSkipped(ps, mids, rest);
      case ControlString(c, body, e) => StringIsSkipped(c, body, EndOf(e), rest);
      case Open(c, body) =>
        assert Render(p) + rest == [ESC, c] + body + "" + rest;
        StringIsSkipped(c, body, "", rest);
      case _ =>
    }
  }

  /** `s` has `b` from index `n` to its end. */
  ghost predicate EndsIn(s: string, n: nat, b: string) {
    |s| == n + |b| && forall k :: 0 <= k < |b| ==> s[n + k] == b[k]
  }

  /** Where in a longer text a suffix sits does not matter. */
  lemma {:induction false} EndsShift(s: string, n: nat, b: string, i: nat)
    requires EndsIn(s, n, b) && i <= |b|
    ensures ParametersEnd(s, n + i) == n + ParametersEnd(b, i)
    ensures IntermediatesEnd(s, n + i) == n + IntermediatesEnd(b, i)
    ensures StringEnd(s, n + i) == n + StringEnd(b, i)
    decreases |b| - i
  {
    if i < |b| {
      assert s[n + i] == b[i];
      assert i + 1 < |b| ==> s[n + (i + 1)] == b[i + 1];
      EndsShift(s, n, b, i + 1);
    }
  }

  lemma ControlShifts(s: string, n: nat, b: string, i: nat)
    requires EndsIn(s, n, b) && i <= |b|
    ensures ControlEnd(s, n + i) == n + ControlEnd(b, i)
  {
    EndsShift(s, n, b, i);
    var j := ParametersEnd(b, i);
    EndsShift(s, n, b, j);
    var m := IntermediatesEnd(b, j);
    assert m < |b| ==> s[n + m] == b[m];
  }

  lemma EscapeShifts(s: string, n: nat, b: string, i: nat)
    requires EndsIn(s, n, b) && i < |b| && b[i] == ESC
    ensures s[n + i] == ESC && EscapeEnd(s, n + i) == n + EscapeEnd(b, i)
  {
    if i + 1 < |b| {
      assert s[n + (i + 1)] == b[i + 1];
      ControlShifts(s, n, b, i + 2);
      EndsShift(s, n, b, i + 2);
    }
  }

  lemma {:induction false} StripShifts(s: string, n: nat, b: string, i: nat)
    requires EndsIn(s, n, b) && i <= |b|
    ensures StripFrom(s, n + i) == StripFrom(b, i)
    decreases |b| - i
  {
    if i < |b| {
      assert s[n + i] == b[i];
      if b[i] != ESC {
        StripShifts(s, n, b, i + 1);
      } else {
        EscapeShifts(s, n, b, i);
        StripShifts(s, n, b, EscapeEnd(b, i));
      }
    }
  }

  lemma {:induction false} PlainIsKept(text: string, rest: string)
    requires ESC !in text
    ensures Strip(text + rest) == text + Strip(rest)
  {
    if text == "" {
      assert text + rest == rest;
    } else {
      var c, t := text[0], text[1..];
      PlainIsKept(t, rest);
      assert text + rest == [c] + (t + rest);
      StripShifts([c] + (t + rest), 1, t + rest, 0);
      assert [c] + (t + Strip(rest)) == text + Strip(rest);
    }
  }

  /** Well-formed pieces, each of which may stand before the rest. */
  ghost predicate Parsed(ps: seq<Piece>) {
    ps == [] || (WellFormed(ps[0]) && Before(ps[0], RenderAll(ps[1..])) && Parsed(ps[1..]))
  }

  lemma SkippedIsStripped(a: string, rest: string)
    requires a != "" && a[0] == ESC && EscapeEnd(a + rest, 0) == |a|
    ensures Strip(a + rest) == Strip(rest)
  {
    StripShifts(a + rest, |a|, rest, 0);
  }

  lemma PieceIsStripped(p: Piece, rest: string)
    requires WellFormed(p) && Before(p, rest)
    ensures Strip(Render(p) + rest) == TextOf(p) + Strip(rest)
  {
    if p.Plain? {
      PlainIsKept(p.text, rest);
    } else {
      EscapeIsSkipped(p, rest);
      SkippedIsStripped(Render(p), rest);
      assert "" + Strip(rest) == Strip(rest);
    }
  }

  /** Stripping a rendering gives back exactly the plain text. */
  lemma {:induction false} StripOfRendering(ps: seq<Piece>)
    requires Parsed(ps)
    ensures Strip(RenderAll(ps)) == AllText(ps)
  {
    if ps != [] {
      StripOfRendering(ps[1..]);
      PieceIsStripped(ps[0], RenderAll(ps[1..]));
    }
  }

  // ---- Every input parses ----

  lemma {:induction false} ParametersFacts(s: string, j: nat)
    requires j <= |s|
    ensures var k := ParametersEnd(s, j);
            (forall i :: j <= i < k ==> IsParameter(s[i])) && (k < |s| ==> !IsParameter(s[k]))
    decreases |s| - j
  {
    if j < |s| && IsParameter(s[j]) { ParametersFacts(s, j + 1); }
  }

  lemma {:induction false} IntermediatesFacts(s: string, j: nat)
    requires j <= |s|
    ensures var k := IntermediatesEnd(s, j);
            (forall i :: j <= i < k ==> IsIntermediate(s[i])) && (k < |s| ==> !IsIntermediate(s[k]))
    decreases |s| - j
  {
    if j < |s| && IsIntermediate(s[j]) { IntermediatesFacts(s, j + 1); }
  }

  lemma ControlParts(s: string) returns (ps: string, mids: string, rest: string)
    requires |s| >= 2 && s[0] == ESC && s[1] == '['
    ensures s == [ESC, '['] + ps + mids + rest && AllParameters(ps) && AllIntermediates(mids)
    ensures rest == "" || (!IsIntermediate(rest[0]) && (mids == "" ==> !IsParameter(rest[0])))
  {
    var m := ParametersEnd(s, 2);
    var n := IntermediatesEnd(s, m);
    ParametersFacts(s, 2);
    IntermediatesFacts(s, m);
    ps, mids, rest := s[2..m], s[m..n], s[n..];
  }

  lemma ParseControl(s: string) returns (p: Piece, rest: string)
    requires |s| >= 2 && s[0] == ESC && s[1] == '['
    ensures WellFormed(p) && Before(p, rest) && s == Render(p) + rest && |rest| < |s|
  {
    var ps, mids, more := ControlParts(s);
    if more != "" && IsFinal(more[0]) {
      p, rest := Control(ps, mids, more[0]), more[1..];
      assert more == [more[0]] + rest;
    } else {
      p, rest := Cut(ps, mids), more;
    }
  }

  /** The first place at or after `j` where a control string ends, or the end of the text. */
  lemma StringEndsAt(s: string, j: nat) returns (k: nat)
    requires j <= |s|
    ensures j <= k <= |s| && (forall i: nat :: j <= i < k ==> !EndsStringAt(s, i)) && (k < |s| ==> EndsStringAt(s, k))
  {
    k := j;
    while k < |s| && !EndsStringAt(s, k)
      invariant j <= k <= |s| && forall i: nat :: j <= i < k ==> !EndsStringAt(s, i)
    {
      k := k + 1;
    }
  }

  lemma BodyIsEndless(s: string, k: nat)
    requires 2 <= k <= |s| && forall i: nat :: 2 <= i < k ==> !EndsStringAt(s, i)
    ensures Endless(s[2..k])
  {
    var body := s[2..k];
    forall i: nat | i < |body| ensures body[i] != BEL { assert !EndsStringAt(s, i + 2); }
    forall i | 0 <= i < |body| - 1 ensures !(body[i] == ESC && body[i + 1] == '\\') {
      assert !EndsStringAt(s, i + 2) && body[i + 1] == s[i + 2 + 1];
    }
  }

  lemma StringParts(c: char, body: string, more: string) returns (p: Piece, rest: string)
    requires IsIntroducer(c) && Endless(body)
    requires more == "" || EndsStringAt(more, 0)
    ensures WellFormed(p) && Before(p, rest) && [ESC, c] + body + more == Render(p) + rest && |rest| <= |more|
  {
    if more == "" {
      p, rest := Open(c, body), "";
    } else if more[0] == BEL {
      p, rest := ControlString(c, body, Bell), more[1..];
      assert more == [BEL] + rest;
    } else {
      p, rest := ControlString(c, body, StringTerminator), more[2..];
      assert more == [ESC, '\\'] + rest;
    }
  }

  lemma ParseString(s: string) returns (p: Piece, rest: string)
    requires |s| >= 2 && s[0] == ESC && IsIntroducer(s[1])
    ensures WellFormed(p) && Before(p, rest) && s == Render(p) + rest && |rest| < |s|
  {
    var k := StringEndsAt(s, 2);
    BodyIsEndless(s, k);
    var body, more := s[2..k], s[k..];
    assert s == [ESC, s[1]] + body + more;
    assert k + 1 < |s| ==> more[1] == s[k + 1];
    p, rest := StringParts(s[1], body, more);
  }

  lemma ParseOne(s: string) returns (p: Piece, rest: string)
    requires s != ""
    ensures WellFormed(p) && Before(p, rest) && s == Render(p) + rest && |rest| < |s|
  {
    if s[0] != ESC {
      p, rest := Plain([s[0]]), s[1..];
    } else if |s| == 1 {
      p, rest := Lone, "";
    } else if s[1] == '[' {
      p, rest := ParseControl(s);
    } else if IsIntroducer(s[1]) {
      p, rest := ParseString(s);
    } else {
      p, rest := TwoCharacter(s[1]), s[2..];
    }
  }

  /** Every input is a sequence of such pieces, and stripping leaves its plain text. */
  lemma {:induction false} EveryInputParses(s: string) returns (ps: seq<Piece>)
    ensures Parsed(ps) && RenderAll(ps) == s && Strip(s) == AllText(ps)
    decreases |s|
  {
    ps := [];
    if s != "" {
      var p, rest := ParseOne(s);
      var more := EveryInputParses(rest);
      ps := [p] + more;
      assert ps[1..] == more;
      StripOfRendering(ps);
    }
  }
}
