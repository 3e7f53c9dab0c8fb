/** Rewriting one version line of a manifest (xtask/src/version.rs:15-111). */
module Version {
  import opened Text

  // ---- Lines ----

  /** Index of the first newline, or the length. */
  function NewlineAt(s: string): (k: nat)
    ensures k <= |s| && (forall i :: 0 <= i < k ==> s[i] != '\n') && (k < |s| ==> s[k] == '\n')
  {
    if s == "" then 0 else if s[0] == '\n' then 0 else 1 + NewlineAt(s[1..])
  }

  function DropCarriageReturn(line: string): string {
    if line != "" && line[|line| - 1] == '\r' then line[..|line| - 1] else line
  }

  /** `str::lines`. */
  function Lines(s: string): seq<string>
    decreases |s|
  {
    if s == "" then []
    else
      var k := NewlineAt(s);
      if k == |s| then [s] else [DropCarriageReturn(s[..k])] + Lines(s[k + 1..])
  }

  predicate EndsWithNewline(s: string) { s != "" && s[|s| - 1] == '\n' }

  /** Lines put back together, with a newline after the last one if `ends`. */
  function Join(lines: seq<string>, ends: bool): string {
    if lines == [] then ""
    else lines[0] + (if |lines| > 1 || ends then "\n" else "") + Join(lines[1..], ends)
  }

  predicate CrLfAt(s: string, i: nat) {
    i + 1 < |s| && s[i] == '\r' && s[i + 1] == '\n'
  }

  /** No carriage return before a newline. */
  ghost predicate LfOnly(s: string) {
    forall i: nat :: !CrLfAt(s, i)
  }

  /** A line as `Lines` can return it: no newline, and, where one follows, no carriage return at the end. */
  ghost predicate LineLike(line: string, followed: bool) {
    '\n' !in line && (followed ==> line == "" || line[|line| - 1] != '\r')
  }

  ghost predicate LinesLike(lines: seq<string>, ends: bool) {
    && (forall i :: 0 <= i < |lines| ==> LineLike(lines[i], i + 1 < |lines| || ends))
    && (lines != [] && !ends ==> lines[|lines| - 1] != "")
  }

  lemma NewlineIsAt(s: string, k: nat)
    requires k <= |s| && (forall i :: 0 <= i < k ==> s[i] != '\n') && (k < |s| ==> s[k] == '\n')
    ensures NewlineAt(s) == k
  {
  }

  predicate OneLine(line: string) { forall i :: 0 <= i < |line| ==> line[i] != '\n' }

  lemma LinesCons(line: string, rest: string)
    requires OneLine(line)
    ensures Lines(line + "\n" + rest) == [DropCarriageReturn(line)] + Lines(rest)
  {
    var s := line + "\n" + rest;
    NewlineIsAt(s, |line|);
    assert s[..|line|] == line && s[|line| + 1..] == rest;
  }

  lemma LinesLast(line: string)
    requires OneLine(line) && line != ""
    ensures Lines(line) == [line]
  {
    NewlineIsAt(line, |line|);
  }

  lemma JoinCons(line: string, rest: seq<string>, ends: bool)
    ensures Join([line] + rest, ends) == line + (if rest != [] || ends then "\n" else "") + Join(rest, ends)
  {
    assert ([line] + rest)[1..] == rest;
  }

  lemma LinesLikeCons(line: string, rest: seq<string>, ends: bool)
    ensures LinesLike([line] + rest, ends) <==>
            LineLike(line, rest != [] || ends) && LinesLike(rest, ends) && (rest == [] && !ends ==> line != "")
  {
    var lines := [line] + rest;
    assert forall i :: 0 <= i < |rest| ==> rest[i] == lines[i + 1];
    if LinesLike(lines, ends) {
      forall i | 0 <= i < |rest| ensures LineLike(rest[i], i + 1 < |rest| || ends) {
        assert LineLike(lines[i + 1], i + 2 < |lines| || ends);
      }
      assert LineLike(lines[0], 1 < |lines| || ends);
      assert lines[|lines| - 1] == if rest == [] then line else rest[|rest| - 1];
    }
    if LineLike(line, rest != [] || ends) && LinesLike(rest, ends) && (rest == [] && !ends ==> line != "") {
      forall i | 0 <= i < |lines| ensures LineLike(lines[i], i + 1 < |lines| || ends) {
        if i > 0 { assert LineLike(rest[i - 1], i < |rest| || ends); }
      }
      assert lines[|lines| - 1] == if rest == [] then line else rest[|rest| - 1];
    }
  }

  lemma CutAtNewline(s: string, k: nat)
    requires LfOnly(s) && k == NewlineAt(s) < |s|
    ensures var line, rest := s[..k], s[k + 1..];
            && s == line + "\n" + rest && LfOnly(rest) && OneLine(line) && LineLike(line, true)
            && DropCarriageReturn(line) == line && EndsWithNewline(s) == (rest == "" || EndsWithNewline(rest))
  {
    var line, rest := s[..k], s[k + 1..];
    forall i: nat ensures !CrLfAt(rest, i) {
      assert !CrLfAt(s, k + 1 + i);
    }
    assert k > 0 ==> !CrLfAt(s, k - 1);
  }

  /** Splitting and joining again gives back every LF-only text. */
  lemma {:induction false} JoinOfLines(s: string)
    requires LfOnly(s)
    ensures Join(Lines(s), EndsWithNewline(s)) == s && LinesLike(Lines(s), EndsWithNewline(s))
    ensures s == "" <==> Lines(s) == []
    decreases |s|
  {
    if s != "" {
      var k := NewlineAt(s);
      if k < |s| {
        CutAtNewline(s, k);
        var line, rest := s[..k], s[k + 1..];
        JoinOfLines(rest);
        LinesCons(line, rest);
        JoinCons(line, Lines(rest), EndsWithNewline(s));
        LinesLikeCons(line, Lines(rest), EndsWithNewline(s));
      } else {
        LinesLast(s);
        JoinCons(s, [], false);
        LinesLikeCons(s, [], false);
        assert [s] + [] == [s];
      }
    }
  }

  /** Joining and splitting again gives back every list of lines that `Lines` can return. */
  lemma {:induction false} LinesOfJoin(lines: seq<string>, ends: bool)
    requires LinesLike(lines, ends)
    ensures Lines(Join(lines, ends)) == lines
    ensures lines != [] ==> Join(lines, ends) != "" && EndsWithNewline(Join(lines, ends)) == ends
  {
    if lines != [] {
      var line, rest := lines[0], lines[1..];
      assert lines == [line] + rest;
      LinesLikeCons(line, rest, ends);
      LinesOfJoin(rest, ends);
      JoinCons(line, rest, ends);
      assert OneLine(line) by { assert forall i :: 0 <= i < |line| ==> line[i] in line; }
      if rest != [] || ends {
        LinesCons(line, Join(rest, ends));
        LastOfJoin(line, Join(rest, ends));
      } else {
        LinesLast(line);
        assert line + "" + "" == line;
      }
    }
  }

  lemma LastOfJoin(line: string, tail: string)
    ensures EndsWithNewline(line + "\n" + tail) == (tail == "" || EndsWithNewline(tail))
  {
  }

  lemma {:induction false} JoinIsLfOnly(lines: seq<string>, ends: bool)
    requires LinesLike(lines, ends)
    ensures LfOnly(Join(lines, ends))
  {
    if lines != [] {
      var line, rest := lines[0], lines[1..];
      assert lines == [line] + rest;
      LinesLikeCons(line, rest, ends);
      JoinIsLfOnly(rest, ends);
      JoinCons(line, rest, ends);
      assert forall i :: 0 <= i < |line| ==> line[i] in line;
      var s, tail := Join(lines, ends), Join(rest, ends);
      if rest != [] || ends {
        forall i: nat ensures !CrLfAt(s, i) {
          if i > |line| { assert !CrLfAt(tail, i - |line| - 1); }
        }
      } else {
        assert s == line;
      }
    }
  }

  // ---- One line ----

  /** Index of the last quote, or -1. */
  function LastQuote(s: string): (k: int)
    ensures -1 <= k < |s| && (k >= 0 ==> s[k] == '"') && (forall i :: k < i < |s| ==> s[i] != '"')
  {
    if s == "" then -1 else if s[|s| - 1] == '"' then |s| - 1 else LastQuote(s[..|s| - 1])
  }

  lemma LastQuoteIs(s: string, k: int)
    requires -1 <= k < |s| && (k >= 0 ==> s[k] == '"') && (forall i :: k < i < |s| ==> s[i] != '"')
    ensures LastQuote(s) == k
  {
  }

  /** Opening and closing quote of the last quoted string. */
  function QuotedAt(line: string): (q: Option<(nat, nat)>)
    ensures q.Some? ==> q.value.0 < q.value.1 < |line|
  {
    var close := LastQuote(line);
    if close < 0 || LastQuote(line[..close]) < 0 then None else Some((LastQuote(line[..close]), close))
  }

  function LastString(line: string): Option<string> {
    match QuotedAt(line)
    case None => None
    case Some((open, close)) => Some(line[open + 1..close])
  }

  function ReplaceLastString(line: string, value: string): Option<string> {
    match QuotedAt(line)
    case None => None
    case Some((open, close)) => Some(line[..open + 1] + value + line[close..])
  }

  lemma QuotedIsAt(line: string, open: nat, close: nat)
    requires open < close < |line| && line[open] == '"' && line[close] == '"'
    requires (forall i :: open < i < close ==> line[i] != '"') && (forall i :: close < i < |line| ==> line[i] != '"')
    ensures QuotedAt(line) == Some((open, close))
  {
    LastQuoteIs(line, close);
    var front := line[..close];
    assert forall i :: 0 <= i < close ==> front[i] == line[i];
    LastQuoteIs(front, open);
  }

  lemma QuotedFacts(line: string)
    requires QuotedAt(line).Some?
    ensures var (open, close) := QuotedAt(line).value;
            && line[open] == '"' && line[close] == '"'
            && (forall i :: open < i < close ==> line[i] != '"') && (forall i :: close < i < |line| ==> line[i] != '"')
  {
    var (open, close) := QuotedAt(line).value;
    var front := line[..close];
    assert forall i :: 0 <= i < close ==> front[i] == line[i];
  }

  /** A string put between a line's head and tail is the last quoted one, if neither it nor the tail has more. */
  lemma Requoted(head: string, v: string, tail: string)
    requires head != "" && head[|head| - 1] == '"' && '"' !in v
    requires tail != "" && tail[0] == '"' && (forall i :: 1 <= i < |tail| ==> tail[i] != '"')
    ensures QuotedAt(head + v + tail) == Some((|head| - 1, |head| + |v|))
  {
    var line := head + v + tail;
    var open, close := |head| - 1, |head| + |v|;
    assert forall i :: 0 <= i < |v| ==> v[i] in v;
    assert forall i :: open < i < close ==> line[i] == v[i - |head|];
    assert forall i :: close <= i < |line| ==> line[i] == tail[i - close];
    QuotedIsAt(line, open, close);
  }

  /** Everything up to the opening quote, and everything from the closing one. */
  function Head(line: string): string
    requires QuotedAt(line).Some?
  {
    line[..QuotedAt(line).value.0 + 1]
  }

  function Tail(line: string): string
    requires QuotedAt(line).Some?
  {
    line[QuotedAt(line).value.1..]
  }

  /** A replaced string is where the old one was, reads back, and can be replaced again without a trace. */
  lemma ReplaceThenRead(line: string, v: string, w: string)
    requires QuotedAt(line).Some? && '"' !in v
    ensures var line' := ReplaceLastString(line, v).value;
            && line' == Head(line) + v + Tail(line) && QuotedAt(line').Some? && Head(line') == Head(line)
            && LastString(line') == Some(v)
            && ReplaceLastString(line', w) == ReplaceLastString(line, w)
  {
    QuotedFacts(line);
    var head, tail := Head(line), Tail(line);
    Requoted(head, v, tail);
    Parts(head, v, tail);
  }

  lemma Parts(head: string, v: string, tail: string)
    ensures var line := head + v + tail;
            line[..|head|] == head && line[|head|..|head| + |v|] == v && line[|head| + |v|..] == tail
  {
  }

  // ---- Finding the version line ----

  predicate IsSection(line: string) { "[" <= TrimStart(line) }
  predicate IsPackageSection(line: string) { "[workspace.package]" <= TrimStart(line) }

  predicate IsCargoVersion(line: string) {
    var t := TrimStart(line);
    "version" <= t && "=" <= TrimStart(t[|"version"|..])
  }

  /** The first version line at or after `i`, `inPkg` telling whether the package table is open there. */
  function CargoIndexFrom(lines: seq<string>, i: nat, inPkg: bool): Option<nat>
    requires i <= |lines|
    decreases |lines| - i
  {
    if i == |lines| then None
    else if IsSection(lines[i]) then CargoIndexFrom(lines, i + 1, IsPackageSection(lines[i]))
    else if inPkg && IsCargoVersion(lines[i]) then Some(i)
    else CargoIndexFrom(lines, i + 1, inPkg)
  }

  function CargoIndex(lines: seq<string>): Option<nat> { CargoIndexFrom(lines, 0, false) }

  /** `cargo_version_idx`. */
  method FindCargoVersion(toml: string) returns (r: Option<nat>)
    ensures r == CargoIndex(Lines(toml))
  {
    var lines, inPkg := Lines(toml), false;
    for i := 0 to |lines|
      invariant CargoIndexFrom(lines, i, inPkg) == CargoIndex(lines)
    {
      if IsSection(lines[i]) {
        inPkg := IsPackageSection(lines[i]);
        continue;
      }
      if inPkg && IsCargoVersion(lines[i]) {
        return Some(i);
      }
    }
    return None;
  }

  /** Line `j` is a version line of the package table: the last section header before it opens that table. */
  ghost predicate CargoVersionAt(lines: seq<string>, j: nat) {
    && j < |lines| && !IsSection(lines[j]) && IsCargoVersion(lines[j])
    && InPackageAt(lines, j)
  }

  /** The last section header before line `j` is the package table's. */
  ghost predicate InPackageAt(lines: seq<string>, j: nat)
    requires j <= |lines|
  {
    exists h :: 0 <= h < j && IsSection(lines[h]) && IsPackageSection(lines[h])
             && forall k :: h < k < j ==> !IsSection(lines[k])
  }

  lemma InPackageStep(lines: seq<string>, j: nat)
    requires j < |lines|
    ensures InPackageAt(lines, j + 1) <==>
              if IsSection(lines[j]) then IsPackageSection(lines[j]) else InPackageAt(lines, j)
  {
    if !IsSection(lines[j]) && InPackageAt(lines, j) {
      var h :| 0 <= h < j && IsSection(lines[h]) && IsPackageSection(lines[h])
               && forall k :: h < k < j ==> !IsSection(lines[k]);
      assert forall k :: h < k < j + 1 ==> !IsSection(lines[k]);
    }
  }

  lemma {:induction false} CargoIndexFromIs(lines: seq<string>, i: nat, inPkg: bool, j: nat)
    requires i <= |lines| && (inPkg <==> InPackageAt(lines, i))
    ensures CargoIndexFrom(lines, i, inPkg) == Some(j) <==>
              i <= j && CargoVersionAt(lines, j) && forall k :: i <= k < j ==> !CargoVersionAt(lines, k)
    decreases |lines| - i
  {
    if i < |lines| {
      InPackageStep(lines, i);
      assert CargoVersionAt(lines, i) <==> !IsSection(lines[i]) && inPkg && IsCargoVersion(lines[i]);
      if IsSection(lines[i]) {
        CargoIndexFromIs(lines, i + 1, IsPackageSection(lines[i]), j);
      } else if !(inPkg && IsCargoVersion(lines[i])) {
        CargoIndexFromIs(lines, i + 1, inPkg, j);
      }
    }
  }

  /** The line found is the first version line of the package table. */
  lemma CargoIndexIs(lines: seq<string>, j: nat)
    ensures CargoIndex(lines) == Some(j) <==>
              CargoVersionAt(lines, j) && forall k :: 0 <= k < j ==> !CargoVersionAt(lines, k)
  {
    CargoIndexFromIs(lines, 0, false, j);
  }

  predicate IsJsonVersion(line: string) { "\"version\"" <= TrimStart(line) }

  function JsonIndexFrom(lines: seq<string>, i: nat): Option<nat>
    requires i <= |lines|
    decreases |lines| - i
  {
    if i == |lines| then None else if IsJsonVersion(lines[i]) then Some(i) else JsonIndexFrom(lines, i + 1)
  }

  function JsonIndex(lines: seq<string>): Option<nat> { JsonIndexFrom(lines, 0) }

  /** The line found is the first whose text starts with the quoted key. */
  lemma {:induction false} JsonIndexFromIs(lines: seq<string>, i: nat, j: nat)
    requires i <= |lines|
    ensures JsonIndexFrom(lines, i) == Some(j) <==>
              i <= j < |lines| && IsJsonVersion(lines[j]) && forall k :: i <= k < j ==> !IsJsonVersion(lines[k])
    decreases |lines| - i
  {
    if i < |lines| && !IsJsonVersion(lines[i]) {
      JsonIndexFromIs(lines, i + 1, j);
    }
  }

  // ---- Setting and getting ----

  lemma Regroup(a: string, b: string, c: string, d: string)
    ensures a + (b + c + d) == a + b + c + d
  {
  }

  /** `rewrite_line`. */
  method RewriteLine(content: string, idx: nat, newLine: string) returns (out: string)
    ensures idx < |Lines(content)| ==> out == Join(Lines(content)[idx := newLine], EndsWithNewline(content))
  {
    var ends, lines := EndsWithNewline(content), Lines(content);
    ghost var target := if idx < |lines| then lines[idx := newLine] else lines;
    out := "";
    for i := 0 to |lines|
      invariant out + Join(target[i..], ends) == Join(target, ends)
    {
      var line := if i == idx then newLine else lines[i];
      assert target[i..] == [line] + target[i + 1..];
      JoinCons(line, target[i + 1..], ends);
      ghost var tail := Join(target[i + 1..], ends);
      if i + 1 < |lines| || ends {
        Regroup(out, line, "\n", tail);
        out := out + line + "\n";
      } else {
        Regroup(out, line, "", tail);
        out := out + line;
      }
    }
  }

  datatype Format = Cargo | Json

  function Index(f: Format, lines: seq<string>): (r: Option<nat>) {
    match f
    case Cargo => CargoIndex(lines)
    case Json => JsonIndex(lines)
  }

  /** `set_cargo` and `set_json`. */
  method Set(f: Format, content: string, version: string) returns (r: Option<string>)
    ensures r == SetSpec(f, content, version)
  {
    var idx: Option<nat>;
    if f.Cargo? {
      idx := FindCargoVersion(content);
    } else {
      idx := JsonIndex(Lines(content));
    }
    if idx.None? {
      return None;
    }
    IndexIsInside(f, Lines(content));
    var newLine := ReplaceLastString(Lines(content)[idx.value], version);
    if newLine.None? {
      return None;
    }
    var out := RewriteLine(content, idx.value, newLine.value);
    return Some(out);
  }

  function SetSpec(f: Format, content: string, version: string): Option<string> {
    var lines := Lines(content);
    match Index(f, lines)
    case None => None
    case Some(i) =>
      IndexIsInside(f, lines);
      match ReplaceLastString(lines[i], version)
      case None => None
      case Some(line) => Some(Join(lines[i := line], EndsWithNewline(content)))
  }

  /** `get_cargo` and `get_json`. */
  function Get(f: Format, content: string): Option<string> {
    var lines := Lines(content);
    match Index(f, lines)
    case None => None
    case Some(i) =>
      IndexIsInside(f, lines);
      LastString(lines[i])
  }

  lemma {:induction false} CargoIndexIsInside(lines: seq<string>, i: nat, inPkg: bool)
    requires i <= |lines|
    ensures var r := CargoIndexFrom(lines, i, inPkg);
            r.Some? ==> i <= r.value < |lines| && IsCargoVersion(lines[r.value]) && !IsSection(lines[r.value])
    decreases |lines| - i
  {
    if i < |lines| {
      CargoIndexIsInside(lines, i + 1, if IsSection(lines[i]) then IsPackageSection(lines[i]) else inPkg);
    }
  }

  lemma {:induction false} JsonIndexIsInside(lines: seq<string>, i: nat)
    requires i <= |lines|
    ensures var r := JsonIndexFrom(lines, i); r.Some? ==> i <= r.value < |lines| && IsJsonVersion(lines[r.value])
    decreases |lines| - i
  {
    if i < |lines| { JsonIndexIsInside(lines, i + 1); }
  }

  lemma IndexIsInside(f: Format, lines: seq<string>)
    ensures Index(f, lines).Some? ==> Index(f, lines).value < |lines|
  {
    CargoIndexIsInside(lines, 0, false);
    JsonIndexIsInside(lines, 0);
  }

  // ---- What decides whether a line is the version line ----

  lemma {:induction false} TrimStartOver(p: string, x: string)
    requires p != "" && !IsSpace(p[|p| - 1])
    ensures TrimStart(p + x) == TrimStart(p) + x
    ensures TrimStart(p) != "" && TrimStart(p)[|TrimStart(p)| - 1] == p[|p| - 1] && !IsSpace(TrimStart(p)[0])
    decreases |p|
  {
    if IsSpace(p[0]) {
      assert (p + x)[1..] == p[1..] + x;
      TrimStartOver(p[1..], x);
    }
  }

  /** A word without quotes cannot reach past a quote. */
  lemma WordDecides(word: string, q: string, x: string)
    requires '"' !in word && q != "" && q[|q| - 1] == '"'
    ensures word <= q + x <==> word <= q
  {
    assert (q + x)[|q| - 1] == '"';
    if word <= q + x {
      assert forall i :: 0 <= i < |word| ==> word[i] == (q + x)[i] && word[i] in word;
      assert |word| < |q|;
      assert word == q[..|word|];
    }
  }

  /** In a Cargo manifest everything up to a line's opening quote settles what the line is. */
  lemma HeadDecidesCargo(p: string, x: string)
    requires p != "" && p[|p| - 1] == '"'
    ensures IsSection(p + x) == IsSection(p) && IsCargoVersion(p + x) == IsCargoVersion(p)
  {
    TrimStartOver(p, x);
    var q := TrimStart(p);
    WordDecides("[", q, x);
    WordDecides("version", q, x);
    if "version" <= q {
      var n := |"version"|;
      assert q[n - 1] == "version"[n - 1];
      assert q[n - 1] != '"';
      assert |q| > n;
      var r := q[n..];
      assert (q + x)[n..] == r + x && r[|r| - 1] == '"';
      TrimStartOver(r, x);
      WordDecides("=", TrimStart(r), x);
    }
  }

  /** The version key lies wholly before the opening quote of the last string: the key is not that string. */
  predicate KeyIsKept(line: string) {
    QuotedAt(line).Some? && IsJsonVersion(Head(line))
  }

  const KEY := "\"version\""

  lemma QuoteIsNoSpace()
    ensures !IsSpace('"')
  {
  }

  /** If the key is not kept, it is itself the last quoted string. */
  lemma KeyOrValue(line: string)
    requires IsJsonVersion(line) && QuotedAt(line).Some?
    ensures KeyIsKept(line) || TrimStart(Head(line)) == "\""
  {
    QuotedFacts(line);
    var p, x := Head(line), line[|Head(line)|..];
    assert line == p + x;
    TrimStartOver(p, x);
    KeyEndsAtQuote(TrimStart(p), x);
  }

  /** Text that ends in a quote and starts like the key is the opening quote alone or has the whole key. */
  lemma KeyEndsAtQuote(q: string, x: string)
    requires KEY <= q + x && q != "" && q[|q| - 1] == '"'
    ensures KEY <= q || q == "\""
  {
    var s, n := q + x, |q|;
    assert s[n - 1] == '"';
    assert n <= |KEY| ==> KEY[n - 1] == '"';
    assert n == 1 || n >= |KEY|;
    if n >= |KEY| {
      assert q[..|KEY|] == s[..|KEY|];
    }
  }

  /** A JSON line is still the version line after its last string is replaced exactly when the key was not
      that string, or is replaced by itself. */
  lemma JsonStaysIff(line: string, v: string)
    requires IsJsonVersion(line) && QuotedAt(line).Some? && '"' !in v
    ensures IsJsonVersion(ReplaceLastString(line, v).value) <==> KeyIsKept(line) || v == "version"
  {
    QuotedFacts(line);
    KeyOrValue(line);
    var p, tail := Head(line), Tail(line);
    var line' := ReplaceLastString(line, v).value;
    assert line' == p + (v + tail);
    TrimStartOver(p, v + tail);
    var q := TrimStart(p);
    if KeyIsKept(line) {
      assert KEY <= q;
      assert (q + (v + tail))[..|KEY|] == q[..|KEY|];
    } else {
      assert q == "\"";
      KeyIsValue(v, tail);
    }
  }

  /** The case that fails: a key alone on its line is overwritten, and the line is no longer found. */
  lemma KeyAloneIsLost(v: string)
    requires '"' !in v && v != "version"
    ensures IsJsonVersion(KEY) && QuotedAt(KEY).Some? && !IsJsonVersion(ReplaceLastString(KEY, v).value)
  {
    QuoteIsNoSpace();
    assert TrimStart(KEY) == KEY;
    QuotedIsAt(KEY, 0, |KEY| - 1);
    assert Head(KEY) == "\"";
    assert |TrimStart(Head(KEY))| <= 1;
    JsonStaysIff(KEY, v);
  }

  /** Two words up to their closing quotes. */
  lemma WordsUpToQuote(w: string, v: string, tail: string)
    requires '"' !in w && '"' !in v && tail != "" && tail[0] == '"'
    ensures w + "\"" <= v + tail <==> v == w
  {
    var a, s := w + "\"", v + tail;
    assert forall i :: 0 <= i < |w| ==> a[i] == w[i] && w[i] in w;
    assert forall i :: 0 <= i < |v| ==> s[i] == v[i] && v[i] in v;
    assert a[|w|] == '"' && s[|v|] == '"';
    if a <= s {
      assert forall i :: 0 <= i < |a| ==> a[i] == s[i];
      assert |v| == |w|;
      assert forall i :: 0 <= i < |v| ==> v[i] == w[i];
    }
    if v == w {
      assert s[..|a|] == a;
    }
  }

  lemma KeyIsValue(v: string, tail: string)
    requires '"' !in v && tail != "" && tail[0] == '"'
    ensures KEY <= "\"" + (v + tail) <==> v == "version"
  {
    WordsUpToQuote("version", v, tail);
    var t := v + tail;
    assert KEY == "\"" + ("version" + "\"");
    SharedHead("\"", "version" + "\"", t);
  }

  lemma SharedHead(h: string, a: string, b: string)
    ensures h + a <= h + b <==> a <= b
  {
    if h + a <= h + b {
      assert a == (h + a)[|h|..] && b == (h + b)[|h|..];
      assert forall i :: 0 <= i < |a| ==> a[i] == (h + a)[|h| + i] && b[i] == (h + b)[|h| + i];
    }
    if a <= b {
      assert (h + b)[..|h| + |a|] == h + b[..|a|];
    }
  }

  // ---- The index after a rewrite ----

  lemma {:induction false} CargoIndexStays(lines: seq<string>, j: nat, inPkg: bool, i: nat, line: string)
    requires j <= |lines| && CargoIndexFrom(lines, j, inPkg) == Some(i) && i < |lines|
    requires IsCargoVersion(line) && !IsSection(line)
    ensures CargoIndexFrom(lines[i := line], j, inPkg) == Some(i)
    decreases |lines| - j
  {
    CargoIndexIsInside(lines, j, inPkg);
    if j < i {
      CargoIndexStays(lines, j + 1, if IsSection(lines[j]) then IsPackageSection(lines[j]) else inPkg, i, line);
    } else {
      CargoIndexIsInside(lines, i + 1, IsPackageSection(lines[i]));
      CargoIndexIsInside(lines, i + 1, inPkg);
    }
  }

  lemma {:induction false} JsonIndexStays(lines: seq<string>, j: nat, i: nat, line: string)
    requires j <= |lines| && JsonIndexFrom(lines, j) == Some(i) && i < |lines|
    ensures JsonIndexFrom(lines[i := line], j) == Some(i) <==> IsJsonVersion(line)
    decreases |lines| - j
  {
    JsonIndexIsInside(lines, j);
    if j < i {
      JsonIndexStays(lines, j + 1, i, line);
    } else {
      JsonIndexIsInside(lines[i := line], j);
    }
  }

  /** The rewrite leaves the version line recognisable. */
  predicate Survives(f: Format, line: string, v: string) {
    f.Cargo? || KeyIsKept(line) || v == "version"
  }

  /** After a rewrite the version line is found in the same place if and only if it survives. */
  lemma IndexStaysIff(f: Format, lines: seq<string>, v: string)
    requires Index(f, lines).Some? && Index(f, lines).value < |lines| && '"' !in v
    requires QuotedAt(lines[Index(f, lines).value]).Some?
    ensures var i := Index(f, lines).value;
            var line' := ReplaceLastString(lines[i], v).value;
            Index(f, lines[i := line']) == Some(i) <==> Survives(f, lines[i], v)
  {
    var i := Index(f, lines).value;
    var line := lines[i];
    var line' := ReplaceLastString(line, v).value;
    QuotedFacts(line);
    var p := Head(line);
    match f {
      case Cargo =>
        CargoIndexIsInside(lines, 0, false);
        assert line == p + line[|p|..];
        assert line' == p + (v + Tail(line));
        HeadDecidesCargo(p, line[|p|..]);
        HeadDecidesCargo(p, v + Tail(line));
        CargoIndexStays(lines, 0, false, i, line');
      case Json =>
        JsonIndexIsInside(lines, 0);
        JsonIndexStays(lines, 0, i, line');
        JsonStaysIff(line, v);
    }
  }

  // ---- Whole manifests ----

  /** A version that can stand between quotes on one line. */
  predicate Plain(v: string) { '"' !in v && '\n' !in v }

  lemma ReplacedIsLineLike(line: string, v: string, followed: bool)
    requires LineLike(line, followed) && QuotedAt(line).Some? && Plain(v)
    ensures var line' := ReplaceLastString(line, v).value; LineLike(line', followed) && line' != ""
  {
    var (open, close) := QuotedAt(line).value;
    var line' := ReplaceLastString(line, v).value;
    assert line' == line[..open + 1] + v + line[close..];
    assert line'[|line'| - 1] == line[|line| - 1];
    assert forall c :: c in line' ==> c in line || c in v;
  }

  lemma UpdatedLinesLike(lines: seq<string>, ends: bool, i: nat, line: string)
    requires LinesLike(lines, ends) && i < |lines| && LineLike(line, i + 1 < |lines| || ends) && line != ""
    ensures LinesLike(lines[i := line], ends)
  {
    var lines' := lines[i := line];
    forall k | 0 <= k < |lines'| ensures LineLike(lines'[k], k + 1 < |lines'| || ends) {
      assert LineLike(lines[k], k + 1 < |lines| || ends);
    }
  }

  /** A set changes the version line and nothing else: other lines, their number and the final newline stay. */
  lemma SetChangesOneLine(f: Format, c: string, v: string)
    requires LfOnly(c) && Plain(v) && SetSpec(f, c, v).Some?
    ensures var c', lines := SetSpec(f, c, v).value, Lines(c);
            && Index(f, lines).Some? && Index(f, lines).value < |lines|
            && QuotedAt(lines[Index(f, lines).value]).Some?
            && Lines(c') == lines[Index(f, lines).value := ReplaceLastString(lines[Index(f, lines).value], v).value]
            && EndsWithNewline(c') == EndsWithNewline(c) && LfOnly(c')
  {
    var lines, ends := Lines(c), EndsWithNewline(c);
    IndexIsInside(f, lines);
    var i := Index(f, lines).value;
    JoinOfLines(c);
    assert LineLike(lines[i], i + 1 < |lines| || ends);
    ReplacedIsLineLike(lines[i], v, i + 1 < |lines| || ends);
    var line' := ReplaceLastString(lines[i], v).value;
    UpdatedLinesLike(lines, ends, i, line');
    LinesOfJoin(lines[i := line'], ends);
    JoinIsLfOnly(lines[i := line'], ends);
  }

  /** What was set is what is read, and setting again leaves no trace of the first time, whenever the
      version line survives: always in Cargo manifests. */
  lemma SetThenGet(f: Format, c: string, v: string, w: string)
    requires LfOnly(c) && Plain(v) && SetSpec(f, c, v).Some?
    requires Survives(f, Lines(c)[IndexOf(f, Lines(c))], v)
    ensures var c' := SetSpec(f, c, v).value; Get(f, c') == Some(v) && SetSpec(f, c', w) == SetSpec(f, c, w)
  {
    var lines := Lines(c);
    SetChangesOneLine(f, c, v);
    var i := Index(f, lines).value;
    IndexStaysIff(f, lines, v);
    ReplaceThenRead(lines[i], v, w);
    var line' := ReplaceLastString(lines[i], v).value;
    assert lines[i := line'][i] == line';
    if ReplaceLastString(lines[i], w).Some? {
      var line'' := ReplaceLastString(lines[i], w).value;
      assert lines[i := line'][i := line''] == lines[i := line''];
    }
  }

  /** The index a set or get works on, 0 if there is none. */
  function IndexOf(f: Format, lines: seq<string>): (i: nat)
    ensures lines != [] ==> i < |lines|
    ensures Index(f, lines).Some? ==> Index(f, lines) == Some(i) && i < |lines|
  {
    IndexIsInside(f, lines);
    if Index(f, lines).Some? then Index(f, lines).value else 0
  }

  // ---- Carriage returns ----

  lemma CutAnywhere(s: string, k: nat)
    requires k == NewlineAt(s) < |s|
    ensures var line, rest := s[..k], s[k + 1..];
            && s == line + "\n" + rest && OneLine(line) && EndsWithNewline(s) == (rest == "" || EndsWithNewline(rest))
            && (LfOnly(s) <==> LfOnly(rest) && DropCarriageReturn(line) == line)
  {
    var line, rest := s[..k], s[k + 1..];
    if LfOnly(s) {
      CutAtNewline(s, k);
    }
    if LfOnly(rest) && DropCarriageReturn(line) == line {
      forall i: nat ensures !CrLfAt(s, i) {
        if i > k { assert !CrLfAt(rest, i - k - 1); }
      }
    }
  }

  /** Splitting and joining drops one character per carriage return before a newline. */
  lemma {:induction false} JoinIsNoLonger(s: string)
    ensures var t := Join(Lines(s), EndsWithNewline(s)); |t| <= |s| && (|t| == |s| <==> LfOnly(s))
    decreases |s|
  {
    if s != "" {
      var k := NewlineAt(s);
      if k < |s| {
        CutAnywhere(s, k);
        var line, rest := s[..k], s[k + 1..];
        JoinIsNoLonger(rest);
        LinesCons(line, rest);
        JoinCons(DropCarriageReturn(line), Lines(rest), EndsWithNewline(s));
      } else {
        LinesLast(s);
        JoinCons(s, [], false);
        assert [s] + [] == [s];
      }
    }
  }

  /** Rewriting a line with its own text is the identity exactly on LF-only texts. */
  lemma RewriteIsFaithfulIff(s: string)
    ensures Join(Lines(s), EndsWithNewline(s)) == s <==> LfOnly(s)
  {
    JoinIsNoLonger(s);
    if LfOnly(s) { JoinOfLines(s); }
  }
}
