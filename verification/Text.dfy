/** Strings, sequences and the failure types shared by every other module. */
module Text {

  datatype Option<+T> = None | Some(value: T)
  datatype Result<+T, +E> = Ok(value: T) | Err(error: E)

  /** Duplicate-free sequences. */
  ghost predicate NoDup<T>(s: seq<T>) {
    forall i, j :: 0 <= i < j < |s| ==> s[i] != s[j]
  }

  lemma {:induction false} NoDupCounts<T>(s: seq<T>)
    ensures NoDup(s) <==> forall x :: multiset(s)[x] <= 1
  {
    if s != [] {
      var front, x := s[..|s| - 1], s[|s| - 1];
      NoDupCounts(front);
      assert s == front + [x];
      assert multiset(s)[x] == multiset(front)[x] + 1;
      assert x in front <==> multiset(front)[x] >= 1;
      assert forall y :: y != x ==> multiset(s)[y] == multiset(front)[y];
    }
  }

  lemma SameElements<T>(a: seq<T>, b: seq<T>)
    requires NoDup(a) && NoDup(b) && (forall x :: x in a <==> x in b)
    ensures multiset(a) == multiset(b)
  {
    NoDupCounts(a);
    NoDupCounts(b);
    forall x ensures multiset(a)[x] == multiset(b)[x] {
      assert x in a <==> multiset(a)[x] >= 1;
      assert x in b <==> multiset(b)[x] >= 1;
    }
  }

  // ---- Searching and filtering ----

  /** Index of the first element that satisfies `p`, or the length. */
  function FirstIndex<T>(s: seq<T>, p: T -> bool): (i: nat)
    ensures i <= |s| && (forall j :: 0 <= j < i ==> !p(s[j])) && (i < |s| ==> p(s[i]))
  {
    if s == [] then 0 else if p(s[0]) then 0 else 1 + FirstIndex(s[1..], p)
  }

  lemma FirstIndexIs<T>(s: seq<T>, p: T -> bool, i: nat)
    requires i <= |s| && (forall j :: 0 <= j < i ==> !p(s[j])) && (i < |s| ==> p(s[i]))
    ensures FirstIndex(s, p) == i
  {
  }

  /** `Iterator::position`, and with it `find` and `any`. */
  method Position<T>(s: seq<T>, p: T -> bool) returns (i: nat)
    ensures i == FirstIndex(s, p)
  {
    i := 0;
    while i < |s| && !p(s[i])
      invariant i <= |s| && forall j :: 0 <= j < i ==> !p(s[j])
    {
      i := i + 1;
    }
  }

  /** The first element that satisfies `p` replaced, the others left alone. */
  function UpdateFirst<T>(s: seq<T>, p: T -> bool, f: T -> T): seq<T> {
    var i := FirstIndex(s, p);
    if i < |s| then s[i := f(s[i])] else s
  }

  lemma UpdateFirstAt<T>(s: seq<T>, p: T -> bool, f: T -> T, i: nat)
    requires i < |s|
    ensures |UpdateFirst(s, p, f)| == |s|
    ensures UpdateFirst(s, p, f)[i] == if p(s[i]) && (forall j :: 0 <= j < i ==> !p(s[j])) then f(s[i]) else s[i]
  {
  }

  /** The elements that satisfy `keep`, in order. */
  function Filter<T>(s: seq<T>, keep: T -> bool): seq<T> {
    if s == [] then []
    else
      var front := Filter(s[..|s| - 1], keep);
      if keep(s[|s| - 1]) then front + [s[|s| - 1]] else front
  }

  /** Exactly the elements that satisfy `keep` stay, and the length tells whether any went. */
  lemma {:induction false} FilterFacts<T>(s: seq<T>, keep: T -> bool)
    ensures forall x :: x in Filter(s, keep) <==> x in s && keep(x)
    ensures |Filter(s, keep)| <= |s|
    ensures |Filter(s, keep)| == |s| <==> forall i :: 0 <= i < |s| ==> keep(s[i])
    ensures |Filter(s, keep)| == |s| ==> Filter(s, keep) == s
  {
    if s != [] {
      FilterFacts(s[..|s| - 1], keep);
      assert s == s[..|s| - 1] + [s[|s| - 1]];
    }
  }

  lemma FilterGrow<T>(s: seq<T>, x: T, keep: T -> bool)
    ensures Filter(s + [x], keep) == if keep(x) then Filter(s, keep) + [x] else Filter(s, keep)
  {
    assert (s + [x])[..|s|] == s;
  }

  /** What stays keeps its order: where in `s` each element of the result came from. */
  lemma {:induction false} FilterPositions<T>(s: seq<T>, keep: T -> bool) returns (at: seq<nat>)
    ensures |at| == |Filter(s, keep)|
    ensures forall i :: 0 <= i < |at| ==> at[i] < |s| && Filter(s, keep)[i] == s[at[i]]
    ensures forall i, j :: 0 <= i < j < |at| ==> at[i] < at[j]
  {
    at := [];
    if s != [] {
      at := FilterPositions(s[..|s| - 1], keep);
      if keep(s[|s| - 1]) { at := at + [|s| - 1]; }
    }
  }

  /** `Vec::retain`. */
  method Retain<T>(s: seq<T>, keep: T -> bool) returns (r: seq<T>)
    ensures r == Filter(s, keep)
  {
    r := [];
    for n := 0 to |s|
      invariant r == Filter(s[..n], keep)
    {
      assert s[..n + 1] == s[..n] + [s[n]];
      FilterGrow(s[..n], s[n], keep);
      if keep(s[n]) {
        r := r + [s[n]];
      }
    }
    assert s[..|s|] == s;
  }

  /** `BTreeMap::retain`. */
  method RetainEntries<V>(m: map<string, V>, keep: (string, V) -> bool) returns (r: map<string, V>)
    ensures forall k :: k in r <==> k in m && keep(k, m[k])
    ensures forall k :: k in r ==> r[k] == m[k]
  {
    r := m;
    var todo := m.Keys;
    while todo != {}
      invariant todo <= m.Keys && r.Keys <= m.Keys
      invariant forall k :: k in m ==> (k in r <==> k in todo || keep(k, m[k]))
      invariant forall k :: k in r ==> r[k] == m[k]
      decreases todo
    {
      var k :| k in todo;
      if !keep(k, m[k]) {
        r := r - {k};
      }
      todo := todo - {k};
    }
  }

  // ---- ASCII case ----

  function LowerChar(c: char): char {
    if 'A' <= c <= 'Z' then (c as int + 32) as char else c
  }

  /** `str::to_ascii_lowercase`. */
  function ToAsciiLower(s: string): string {
    seq(|s|, i requires 0 <= i < |s| => LowerChar(s[i]))
  }

  /** `str::eq_ignore_ascii_case`. */
  predicate SameIgnoringCase(a: string, b: string) {
    ToAsciiLower(a) == ToAsciiLower(b)
  }

  const UPPER := "ABCDEFGHIJKLMNOPQRSTUVWXYZ"
  const LOWER := "abcdefghijklmnopqrstuvwxyz"

  lemma Alphabets(i: nat)
    requires i < 26
    ensures UPPER[i] as int == 'A' as int + i && LOWER[i] as int == 'a' as int + i
  {
  }

  /** One character, or the two cases of one letter. */
  ghost predicate SameLetter(a: char, b: char) {
    a == b || exists i: nat :: i < 26 && ((a == UPPER[i] && b == LOWER[i]) || (a == LOWER[i] && b == UPPER[i]))
  }

  lemma LowerIdentifies(a: char, b: char)
    ensures LowerChar(a) == LowerChar(b) <==> SameLetter(a, b)
  {
    if LowerChar(a) == LowerChar(b) && a != b {
      var i: nat := LowerChar(a) as int - 'a' as int;
      Alphabets(i);
    }
    if i: nat :| i < 26 && ((a == UPPER[i] && b == LOWER[i]) || (a == LOWER[i] && b == UPPER[i])) {
      Alphabets(i);
    }
  }

  /** Ignoring ASCII case is: character by character equal up to the case of a letter. */
  lemma SameIgnoringCaseIff(a: string, b: string)
    ensures SameIgnoringCase(a, b) <==> |a| == |b| && forall i :: 0 <= i < |a| ==> SameLetter(a[i], b[i])
  {
    forall i | 0 <= i < |a| && i < |b| ensures LowerChar(a[i]) == LowerChar(b[i]) <==> SameLetter(a[i], b[i]) {
      LowerIdentifies(a[i], b[i]);
    }
    if SameIgnoringCase(a, b) {
      forall i | 0 <= i < |a| ensures SameLetter(a[i], b[i]) {
        assert ToAsciiLower(a)[i] == ToAsciiLower(b)[i];
      }
    }
  }

  predicate NameChar(c: char) {
    'a' <= c <= 'z' || '0' <= c <= '9' || c == '-' || c == '.'
  }

  predicate ValidName(s: string) {
    s != "" && forall i :: 0 <= i < |s| ==> NameChar(s[i])
  }

  /** A site, proxy or project name: the constructors only let lower-case DNS labels through. */
  type Name = s: string | ValidName(s) witness "a"

  lemma LowerOfName(n: Name)
    ensures ToAsciiLower(n) == n
  {
  }

  // ---- Trimming ----

  /** The characters `str::trim` removes: Unicode White_Space. */
  predicate IsSpace(c: char) {
    '\t' <= c <= '\r' || c == ' ' || c == '\U{85}' || c == '\U{A0}' || c == '\U{1680}' || '\U{2000}' <= c <= '\U{200A}'
    || c == '\U{2028}' || c == '\U{2029}' || c == '\U{202F}' || c == '\U{205F}' || c == '\U{3000}'
  }

  function TrimStart(s: string): string {
    if s != "" && IsSpace(s[0]) then TrimStart(s[1..]) else s
  }

  function TrimEnd(s: string): string {
    if s != "" && IsSpace(s[|s| - 1]) then TrimEnd(s[..|s| - 1]) else s
  }

  function Trim(s: string): string { TrimEnd(TrimStart(s)) }

  // ---- Ordering of strings, as `BTreeMap<String, _>` and `sort` use it ----

  predicate LexLeq(a: string, b: string) {
    a == "" || (b != "" && (a[0] < b[0] || (a[0] == b[0] && LexLeq(a[1..], b[1..]))))
  }

  lemma LexTotal(a: string, b: string)
    ensures LexLeq(a, b) || LexLeq(b, a)
  {
  }

  lemma LexAntisymmetric(a: string, b: string)
    requires LexLeq(a, b) && LexLeq(b, a)
    ensures a == b
  {
    if a != "" && b != "" {
      LexAntisymmetric(a[1..], b[1..]);
      assert a == [a[0]] + a[1..] && b == [b[0]] + b[1..];
    }
  }

  lemma LexTransitive(a: string, b: string, c: string)
    requires LexLeq(a, b) && LexLeq(b, c)
    ensures LexLeq(a, c)
  {
    if a != "" && b != "" && c != "" && a[0] == b[0] && b[0] == c[0] {
      LexTransitive(a[1..], b[1..], c[1..]);
    }
  }

  ghost predicate LexSorted(s: seq<string>) {
    forall i, j :: 0 <= i < j < |s| ==> LexLeq(s[i], s[j])
  }

  /** Insert `x` into the sorted `s`, before the first element that is not smaller. */
  method InsertSorted(s: seq<string>, x: string) returns (r: seq<string>)
    requires LexSorted(s)
    ensures LexSorted(r)
    ensures multiset(r) == multiset(s) + multiset{x}
  {
    var k := 0;
    while k < |s| && !LexLeq(x, s[k])
      invariant 0 <= k <= |s|
      invariant forall i :: 0 <= i < k ==> LexLeq(s[i], x)
    {
      LexTotal(x, s[k]);
      k := k + 1;
    }
    r := s[..k] + [x] + s[k..];
    assert s == s[..k] + s[k..];
    forall j | k <= j < |s| ensures LexLeq(x, s[j]) {
      if k < j { LexTransitive(x, s[k], s[j]); }
    }
  }

  /** `slice::sort` on strings. */
  method SortStrings(s: seq<string>) returns (r: seq<string>)
    ensures LexSorted(r)
    ensures multiset(r) == multiset(s)
  {
    r := [];
    for n := 0 to |s|
      invariant LexSorted(r)
      invariant multiset(r) == multiset(s[..n])
    {
      assert s[..n + 1] == s[..n] + [s[n]];
      r := InsertSorted(r, s[n]);
    }
    assert s[..|s|] == s;
  }

  /** The head of a sorted sequence is below every element, itself included. */
  lemma HeadIsLeast(s: seq<string>, x: string)
    requires LexSorted(s) && x in s
    ensures LexLeq(s[0], x)
  {
    LexTotal(x, x);
  }

  lemma TailMultiset(s: seq<string>)
    requires s != []
    ensures multiset(s[1..]) == multiset(s) - multiset{s[0]}
  {
    assert s == [s[0]] + s[1..];
  }

  /** A sorted sequence is determined by its elements: comparing two sorted copies compares multisets. */
  lemma {:induction false} SortedIsCanonical(a: seq<string>, b: seq<string>)
    requires LexSorted(a) && LexSorted(b)
    requires multiset(a) == multiset(b)
    ensures a == b
  {
    assert |a| == |b| by { assert |multiset(a)| == |multiset(b)|; }
    if a != [] {
      assert a[0] in b by { assert a[0] in multiset(b) by { assert a[0] in multiset(a); } }
      assert b[0] in a by { assert b[0] in multiset(a) by { assert b[0] in multiset(b); } }
      HeadIsLeast(a, b[0]);
      HeadIsLeast(b, a[0]);
      LexAntisymmetric(a[0], b[0]);
      TailMultiset(a);
      TailMultiset(b);
      SortedIsCanonical(a[1..], b[1..]);
    }
  }
}
