/**
 * Shared vocabulary: an Option type and the handful of Python string
 * operations the recommender relies on (`in` on strings, `startswith`,
 * `strip`, `split`, `lower`, `replace`, integer formatting).
 */
module Common {

  datatype Option<+T> = None | Some(value: T)

  function Min(a: int, b: int): int { if a <= b then a else b }
  function Max(a: int, b: int): int { if a >= b then a else b }
  function MinR(a: real, b: real): real { if a <= b then a else b }
  function MaxR(a: real, b: real): real { if a >= b then a else b }

  /** `s.startswith(p)` */
  predicate IsPrefix(p: string, s: string) {
    |p| <= |s| && s[..|p|] == p
  }

  /** Python's `t in s` on strings: `t` occurs as a contiguous substring of `s`. */
  predicate Contains(s: string, t: string)
    decreases |s|
  {
    IsPrefix(t, s) || (|s| > 0 && Contains(s[1..], t))
  }

  lemma {:induction false} ContainsAt(s: string, t: string, i: nat)
    requires i + |t| <= |s| && s[i..i + |t|] == t
    ensures Contains(s, t)
    decreases i
  {
    if i > 0 {
      assert s[1..][i - 1..i - 1 + |t|] == s[i..i + |t|];
      ContainsAt(s[1..], t, i - 1);
    }
  }

  lemma {:induction false} ContainsWitness(s: string, t: string) returns (i: nat)
    requires Contains(s, t)
    ensures i + |t| <= |s| && s[i..i + |t|] == t
    decreases |s|
  {
    if IsPrefix(t, s) {
      i := 0;
    } else {
      var j := ContainsWitness(s[1..], t);
      assert s[1..][j..j + |t|] == s[j + 1..j + 1 + |t|];
      i := j + 1;
    }
  }

  /** A character can only be found in a string that holds it. */
  lemma {:induction false} ContainsChar(s: string, c: char)
    requires Contains(s, [c])
    ensures c in s
  {
    var i := ContainsWitness(s, [c]);
    assert s[i] == s[i..i + 1][0];
  }

  /** Python's `str.isspace()` per character, which is also what `\s` matches in `re`. */
  predicate IsSpace(c: char) {
    c == ' ' || c == '\t' || c == '\n' || c == '\r' || c == '\U{B}' || c == '\U{C}'
    || ('\U{1C}' <= c <= '\U{1F}') || c == '\U{85}' || c == '\U{A0}' || c == '\U{1680}'
    || ('\U{2000}' <= c <= '\U{200A}') || c == '\U{2028}' || c == '\U{2029}' || c == '\U{202F}'
    || c == '\U{205F}' || c == '\U{3000}'
  }

  /** `s.lstrip()`: the longest suffix of `s` that does not start with white space. */
  function StripLeft(s: string): (r: string)
    ensures |r| <= |s| && r == s[|s| - |r|..]
    ensures r == [] || !IsSpace(r[0])
    ensures forall k {:trigger IsSpace(s[k])} :: 0 <= k < |s| - |r| ==> IsSpace(s[k])
    decreases |s|
  {
    if |s| > 0 && IsSpace(s[0]) then
      var r := StripLeft(s[1..]);
      assert forall k :: 1 <= k < |s| - |r| ==> s[k] == s[1..][k - 1];
      r
    else s
  }

  /** `s.rstrip()`: the longest prefix of `s` that does not end with white space. */
  function StripRight(s: string): (r: string)
    ensures |r| <= |s| && r == s[..|r|]
    ensures r == [] || !IsSpace(r[|r| - 1])
    ensures forall k {:trigger IsSpace(s[k])} :: |r| <= k < |s| ==> IsSpace(s[k])
    decreases |s|
  {
    if |s| > 0 && IsSpace(s[|s| - 1]) then
      var r := StripRight(s[..|s| - 1]);
      assert forall k :: |r| <= k < |s| - 1 ==> s[k] == s[..|s| - 1][k];
      r
    else s
  }

  /** `s.strip()`: what remains neither starts nor ends with white space. */
  function Strip(s: string): (r: string)
    ensures r == [] || (!IsSpace(r[0]) && !IsSpace(r[|r| - 1]))
  {
    StripRight(StripLeft(s))
  }

  lemma StripOfStripped(s: string)
    requires s == [] || (!IsSpace(s[0]) && !IsSpace(s[|s| - 1]))
    ensures Strip(s) == s
  {
  }

  /** Length of the run of non-space characters at the head of `s`. */
  function TokenLen(s: string): (n: nat)
    ensures n <= |s|
    ensures forall k {:trigger IsSpace(s[k])} :: 0 <= k < n ==> !IsSpace(s[k])
    ensures n == |s| || IsSpace(s[n])
    decreases |s|
  {
    if s == [] || IsSpace(s[0]) then 0 else 1 + TokenLen(s[1..])
  }

  /** `s.split()` with no argument: the maximal runs of non-space characters, in order. */
  function Words(s: string): (ws: seq<string>)
    ensures forall k :: 0 <= k < |ws| ==> ws[k] != [] && forall c :: c in ws[k] ==> !IsSpace(c)
    decreases |s|
  {
    if s == [] then []
    else if IsSpace(s[0]) then Words(s[1..])
    else
      var n := TokenLen(s);
      assert forall c :: c in s[..n] ==> !IsSpace(c);
      [s[..n]] + Words(s[n..])
  }

  /** A word of `s` starts at `k`: a non-space character at the head of `s` or right after white space. */
  predicate WordStart(s: string, k: int) {
    0 <= k < |s| && !IsSpace(s[k]) && (k == 0 || IsSpace(s[k - 1]))
  }

  /** The word starts of `s` at index `i` or later, in increasing order. */
  function StartsFrom(s: string, i: nat): seq<nat>
    decreases |s| - i
  {
    if i >= |s| then [] else (if WordStart(s, i) then [i] else []) + StartsFrom(s, i + 1)
  }

  /** `StartsFrom(s, i)` holds exactly the word starts of `s` from `i` on. */
  lemma {:induction false} StartsFromExact(s: string, i: nat, k: int)
    ensures k in StartsFrom(s, i) <==> i <= k && WordStart(s, k)
    decreases |s| - i
  {
    if i < |s| {
      StartsFromExact(s, i + 1, k);
      var head := if WordStart(s, i) then [i] else [];
      assert StartsFrom(s, i) == head + StartsFrom(s, i + 1);
      assert k in StartsFrom(s, i) <==> k in head || k in StartsFrom(s, i + 1);
    }
  }

  /** `StartsFrom` lists the word starts in increasing order. */
  lemma {:induction false} StartsFromIncreasing(s: string, i: nat)
    ensures forall m :: 0 < m < |StartsFrom(s, i)| ==> StartsFrom(s, i)[m - 1] < StartsFrom(s, i)[m]
    decreases |s| - i
  {
    if i < |s| {
      StartsFromIncreasing(s, i + 1);
      StartsFromAbove(s, i + 1);
      var head, rest := if WordStart(s, i) then [i] else [], StartsFrom(s, i + 1);
      var r := head + rest;
      assert StartsFrom(s, i) == r;
      forall m | 0 < m < |r|
        ensures r[m - 1] < r[m]
      {
        if m > |head| {
          assert r[m - 1] == rest[m - 1 - |head|] && r[m] == rest[m - |head|];
        }
      }
    }
  }

  lemma {:induction false} StartsFromAbove(s: string, i: nat)
    ensures forall m :: 0 <= m < |StartsFrom(s, i)| ==> i <= StartsFrom(s, i)[m] < |s|
    decreases |s| - i
  {
    if i < |s| {
      StartsFromAbove(s, i + 1);
    }
  }

  /** The run of non-space characters of `s` that begins at `k` (empty past the end). */
  function WordAt(s: string, k: nat): string {
    if k <= |s| then s[k..k + TokenLen(s[k..])] else []
  }

  /** The word starts of `s[d..]`, as indices into `s`. */
  function Shifted(r: seq<nat>, d: nat): (t: seq<nat>)
    ensures |t| == |r| && forall m :: 0 <= m < |r| ==> t[m] == r[m] + d
  {
    seq(|r|, m requires 0 <= m < |r| => r[m] + d)
  }

  /**
   * Cutting `s` at `d` keeps its word starts from `d + j` on, when `d` itself
   * is not inside a word or `j > 0`.
   */
  lemma {:induction false} StartsShift(s: string, d: nat, j: nat)
    requires d + j <= |s|
    requires j > 0 || d == 0 || d == |s| || IsSpace(s[d - 1]) || IsSpace(s[d])
    ensures StartsFrom(s, d + j) == Shifted(StartsFrom(s[d..], j), d)
    decreases |s| - d - j
  {
    var t := s[d..];
    if d + j < |s| {
      StartsShift(s, d, j + 1);
      WordStartShift(s, d, j);
      var head := if WordStart(t, j) then [j] else [];
      var rest := StartsFrom(t, j + 1);
      assert StartsFrom(t, j) == head + rest;
      ShiftedAppend(head, rest, d);
      assert StartsFrom(s, d + j) == Shifted(head, d) + Shifted(rest, d);
    } else {
      assert StartsFrom(t, j) == [];
    }
  }

  lemma WordStartShift(s: string, d: nat, j: nat)
    requires d + j < |s|
    requires j > 0 || d == 0 || IsSpace(s[d - 1]) || IsSpace(s[d])
    ensures WordStart(s, d + j) <==> WordStart(s[d..], j)
  {
    if j > 0 {
      assert s[d + j - 1] == s[d..][j - 1];
    }
    assert s[d + j] == s[d..][j];
  }

  lemma ShiftedAppend(a: seq<nat>, b: seq<nat>, d: nat)
    ensures Shifted(a + b, d) == Shifted(a, d) + Shifted(b, d)
  {
    assert |Shifted(a + b, d)| == |Shifted(a, d) + Shifted(b, d)|;
    forall m | 0 <= m < |a + b|
      ensures Shifted(a + b, d)[m] == (Shifted(a, d) + Shifted(b, d))[m]
    {
      if m < |a| {
        assert (a + b)[m] == a[m];
      } else {
        assert (a + b)[m] == b[m - |a|];
      }
    }
  }

  /** No word starts inside the token at the head of `s`. */
  lemma {:induction false} StartsSkipToken(s: string, i: nat, n: nat)
    requires 1 <= i <= n <= |s|
    requires forall k :: 0 <= k < n ==> !IsSpace(s[k])
    ensures StartsFrom(s, i) == StartsFrom(s, n)
    decreases n - i
  {
    if i < n {
      assert !WordStart(s, i);
      StartsSkipToken(s, i + 1, n);
    }
  }

  lemma WordAtShift(s: string, n: nat, k: nat)
    requires n + k <= |s|
    ensures WordAt(s[n..], k) == WordAt(s, n + k)
  {
    assert s[n..][k..] == s[n + k..];
  }

  /** Each word of `split()` is the run that begins at the matching word start. */
  predicate RunsHold(s: string) {
    && |Words(s)| == |StartsFrom(s, 0)|
    && forall m :: 0 <= m < |Words(s)| ==> Words(s)[m] == WordAt(s, StartsFrom(s, 0)[m])
  }

  /**
   * `split()` returns one word per word start of `s`, in order: the run of
   * non-space characters that begins there.
   */
  lemma {:induction false} WordsAreRuns(s: string)
    ensures |Words(s)| == |StartsFrom(s, 0)|
    ensures forall m :: 0 <= m < |Words(s)| ==> Words(s)[m] == WordAt(s, StartsFrom(s, 0)[m])
    decreases |s|
  {
    if s == [] {
    } else if IsSpace(s[0]) {
      WordsAreRuns(s[1..]);
      RunsAfterSpace(s);
    } else {
      WordsAreRuns(s[TokenLen(s)..]);
      RunsAfterToken(s);
    }
  }

  /** Word starts of a string that opens with white space are those of its tail, shifted by one. */
  lemma SpaceStarts(s: string)
    requires s != [] && IsSpace(s[0])
    ensures StartsFrom(s, 0) == Shifted(StartsFrom(s[1..], 0), 1)
  {
    StartsShift(s, 1, 0);
    assert !WordStart(s, 0);
  }

  /** A string that opens with a word starts at 0, then at the starts of what follows the word. */
  lemma TokenStarts(s: string)
    requires s != [] && !IsSpace(s[0])
    ensures StartsFrom(s, 0) == [0] + Shifted(StartsFrom(s[TokenLen(s)..], 0), TokenLen(s))
  {
    var n := TokenLen(s);
    StartsShift(s, n, 0);
    StartsSkipToken(s, 1, n);
  }

  /**
   * Words `wt` found at starts `sf` of `s[n..]` are the words of `s` at the
   * shifted starts; a prefix `head`/`hs` that already matches is kept.
   */
  lemma RunsShifted(s: string, n: nat, head: seq<string>, hs: seq<nat>, wt: seq<string>, sf: seq<nat>)
    requires n <= |s| && |head| == |hs| && |wt| == |sf|
    requires forall m :: 0 <= m < |head| ==> head[m] == WordAt(s, hs[m])
    requires forall m :: 0 <= m < |sf| ==> sf[m] <= |s| - n && wt[m] == WordAt(s[n..], sf[m])
    ensures |head + wt| == |hs + Shifted(sf, n)|
    ensures forall m :: 0 <= m < |head + wt| ==> (head + wt)[m] == WordAt(s, (hs + Shifted(sf, n))[m])
  {
    var ws, st := head + wt, hs + Shifted(sf, n);
    forall m | 0 <= m < |ws|
      ensures ws[m] == WordAt(s, st[m])
    {
      if m >= |head| {
        var k := sf[m - |head|];
        assert st[m] == n + k && ws[m] == WordAt(s[n..], k);
        WordAtShift(s, n, k);
      }
    }
  }

  lemma RunsAfterSpace(s: string)
    requires s != [] && IsSpace(s[0]) && RunsHold(s[1..])
    ensures RunsHold(s)
  {
    var t := s[1..];
    StartsFromAbove(t, 0);
    SpaceStarts(s);
    assert Words(s) == Words(t);
    RunsShifted(s, 1, [], [], Words(t), StartsFrom(t, 0));
    assert [] + Words(t) == Words(t);
    assert [] + Shifted(StartsFrom(t, 0), 1) == StartsFrom(s, 0);
  }

  lemma RunsAfterToken(s: string)
    requires s != [] && !IsSpace(s[0]) && RunsHold(s[TokenLen(s)..])
    ensures RunsHold(s)
  {
    var n := TokenLen(s);
    var t := s[n..];
    StartsFromAbove(t, 0);
    TokenStarts(s);
    assert Words(s) == [s[..n]] + Words(t);
    assert s[0..] == s;
    assert WordAt(s, 0) == s[..n];
    RunsShifted(s, n, [s[..n]], [0], Words(t), StartsFrom(t, 0));
  }

  /** ASCII-only `str.lower()`. */
  function LowerChar(c: char): char {
    if 'A' <= c <= 'Z' then (c as int + 32) as char else c
  }

  function Lower(s: string): string
  {
    seq(|s|, k requires 0 <= k < |s| => LowerChar(s[k]))
  }

  /** `s.replace(a, b)` for single characters. */
  function ReplaceChar(s: string, a: char, b: char): (r: string)
    ensures |r| == |s| && forall k :: 0 <= k < |s| ==> r[k] == (if s[k] == a then b else s[k])
  {
    seq(|s|, k requires 0 <= k < |s| => if s[k] == a then b else s[k])
  }

  /** `s.replace(p, "")`: deletes the non-overlapping occurrences of `p`, scanning left to right. */
  function RemoveAll(s: string, p: string): (r: string)
    requires p != []
    ensures |r| <= |s|
    decreases |s|
  {
    if s == [] then []
    else if IsPrefix(p, s) then RemoveAll(s[|p|..], p)
    else [s[0]] + RemoveAll(s[1..], p)
  }

  /** `s.split(c)[0]`: the text before the first `c`, or all of `s`. */
  function Before(s: string, c: char): (r: string)
    ensures IsPrefix(r, s) && c !in r
    ensures r == s || (|r| < |s| && s[|r|] == c)
    decreases |s|
  {
    if s == [] then []
    else if s[0] == c then []
    else [s[0]] + Before(s[1..], c)
  }

  function DigitChar(d: nat): char
    requires d < 10
  {
    "0123456789"[d]
  }

  function NatToDecimal(n: nat): (r: string)
    ensures r != []
    decreases n
  {
    if n < 10 then [DigitChar(n)] else NatToDecimal(n / 10) + [DigitChar(n % 10)]
  }

  /** `str(i)` for a Python int. */
  function IntToDecimal(i: int): (r: string)
    ensures r != []
  {
    if i < 0 then "-" + NatToDecimal(-i) else NatToDecimal(i)
  }

  /** `int(x)` for a Python float: truncation toward zero. */
  function Trunc(x: real): (i: int)
    ensures x >= 0.0 ==> i as real <= x < i as real + 1.0
    ensures x < 0.0 ==> i as real - 1.0 < x <= i as real
  {
    if x >= 0.0 then x.Floor else -((-x).Floor)
  }

  /** `sep.join(parts)` */
  function Join(sep: string, parts: seq<string>): (r: string)
    ensures parts == [] ==> r == []
    ensures |parts| == 1 ==> r == parts[0]
    decreases |parts|
  {
    if parts == [] then []
    else if |parts| == 1 then parts[0]
    else parts[0] + sep + Join(sep, parts[1..])
  }

  /** `s[:n]` */
  function Take<T>(s: seq<T>, n: nat): (r: seq<T>)
    ensures |r| == Min(n, |s|) && r == s[..|r|]
  {
    if n < |s| then s[..n] else s
  }

  /** The index of the first element satisfying `p`, as a `for ... if ...: return` loop finds it. */
  function FirstWhere<T>(s: seq<T>, p: T -> bool): (r: Option<nat>)
    ensures r.Some? ==> r.value < |s| && p(s[r.value]) && forall j :: 0 <= j < r.value ==> !p(s[j])
    ensures r.None? ==> forall j :: 0 <= j < |s| ==> !p(s[j])
    decreases |s|
  {
    if s == [] then None
    else if p(s[0]) then Some(0)
    else match FirstWhere(s[1..], p)
      case None => None
      case Some(i) => Some(i + 1)
  }

  /**
   * Python's `max(s, key=score)`: the index of the first element whose score
   * no element beats.
   */
  function FirstArgMax<T>(s: seq<T>, score: T -> nat): (i: nat)
    requires s != []
    ensures i < |s|
    ensures forall j :: 0 <= j < |s| ==> score(s[j]) <= score(s[i])
    ensures forall j :: 0 <= j < i ==> score(s[j]) < score(s[i])
    decreases |s|
  {
    if |s| == 1 then 0
    else
      var b := FirstArgMax(s[..|s| - 1], score);
      if score(s[|s| - 1]) > score(s[b]) then |s| - 1 else b
  }

  /** No element occurs twice. */
  predicate Distinct<T(==)>(s: seq<T>) {
    forall i, j :: 0 <= i < j < |s| ==> s[i] != s[j]
  }

  lemma DistinctAppend<T>(a: seq<T>, b: seq<T>)
    requires Distinct(a) && Distinct(b)
    requires forall x :: x in a ==> x !in b
    ensures Distinct(a + b)
  {
    forall i, j | 0 <= i < j < |a + b|
      ensures (a + b)[i] != (a + b)[j]
    {
      if i < |a| && j >= |a| {
        assert (a + b)[i] in a && (a + b)[j] in b;
      }
    }
  }

  /** `counts.get(k, 0)` */
  function Get<K>(m: map<K, nat>, k: K): nat {
    if k in m then m[k] else 0
  }
}
