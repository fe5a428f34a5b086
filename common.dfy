/** Values and helpers shared by the whole model: optional and result values,
    JavaScript truthiness of an optional string, ASCII case mapping, substring
    search, and the array operations `filter` and `reduce` with the facts the
    dashboard pages rely on. */
module Common {

  datatype Option<T> = None | Some(value: T)

  /** An operation that either produces a value or throws an error. */
  datatype Result<T, E> = Ok(value: T) | Err(error: E)

  /** `!!s` for a value of type `string | null | undefined`: present and non-empty. */
  predicate Truthy(s: Option<string>) {
    s.Some? && s.value != ""
  }

  // ---------------------------------------------------------------------------
  // Characters and strings (ASCII case mapping only)

  predicate IsDigit(c: char) {
    '0' <= c <= '9'
  }

  /** `/^\d+$/`: a non-empty string of ASCII digits. */
  predicate IsDigitString(s: string) {
    |s| > 0 && forall i :: 0 <= i < |s| ==> IsDigit(s[i])
  }

  /** `parseInt(s, 10)` on a digit string: its decimal value. */
  function DigitsValue(s: string): (n: nat)
    requires forall i :: 0 <= i < |s| ==> IsDigit(s[i])
    ensures |s| == 1 ==> n == s[0] as int - '0' as int
  {
    if s == [] then 0
    else
      assert IsDigit(s[|s| - 1]);
      10 * DigitsValue(s[..|s| - 1]) + (s[|s| - 1] as int - '0' as int)
  }

  predicate IsAsciiLower(c: char) {
    'a' <= c <= 'z'
  }

  predicate IsAsciiUpper(c: char) {
    'A' <= c <= 'Z'
  }

  /** `toUpperCase` on one character, restricted to ASCII letters. */
  function UpperChar(c: char): (u: char)
    ensures !IsAsciiLower(u)
    ensures IsAsciiLower(c) || u == c
  {
    if IsAsciiLower(c) then (c as int - 32) as char else c
  }

  /** `toLowerCase` on one character, restricted to ASCII letters. */
  function LowerChar(c: char): (l: char)
    ensures !IsAsciiUpper(l)
    ensures IsAsciiUpper(c) || l == c
  {
    if IsAsciiUpper(c) then (c as int + 32) as char else c
  }

  function Upper(s: string): (r: string)
    ensures |r| == |s|
    ensures forall i :: 0 <= i < |s| ==> r[i] == UpperChar(s[i])
  {
    seq(|s|, i requires 0 <= i < |s| => UpperChar(s[i]))
  }

  function Lower(s: string): (r: string)
    ensures |r| == |s|
    ensures forall i :: 0 <= i < |s| ==> r[i] == LowerChar(s[i])
  {
    seq(|s|, i requires 0 <= i < |s| => LowerChar(s[i]))
  }

  /** `w` occurs in `s` starting at index `i`. */
  predicate StartsAt(s: string, i: int, w: string) {
    0 <= i && i + |w| <= |s| && s[i..i + |w|] == w
  }

  /** `s.includes(w)`. */
  predicate Includes(s: string, w: string) {
    exists i :: 0 <= i <= |s| - |w| && StartsAt(s, i, w)
  }

  /** `s.toLowerCase().includes(q.toLowerCase())`, the search test of every dashboard page. */
  predicate MatchesQuery(s: string, q: string) {
    Includes(Lower(s), Lower(q))
  }

  /** The empty search query matches every text. */
  lemma EmptyQueryMatches(s: string)
    ensures MatchesQuery(s, "")
  {
    assert StartsAt(Lower(s), 0, Lower(""));
  }

  // ---------------------------------------------------------------------------
  // Array.prototype.filter and reduce

  function Filter<T>(xs: seq<T>, keep: T -> bool): seq<T>
  {
    if xs == [] then []
    else if keep(xs[0]) then [xs[0]] + Filter(xs[1..], keep)
    else Filter(xs[1..], keep)
  }

  /** `xs.reduce((sum, x) => sum + f(x), 0)`. */
  function SumOf<T>(xs: seq<T>, f: T -> int): int
  {
    if xs == [] then 0 else f(xs[0]) + SumOf(xs[1..], f)
  }

  /** `a` is `b` with some elements left out, the rest in their original order. */
  ghost predicate IsSubsequence<T>(a: seq<T>, b: seq<T>)
    decreases |b|
  {
    a == [] || (b != [] && ((a[0] == b[0] && IsSubsequence(a[1..], b[1..])) || IsSubsequence(a, b[1..])))
  }

  lemma {:induction false} FilterMembership<T>(xs: seq<T>, keep: T -> bool)
    ensures |Filter(xs, keep)| <= |xs|
    ensures forall x :: x in Filter(xs, keep) <==> x in xs && keep(x)
    ensures forall i :: 0 <= i < |Filter(xs, keep)| ==> keep(Filter(xs, keep)[i])
  {
    if xs != [] {
      FilterMembership(xs[1..], keep);
      assert xs == [xs[0]] + xs[1..];
    }
  }

  lemma {:induction false} FilterIsSubsequence<T>(xs: seq<T>, keep: T -> bool)
    ensures IsSubsequence(Filter(xs, keep), xs)
  {
    if xs != [] {
      FilterIsSubsequence(xs[1..], keep);
      if keep(xs[0]) {
        assert ([xs[0]] + Filter(xs[1..], keep))[1..] == Filter(xs[1..], keep);
      }
    }
  }

  lemma {:induction false} FilterKeepsAll<T>(xs: seq<T>, keep: T -> bool)
    requires forall i :: 0 <= i < |xs| ==> keep(xs[i])
    ensures Filter(xs, keep) == xs
  {
    if xs != [] {
      FilterKeepsAll(xs[1..], keep);
      assert xs == [xs[0]] + xs[1..];
    }
  }

  lemma {:induction false} FilterIdempotent<T>(xs: seq<T>, keep: T -> bool)
    ensures Filter(Filter(xs, keep), keep) == Filter(xs, keep)
  {
    FilterMembership(xs, keep);
    FilterKeepsAll(Filter(xs, keep), keep);
  }

  /** Filtering with two tests that are never both true and together cover `all`
      splits `all`'s result between them, element for element. */
  lemma {:induction false} FilterSplit<T>(xs: seq<T>, all: T -> bool, p: T -> bool, q: T -> bool)
    requires forall x :: x in xs ==> all(x) == (p(x) || q(x))
    requires forall x :: x in xs ==> !(p(x) && q(x))
    ensures multiset(Filter(xs, p)) + multiset(Filter(xs, q)) == multiset(Filter(xs, all))
  {
    if xs != [] {
      assert xs[0] in xs;
      FilterSplit(xs[1..], all, p, q);
    }
  }

  /** Two tests that agree on every element keep the same elements. */
  lemma {:induction false} FilterSameTest<T>(xs: seq<T>, p: T -> bool, q: T -> bool)
    requires forall x :: x in xs ==> p(x) == q(x)
    ensures Filter(xs, p) == Filter(xs, q)
  {
    if xs != [] {
      assert xs[0] in xs;
      FilterSameTest(xs[1..], p, q);
    }
  }

  /** A test and its negation share the list between them. */
  lemma {:induction false} FilterCountSplit<T>(xs: seq<T>, p: T -> bool, notP: T -> bool)
    requires forall x :: notP(x) == !p(x)
    ensures |Filter(xs, p)| + |Filter(xs, notP)| == |xs|
  {
    if xs != [] {
      FilterCountSplit(xs[1..], p, notP);
    }
  }

  lemma {:induction false} FilterAppend<T>(xs: seq<T>, ys: seq<T>, keep: T -> bool)
    ensures Filter(xs + ys, keep) == Filter(xs, keep) + Filter(ys, keep)
  {
    if xs == [] {
      assert xs + ys == ys;
    } else {
      FilterAppend(xs[1..], ys, keep);
      assert (xs + ys)[0] == xs[0];
      assert (xs + ys)[1..] == xs[1..] + ys;
      if keep(xs[0]) {
        var head := [xs[0]];
        assert head + (Filter(xs[1..], keep) + Filter(ys, keep))
            == (head + Filter(xs[1..], keep)) + Filter(ys, keep);
      }
    }
  }

  lemma {:induction false} SumOfAppend<T>(xs: seq<T>, ys: seq<T>, f: T -> int)
    ensures SumOf(xs + ys, f) == SumOf(xs, f) + SumOf(ys, f)
  {
    if xs == [] {
      assert xs + ys == ys;
    } else {
      SumOfAppend(xs[1..], ys, f);
      assert (xs + ys)[1..] == xs[1..] + ys;
    }
  }

  /** With non-negative terms, a filtered sum is at most the full sum. */
  lemma {:induction false} SumOfFilterAtMost<T>(xs: seq<T>, keep: T -> bool, f: T -> int)
    requires forall i :: 0 <= i < |xs| ==> f(xs[i]) >= 0
    ensures SumOf(Filter(xs, keep), f) <= SumOf(xs, f)
  {
    if xs != [] {
      SumOfFilterAtMost(xs[1..], keep, f);
    }
  }

  /** A sum splits over a test and its negation. */
  lemma {:induction false} SumOfSplit<T>(xs: seq<T>, p: T -> bool, notP: T -> bool, f: T -> int)
    requires forall x :: notP(x) == !p(x)
    ensures SumOf(xs, f) == SumOf(Filter(xs, p), f) + SumOf(Filter(xs, notP), f)
  {
    if xs != [] {
      SumOfSplit(xs[1..], p, notP, f);
    }
  }
}
