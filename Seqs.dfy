/** Sequence helpers shared by the behaviours (List.IndexOf and friends). */
module Seqs {

  /** The first position of `x` in `s`, or -1 when `x` does not occur (List<T>.IndexOf). */
  function IndexOf<T(==)>(s: seq<T>, x: T): (r: int)
    ensures -1 <= r < |s|
    ensures r >= 0 ==> s[r] == x && forall j :: 0 <= j < r ==> s[j] != x
    ensures r < 0 <==> x !in s
  {
    if |s| == 0 then -1
    else if s[0] == x then 0
    else
      var k := IndexOf(s[1..], x);
      if k < 0 then -1 else k + 1
  }

  /** The elements of `s` that satisfy `f`, in their order (a loop that appends the matching ones to a list). */
  function Filter<T>(f: T -> bool, s: seq<T>): (r: seq<T>)
    ensures |r| <= |s|
    ensures forall i :: 0 <= i < |r| ==> r[i] in s && f(r[i])
    ensures forall i :: 0 <= i < |s| && f(s[i]) ==> s[i] in r
    ensures (forall i :: 0 <= i < |s| ==> !f(s[i])) ==> r == []
    decreases |s|
  {
    if |s| == 0 then []
    else
      var n := |s| - 1;
      assert s == s[..n] + [s[n]];
      Filter(f, s[..n]) + (if f(s[n]) then [s[n]] else [])
  }

  /** Filtering a sequence with one more element at its end. */
  lemma FilterSnoc<T>(f: T -> bool, s: seq<T>, x: T)
    ensures Filter(f, s + [x]) == Filter(f, s) + (if f(x) then [x] else [])
  {
    assert (s + [x])[..|s|] == s;
  }

  /** Filtering first by a weaker test changes nothing about a filter by a stronger one. */
  lemma {:induction false} FilterOfFiltered<T>(f: T -> bool, g: T -> bool, s: seq<T>)
    requires forall x :: g(x) ==> f(x)
    ensures Filter(g, Filter(f, s)) == Filter(g, s)
    decreases |s|
  {
    if |s| > 0 {
      var n := |s| - 1;
      var inner := Filter(f, s[..n]);
      assert Filter(f, s) == inner + (if f(s[n]) then [s[n]] else []);
      assert Filter(g, s) == Filter(g, s[..n]) + (if g(s[n]) then [s[n]] else []);
      FilterOfFiltered(f, g, s[..n]);
      if f(s[n]) {
        FilterSnoc(g, inner, s[n]);
      } else {
        assert inner + [] == inner;
      }
    }
  }

  /** `s` cut at the first `sep`: what comes before it and what comes after it (all of `s` and nothing when there is none). */
  function SplitFirst<T(==)>(s: seq<T>, sep: T): (r: (seq<T>, seq<T>))
    ensures sep !in r.0
    ensures sep in s ==> s == r.0 + [sep] + r.1
    ensures sep !in s ==> r == (s, [])
    decreases |s|
  {
    if |s| == 0 then ([], [])
    else if s[0] == sep then ([], s[1..])
    else
      var (before, after) := SplitFirst(s[1..], sep);
      assert s == [s[0]] + s[1..];
      ([s[0]] + before, after)
  }

  /** Cutting `a + [sep] + b` at its first `sep` gives `a` and `b` back when `a` holds no `sep`. */
  lemma {:induction false} SplitFirstJoined<T>(a: seq<T>, sep: T, b: seq<T>)
    requires sep !in a
    ensures SplitFirst(a + [sep] + b, sep) == (a, b)
    decreases |a|
  {
    var s := a + [sep] + b;
    if |a| == 0 {
      assert s[1..] == b;
    } else {
      assert s[0] == a[0];
      assert s[1..] == a[1..] + [sep] + b;
      SplitFirstJoined(a[1..], sep, b);
      assert [a[0]] + a[1..] == a;
    }
  }
}
