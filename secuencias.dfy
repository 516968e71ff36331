/** Generic facts about integer sequences: Python's `sum`, `list.index`,
    and `sorted(set(...))`, which the profit roll-up relies on. */
module Secuencias {

  /** `sum(xs)` over a list of amounts; the empty list sums to 0. */
  function Sum(s: seq<int>): int
  {
    if s == [] then 0 else Sum(s[..|s| - 1]) + s[|s| - 1]
  }

  predicate StrictlyIncreasing(s: seq<int>)
  {
    forall i, j :: 0 <= i < j < |s| ==> s[i] < s[j]
  }

  predicate Distinct(s: seq<int>)
  {
    forall i, j :: 0 <= i < j < |s| ==> s[i] != s[j]
  }

  function Elements(s: seq<int>): set<int>
  {
    set x | x in s
  }

  /** A list of `n` zeros, as `[0] * n`. */
  function Zeros(n: nat): (z: seq<int>)
    ensures |z| == n && forall i :: 0 <= i < n ==> z[i] == 0
  {
    seq(n, _ => 0)
  }

  /** `s.index(x)`: the first position that holds `x`. */
  function IndexOf(s: seq<int>, x: int): (k: nat)
    requires x in s
    ensures k < |s| && s[k] == x
    ensures forall j :: 0 <= j < k ==> s[j] != x
  {
    if s[0] == x then 0 else 1 + IndexOf(s[1..], x)
  }

  /** Inserts `x` into an ascending duplicate-free list, keeping it so
      (`InsertSpec`). */
  function Insert(x: int, s: seq<int>): seq<int>
  {
    if s == [] then [x]
    else if x < s[0] then [x] + s
    else if x == s[0] then s
    else [s[0]] + Insert(x, s[1..])
  }

  lemma {:induction false} InsertElements(x: int, s: seq<int>)
    ensures Elements(Insert(x, s)) == Elements(s) + {x}
  {
    if s != [] {
      assert Elements(s) == {s[0]} + Elements(s[1..]) by {
        assert s == [s[0]] + s[1..];
      }
      if x < s[0] {
        assert Elements([x] + s) == {x} + Elements(s);
      } else if x > s[0] {
        var t := Insert(x, s[1..]);
        InsertElements(x, s[1..]);
        assert Elements([s[0]] + t) == {s[0]} + Elements(t);
      }
    }
  }

  lemma {:induction false} InsertSpec(x: int, s: seq<int>)
    requires StrictlyIncreasing(s)
    ensures StrictlyIncreasing(Insert(x, s))
    ensures Elements(Insert(x, s)) == Elements(s) + {x}
  {
    InsertElements(x, s);
    if s != [] && x > s[0] {
      var t := Insert(x, s[1..]);
      InsertSpec(x, s[1..]);
      assert s == [s[0]] + s[1..];
      assert forall y :: y in t ==> y in Elements(t);
      ConsIncreasing(s[0], s[1..], t);
    }
  }

  /** `sorted(set(xs))`: the distinct values of `xs` in ascending order. */
  function SortedSet(xs: seq<int>): (r: seq<int>)
    ensures StrictlyIncreasing(r)
    ensures Elements(r) == Elements(xs)
  {
    if xs == [] then []
    else
      assert xs == xs[..|xs| - 1] + [xs[|xs| - 1]];
      InsertSpec(xs[|xs| - 1], SortedSet(xs[..|xs| - 1]));
      Insert(xs[|xs| - 1], SortedSet(xs[..|xs| - 1]))
  }

  lemma StrictlyIncreasingIsDistinct(s: seq<int>)
    requires StrictlyIncreasing(s)
    ensures Distinct(s)
  {
  }

  lemma EmptyElements(s: seq<int>)
    ensures s == [] <==> Elements(s) == {}
  {
    if s != [] {
      assert s[0] in Elements(s);
    }
  }

  /** There is exactly one ascending duplicate-free list with a given set of
      values, so `SortedSet` is determined by what it promises. */
  lemma {:induction false} StrictlyIncreasingUnique(a: seq<int>, b: seq<int>)
    requires StrictlyIncreasing(a) && StrictlyIncreasing(b)
    requires Elements(a) == Elements(b)
    ensures a == b
  {
    if a == [] || b == [] {
      EmptyElements(a);
      EmptyElements(b);
    } else {
      assert a[0] == b[0] by {
        assert a[0] in Elements(b) && b[0] in Elements(a);
      }
      assert Elements(a) == {a[0]} + Elements(a[1..]);
      assert Elements(b) == {b[0]} + Elements(b[1..]);
      assert a[0] !in Elements(a[1..]);
      assert b[0] !in Elements(b[1..]);
      StrictlyIncreasingUnique(a[1..], b[1..]);
      assert a == [a[0]] + a[1..] && b == [b[0]] + b[1..];
    }
  }

  /** A head below every element of an ascending list keeps it ascending. */
  lemma ConsIncreasing(h: int, s: seq<int>, t: seq<int>)
    requires StrictlyIncreasing([h] + s) && StrictlyIncreasing(t)
    requires forall y :: y in t ==> y in s || h < y
    ensures StrictlyIncreasing([h] + t)
  {
    assert ([h] + s)[0] == h;
    forall k | 0 <= k < |t| ensures h < t[k] {
      assert t[k] in t;
      if t[k] in s {
        var j :| 0 <= j < |s| && s[j] == t[k];
        assert ([h] + s)[j + 1] == s[j];
      }
    }
  }
  lemma {:induction false} SumZeros(n: nat)
    ensures Sum(Zeros(n)) == 0
  {
    if n > 0 {
      assert Zeros(n)[..n - 1] == Zeros(n - 1);
      SumZeros(n - 1);
    }
  }

  /** Adding `d` to one slot (`s[k] += d`) adds `d` to the sum. */
  lemma {:induction false} SumUpdate(s: seq<int>, k: nat, d: int)
    requires k < |s|
    ensures Sum(s[k := s[k] + d]) == Sum(s) + d
  {
    var t := s[k := s[k] + d];
    if k == |s| - 1 {
      assert t[..|t| - 1] == s[..|s| - 1];
    } else {
      assert t[..|t| - 1] == s[..|s| - 1][k := s[k] + d];
      SumUpdate(s[..|s| - 1], k, d);
    }
  }

  /** The element-by-element sum of two lists of the same length. */
  function AddPointwise(a: seq<int>, b: seq<int>): (c: seq<int>)
    requires |a| == |b|
    ensures |c| == |a|
  {
    seq(|a|, i requires 0 <= i < |a| => a[i] + b[i])
  }

  /** Summing two columns row by row and then down gives the sum of the
      two column sums. */
  lemma {:induction false} SumAddPointwise(a: seq<int>, b: seq<int>)
    requires |a| == |b|
    ensures Sum(AddPointwise(a, b)) == Sum(a) + Sum(b)
  {
    if a != [] {
      var n := |a| - 1;
      assert AddPointwise(a, b)[..n] == AddPointwise(a[..n], b[..n]);
      SumAddPointwise(a[..n], b[..n]);
    }
  }
}
