/**
 * Sequence utilities: stable sorting by an integer key, as Python's
 * `list.sort(key=...)` and the calendar service's `orderBy='startTime'`
 * arrange values, filtering, and the collecting loops that stop at the
 * first element they cannot read.
 */
module Sorting {
  import opened Text

  predicate SortedBy<T>(s: seq<T>, key: T -> int) {
    forall i, j :: 0 <= i < j < |s| ==> key(s[i]) <= key(s[j])
  }

  /** Puts `x` in front of the first element whose key is not smaller, so that equal keys keep their order. */
  function InsertBy<T(!new)>(x: T, s: seq<T>, key: T -> int): (r: seq<T>)
    ensures |r| == |s| + 1
    ensures multiset(r) == multiset(s) + multiset{x}
    ensures forall y :: y in r <==> y == x || y in s
  {
    if s == [] then [x]
    else if key(x) <= key(s[0]) then [x] + s
    else
      var rest := InsertBy(x, s[1..], key);
      assert s == [s[0]] + s[1..];
      assert forall y :: y in rest ==> y == x || y in s[1..];
      [s[0]] + rest
  }

  lemma {:induction false} InsertBySorted<T(!new)>(x: T, s: seq<T>, key: T -> int)
    requires SortedBy(s, key)
    ensures SortedBy(InsertBy(x, s, key), key)
  {
    if s != [] && key(s[0]) < key(x) {
      assert SortedBy(s[1..], key);
      InsertBySorted(x, s[1..], key);
      var rest := InsertBy(x, s[1..], key);
      forall y | y in rest ensures key(s[0]) <= key(y) {
        if y != x {
          var k :| 0 <= k < |s[1..]| && s[1..][k] == y;
          assert s[k + 1] == y;
        }
      }
      var r := [s[0]] + rest;
      forall i, j | 0 <= i < j < |r| ensures key(r[i]) <= key(r[j]) {
        if i > 0 {
          assert r[i] == rest[i - 1] && r[j] == rest[j - 1];
        } else {
          assert r[j] in rest;
        }
      }
    }
  }

  /** Insertion sort: a sorted permutation of `s`. */
  function SortBy<T(!new)>(s: seq<T>, key: T -> int): (r: seq<T>)
    ensures |r| == |s|
    ensures multiset(r) == multiset(s)
    ensures forall y :: y in r <==> y in s
    ensures SortedBy(r, key)
  {
    if s == [] then []
    else
      assert s == [s[0]] + s[1..];
      InsertBySorted(s[0], SortBy(s[1..], key), key);
      InsertBy(s[0], SortBy(s[1..], key), key)
  }

  /** The elements of `s` whose key is `k`, in their order. */
  function KeyRun<T>(s: seq<T>, key: T -> int, k: int): seq<T> {
    if s == [] then []
    else (if key(s[0]) == k then [s[0]] else []) + KeyRun(s[1..], key, k)
  }

  lemma KeyRunCons<T>(y: T, t: seq<T>, key: T -> int, k: int)
    ensures KeyRun([y] + t, key, k) == (if key(y) == k then [y] else []) + KeyRun(t, key, k)
  {
    assert ([y] + t)[1..] == t;
  }

  /** Inserting `x` puts it ahead of the elements that share its key. */
  lemma {:induction false} InsertByStable<T(!new)>(x: T, s: seq<T>, key: T -> int, k: int)
    ensures KeyRun(InsertBy(x, s, key), key, k) == (if key(x) == k then [x] else []) + KeyRun(s, key, k)
  {
    if s == [] || key(x) <= key(s[0]) {
      assert InsertBy(x, s, key) == [x] + s;
      KeyRunCons(x, s, key, k);
    } else {
      var rest := InsertBy(x, s[1..], key);
      assert InsertBy(x, s, key) == [s[0]] + rest;
      InsertByStable(x, s[1..], key, k);
      KeyRunCons(s[0], rest, key, k);
      KeyRunCons(s[0], s[1..], key, k);
      assert [s[0]] + s[1..] == s;
      var tail := KeyRun(s[1..], key, k);
      if key(x) == k {
        assert KeyRun(rest, key, k) == [x] + tail;
        assert KeyRun(s, key, k) == [] + tail == tail;
        assert KeyRun(InsertBy(x, s, key), key, k) == [] + KeyRun(rest, key, k) == [x] + tail;
      } else {
        assert KeyRun(rest, key, k) == [] + tail == tail;
      }
    }
  }

  /** The sort is stable: elements with equal keys keep their relative order. */
  lemma {:induction false} SortByStable<T(!new)>(s: seq<T>, key: T -> int, k: int)
    ensures KeyRun(SortBy(s, key), key, k) == KeyRun(s, key, k)
  {
    if s != [] {
      SortByStable(s[1..], key, k);
      InsertByStable(s[0], SortBy(s[1..], key), key, k);
    }
  }

  /** Python's `min(a, b)`. */
  function Min(a: int, b: int): int { if a < b then a else b }

  /** The first `n` elements, Python's `s[:n]`. */
  function Take<T>(s: seq<T>, n: nat): (r: seq<T>)
    ensures |r| == if n < |s| then n else |s|
    ensures r == s[..|r|]
  {
    if n < |s| then s[..n] else s
  }

  /** The elements of `s` for which `keep` holds, in their order. */
  function Filter<T(!new)>(s: seq<T>, keep: T -> bool): (r: seq<T>)
    ensures |r| <= |s|
    ensures forall y :: y in r <==> y in s && keep(y)
  {
    if s == [] then []
    else
      assert s == [s[0]] + s[1..];
      (if keep(s[0]) then [s[0]] else []) + Filter(s[1..], keep)
  }

  /** Filtering a sequence extended by one element extends the filtered sequence by it when it is kept. */
  lemma {:induction false} FilterAppend<T(!new)>(s: seq<T>, x: T, keep: T -> bool)
    ensures Filter(s + [x], keep) == Filter(s, keep) + (if keep(x) then [x] else [])
  {
    if s == [] {
      assert [x][1..] == [];
    } else {
      assert (s + [x])[0] == s[0];
      assert (s + [x])[1..] == s[1..] + [x];
      FilterAppend(s[1..], x, keep);
    }
  }

  lemma {:induction false} FilterSorted<T(!new)>(s: seq<T>, keep: T -> bool, key: T -> int)
    requires SortedBy(s, key)
    ensures SortedBy(Filter(s, keep), key)
  {
    if s != [] {
      FilterSorted(s[1..], keep, key);
      var rest := Filter(s[1..], keep);
      forall y | y in rest ensures key(s[0]) <= key(y) {
        var k :| 0 <= k < |s[1..]| && s[1..][k] == y;
        assert s[k + 1] == y;
      }
    }
  }

  /** No two elements share a value of `f` (an id, say). */
  predicate DistinctBy<T, U(==)>(s: seq<T>, f: T -> U) {
    forall i, j :: 0 <= i < j < |s| ==> f(s[i]) != f(s[j])
  }

  lemma {:induction false} InsertByDistinct<T(!new), U>(x: T, s: seq<T>, key: T -> int, f: T -> U)
    requires DistinctBy(s, f)
    requires forall y :: y in s ==> f(y) != f(x)
    ensures DistinctBy(InsertBy(x, s, key), f)
  {
    if s != [] && key(s[0]) < key(x) {
      var rest := InsertBy(x, s[1..], key);
      assert DistinctBy(s[1..], f);
      InsertByDistinct(x, s[1..], key, f);
      var r := [s[0]] + rest;
      forall i, j | 0 <= i < j < |r| ensures f(r[i]) != f(r[j]) {
        if i > 0 {
          assert r[i] == rest[i - 1] && r[j] == rest[j - 1];
        } else {
          assert r[j] in rest;
          if r[j] != x {
            var k :| 0 <= k < |s[1..]| && s[1..][k] == r[j];
            assert s[k + 1] == r[j];
          }
        }
      }
    } else if s != [] {
      var r := [x] + s;
      forall i, j | 0 <= i < j < |r| ensures f(r[i]) != f(r[j]) {
        if i > 0 {
          assert r[i] == s[i - 1] && r[j] == s[j - 1];
        } else {
          assert r[j] in s;
        }
      }
    }
  }

  lemma {:induction false} SortByDistinct<T(!new), U>(s: seq<T>, key: T -> int, f: T -> U)
    requires DistinctBy(s, f)
    ensures DistinctBy(SortBy(s, key), f)
  {
    if s != [] {
      assert DistinctBy(s[1..], f);
      SortByDistinct(s[1..], key, f);
      forall y | y in SortBy(s[1..], key) ensures f(y) != f(s[0]) {
        var k :| 0 <= k < |s[1..]| && s[1..][k] == y;
        assert s[k + 1] == y;
      }
      InsertByDistinct(s[0], SortBy(s[1..], key), key, f);
    }
  }

  lemma {:induction false} FilterDistinct<T(!new), U>(s: seq<T>, keep: T -> bool, f: T -> U)
    requires DistinctBy(s, f)
    ensures DistinctBy(Filter(s, keep), f)
  {
    if s != [] {
      assert DistinctBy(s[1..], f);
      FilterDistinct(s[1..], keep, f);
      var rest := Filter(s[1..], keep);
      var r := (if keep(s[0]) then [s[0]] else []) + rest;
      forall i, j | 0 <= i < j < |r| ensures f(r[i]) != f(r[j]) {
        if keep(s[0]) && i == 0 {
          assert r[j] in rest;
          var k :| 0 <= k < |s[1..]| && s[1..][k] == r[j];
          assert s[k + 1] == r[j];
        }
      }
    }
  }

  /**
   * A loop over `s` that appends what `f` picks from each element:
   * Some(None) picks nothing, Some(Some(b)) picks `b`, and None stops the
   * loop with an error.
   */
  function Collect<A, B>(s: seq<A>, f: A -> Option<Option<B>>): Option<seq<B>> {
    if s == [] then Some([])
    else
      match Collect(s[..|s| - 1], f)
      case None => None
      case Some(bs) =>
        match f(s[|s| - 1])
        case None => None
        case Some(None) => Some(bs)
        case Some(Some(b)) => Some(bs + [b])
  }

  /** Once a prefix fails, the whole loop fails. */
  lemma {:induction false} CollectFails<A, B>(s: seq<A>, n: nat, f: A -> Option<Option<B>>)
    requires n <= |s| && Collect(s[..n], f).None?
    ensures Collect(s, f).None?
    decreases |s| - n
  {
    if n < |s| {
      assert s[..n + 1][..n] == s[..n];
      CollectFails(s, n + 1, f);
    } else {
      assert s[..n] == s;
    }
  }

  /** The values `g` gives on the elements of `s`, in order, skipping the elements where it gives None. */
  function Gather<A, B>(s: seq<A>, g: A -> Option<B>): (r: seq<B>)
    ensures |r| <= |s|
  {
    if s == [] then []
    else Gather(s[..|s| - 1], g) + if g(s[|s| - 1]).Some? then [g(s[|s| - 1]).value] else []
  }

  /** A value is gathered exactly when some element gives it. */
  lemma {:induction false} GatherMembers<A, B>(s: seq<A>, g: A -> Option<B>, b: B)
    ensures b in Gather(s, g) <==> exists a :: a in s && g(a) == Some(b)
  {
    if s != [] {
      var n := |s| - 1;
      GatherMembers(s[..n], g, b);
      assert s == s[..n] + [s[n]];
      if exists a :: a in s && g(a) == Some(b) {
        var a :| a in s && g(a) == Some(b);
        if a != s[n] {
          assert a in s[..n];
        }
      }
    }
  }

  /**
   * When `f` reads every element of `s` as `g` reads the element of `t` at
   * the same position, the loop over `s` succeeds and collects what `g`
   * gathers from `t`.
   */
  lemma {:induction false} CollectGather<A, B, C>(s: seq<A>, t: seq<C>, f: A -> Option<Option<B>>, g: C -> Option<B>)
    requires |s| == |t|
    requires forall i :: 0 <= i < |s| ==> f(s[i]) == Some(g(t[i]))
    ensures Collect(s, f) == Some(Gather(t, g))
  {
    if s != [] {
      var n := |s| - 1;
      CollectGather(s[..n], t[..n], f, g);
      assert f(s[n]) == Some(g(t[n]));
      assert Gather(t, g) == Gather(t[..n], g) + if g(t[n]).Some? then [g(t[n]).value] else [];
      assert Gather(t[..n], g) + [] == Gather(t[..n], g);
    }
  }
}
