/** The list operations the source uses on arrays: filter, a stable sort by a key,
    Set-based de-duplication, and slicing. */
module Seqs {
  import opened Types

  /** Array.prototype.filter. */
  function Filter<T(!new)>(xs: seq<T>, p: T -> bool): (r: seq<T>)
    ensures |r| <= |xs|
    ensures forall x :: x in r <==> x in xs && p(x)
  {
    if xs == [] then []
    else (if p(xs[0]) then [xs[0]] else []) + Filter(xs[1..], p)
  }

  lemma {:induction false} FilterConcat<T(!new)>(xs: seq<T>, ys: seq<T>, p: T -> bool)
    ensures Filter(xs + ys, p) == Filter(xs, p) + Filter(ys, p)
  {
    if xs == [] {
      assert xs + ys == ys;
    } else {
      assert (xs + ys)[1..] == xs[1..] + ys;
      FilterConcat(xs[1..], ys, p);
    }
  }

  /** Filtering a list whose every element passes gives back the list. */
  lemma {:induction false} FilterAll<T(!new)>(xs: seq<T>, p: T -> bool)
    requires forall x :: x in xs ==> p(x)
    ensures Filter(xs, p) == xs
  {
    if xs != [] {
      FilterAll(xs[1..], p);
    }
  }

  /** Three pairwise exclusive, jointly exhaustive filters share out every element once. */
  lemma {:induction false} FilterPartition3<T(!new)>(xs: seq<T>, p: T -> bool, q: T -> bool, r: T -> bool)
    requires forall x :: x in xs ==> (p(x) || q(x) || r(x))
    requires forall x :: x in xs ==> !(p(x) && q(x)) && !(p(x) && r(x)) && !(q(x) && r(x))
    ensures |Filter(xs, p)| + |Filter(xs, q)| + |Filter(xs, r)| == |xs|
  {
    if xs != [] {
      var x, rest := xs[0], xs[1..];
      assert xs == [x] + rest;
      assert x in xs;
      FilterPartition3(rest, p, q, r);
      var fp, fq, fr := Filter(rest, p), Filter(rest, q), Filter(rest, r);
      if p(x) {
        assert Filter(xs, p) == [x] + fp && Filter(xs, q) == fq && Filter(xs, r) == fr;
      } else if q(x) {
        assert Filter(xs, p) == fp && Filter(xs, q) == [x] + fq && Filter(xs, r) == fr;
      } else {
        assert Filter(xs, p) == fp && Filter(xs, q) == fq && Filter(xs, r) == [x] + fr;
      }
    }
  }

  /** Lexicographic order on (primary, secondary) sort keys. */
  predicate KeyLe(a: (int, int), b: (int, int))
  {
    a.0 < b.0 || (a.0 == b.0 && a.1 <= b.1)
  }

  predicate SortedBy<T>(xs: seq<T>, key: T -> (int, int))
  {
    forall i, j :: 0 <= i < j < |xs| ==> KeyLe(key(xs[i]), key(xs[j]))
  }

  /** Inserts x after every element whose key is not greater than x's (keeps the sort stable). */
  function Insert<T>(x: T, xs: seq<T>, key: T -> (int, int)): (r: seq<T>)
    ensures multiset(r) == multiset(xs) + multiset{x}
    ensures |r| == |xs| + 1
  {
    if xs == [] then [x]
    else if !KeyLe(key(xs[0]), key(x)) then [x] + xs
    else
      assert xs == [xs[0]] + xs[1..];
      [xs[0]] + Insert(x, xs[1..], key)
  }

  lemma {:induction false} InsertSorted<T>(x: T, xs: seq<T>, key: T -> (int, int))
    requires SortedBy(xs, key)
    ensures SortedBy(Insert(x, xs, key), key)
  {
    if xs != [] && KeyLe(key(xs[0]), key(x)) {
      var rest := Insert(x, xs[1..], key);
      InsertSorted(x, xs[1..], key);
      forall i | 0 <= i < |rest| ensures KeyLe(key(xs[0]), key(rest[i])) {
        assert rest[i] in multiset(rest);
        if rest[i] != x {
          assert rest[i] in multiset(xs[1..]);
          var j :| 0 <= j < |xs[1..]| && xs[1..][j] == rest[i];
          assert xs[j + 1] == rest[i];
        }
      }
    }
  }

  /** In a sorted sequence the primary keys never decrease. */
  lemma SortedPrimary<T>(xs: seq<T>, key: T -> (int, int))
    requires SortedBy(xs, key)
    ensures forall i, j :: 0 <= i < j < |xs| ==> key(xs[i]).0 <= key(xs[j]).0
  {
    forall i, j | 0 <= i < j < |xs| ensures key(xs[i]).0 <= key(xs[j]).0 {
      assert KeyLe(key(xs[i]), key(xs[j]));
    }
  }

  /** Array.prototype.sort with a comparator on key(a) and key(b): a stable sort. */
  function SortBy<T>(xs: seq<T>, key: T -> (int, int)): (r: seq<T>)
    ensures SortedBy(r, key)
    ensures multiset(r) == multiset(xs)
    ensures |r| == |xs|
  {
    if xs == [] then []
    else
      var n := |xs| - 1;
      assert xs == xs[..n] + [xs[n]];
      var sorted := SortBy(xs[..n], key);
      InsertSorted(xs[n], sorted, key);
      Insert(xs[n], sorted, key)
  }

  /** Sorting keeps exactly the elements it was given. */
  lemma SortByMembers<T>(xs: seq<T>, key: T -> (int, int))
    ensures forall x :: x in SortBy(xs, key) <==> x in xs
  {
    var r := SortBy(xs, key);
    assert forall x :: (x in r <==> x in multiset(r)) && (x in xs <==> x in multiset(xs));
  }

  predicate NoDuplicates<T(==)>(xs: seq<T>)
  {
    forall i, j :: 0 <= i < j < |xs| ==> xs[i] != xs[j]
  }

  /** Array.from(new Set(xs)): each distinct element once. */
  function Distinct<T(==,!new)>(xs: seq<T>): (r: seq<T>)
    ensures NoDuplicates(r)
    ensures forall x :: x in r <==> x in xs
    ensures |r| <= |xs|
  {
    if xs == [] then []
    else
      var n := |xs| - 1;
      var d := Distinct(xs[..n]);
      assert xs == xs[..n] + [xs[n]];
      if xs[n] in d then d else d + [xs[n]]
  }

  /** Array.prototype.find: the first element satisfying p, if any. */
  function Find<T>(xs: seq<T>, p: T -> bool): (r: Option<T>)
    ensures r.None? <==> forall i :: 0 <= i < |xs| ==> !p(xs[i])
    ensures r.Some? ==> exists i :: 0 <= i < |xs| && xs[i] == r.value && p(xs[i]) && forall j :: 0 <= j < i ==> !p(xs[j])
  {
    if xs == [] then None
    else if p(xs[0]) then Some(xs[0])
    else
      var r := Find(xs[1..], p);
      assert forall i :: 1 <= i < |xs| ==> xs[i] == xs[1..][i - 1];
      r
  }

  /** Array.prototype.slice(0, n). */
  function Take<T>(xs: seq<T>, n: nat): (r: seq<T>)
    ensures |r| <= n && |r| <= |xs|
    ensures |xs| <= n ==> r == xs
    ensures |xs| > n ==> |r| == n
    ensures r == xs[..|r|]
  {
    if |xs| <= n then xs else xs[..n]
  }
}
