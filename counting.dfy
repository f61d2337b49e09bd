/** The column operations the summary statistics rely on: `unique()` keeps
    first occurrences in order, `value_counts()` pairs each distinct value
    with its number of occurrences and orders the pairs by count, largest
    first, and `head(n)` keeps a prefix. */
module Counting {

  /** Occurrences of `x` in `xs`. */
  function Count<T(==,!new)>(xs: seq<T>, x: T): (c: nat)
    ensures c <= |xs|
    ensures c > 0 <==> x in xs
    decreases |xs|
  {
    if xs == [] then 0
    else Count(xs[..|xs| - 1], x) + (if xs[|xs| - 1] == x then 1 else 0)
  }

  predicate NoDuplicates<T(==,!new)>(xs: seq<T>) {
    forall i, j | 0 <= i < j < |xs| :: xs[i] != xs[j]
  }

  /** `Series.unique()`: each value once, in order of first occurrence. */
  function Distinct<T(==,!new)>(xs: seq<T>): (r: seq<T>)
    ensures forall x :: x in r <==> x in xs
    ensures NoDuplicates(r)
    ensures |r| <= |xs|
    decreases |xs|
  {
    if xs == [] then []
    else
      var d := Distinct(xs[..|xs| - 1]);
      var x := xs[|xs| - 1];
      assert forall y :: y in xs <==> y in xs[..|xs| - 1] || y == x;
      if x in d then d else d + [x]
  }

  /** Distinct values with their counts, in order of first occurrence. */
  function Tally<T(==,!new)>(xs: seq<T>, keys: seq<T>): (r: seq<(T, nat)>)
    ensures |r| == |keys|
    ensures forall i | 0 <= i < |r| :: r[i] == (keys[i], Count(xs, keys[i]))
  {
    seq(|keys|, i requires 0 <= i < |keys| => (keys[i], Count(xs, keys[i])))
  }

  function SumCounts<T(!new)>(ps: seq<(T, nat)>): nat
    decreases |ps|
  {
    if ps == [] then 0 else SumCounts(ps[..|ps| - 1]) + ps[|ps| - 1].1
  }

  predicate SortedByCount<T(!new)>(ps: seq<(T, nat)>) {
    forall i, j | 0 <= i < j < |ps| :: ps[i].1 >= ps[j].1
  }

  /** Places `p` before the first pair with a smaller count, so that pairs
      with equal counts keep their order. */
  function Insert<T(!new)>(p: (T, nat), s: seq<(T, nat)>): (r: seq<(T, nat)>)
    ensures |r| == |s| + 1
    ensures forall q :: q in r <==> q == p || q in s
    decreases |s|
  {
    if s == [] || p.1 >= s[0].1 then [p] + s
    else
      var rest := Insert(p, s[1..]);
      assert forall q :: q in s <==> q == s[0] || q in s[1..];
      [s[0]] + rest
  }

  function SortByCount<T(!new)>(ps: seq<(T, nat)>): (r: seq<(T, nat)>)
    ensures |r| == |ps|
    ensures forall q :: q in r <==> q in ps
    decreases |ps|
  {
    if ps == [] then []
    else
      assert forall q :: q in ps <==> q == ps[0] || q in ps[1..];
      Insert(ps[0], SortByCount(ps[1..]))
  }

  /** `Series.value_counts()`. */
  function ValueCounts<T(==,!new)>(xs: seq<T>): seq<(T, nat)> {
    SortByCount(Tally(xs, Distinct(xs)))
  }

  /** `head(n)`. */
  function Head<T(!new)>(xs: seq<T>, n: nat): (r: seq<T>)
    ensures |r| <= n && |r| <= |xs|
    ensures forall i | 0 <= i < |r| :: r[i] == xs[i]
  {
    if |xs| <= n then xs else xs[..n]
  }

  // ---------------------------------------------------------------------
  // Properties
  // ---------------------------------------------------------------------

  lemma {:induction false} InsertSorted<T(!new)>(p: (T, nat), s: seq<(T, nat)>)
    requires SortedByCount(s)
    ensures SortedByCount(Insert(p, s))
    decreases |s|
  {
    if s != [] && p.1 < s[0].1 {
      InsertSorted(p, s[1..]);
      var r := Insert(p, s);
      var rest := Insert(p, s[1..]);
      assert r == [s[0]] + rest;
      forall q | q in rest ensures s[0].1 >= q.1 {
        if q != p { var k :| 0 <= k < |s[1..]| && s[1..][k] == q; assert s[k + 1] == q; }
      }
      forall i, j | 0 <= i < j < |r| ensures r[i].1 >= r[j].1 {
        if i > 0 { assert r[i] == rest[i - 1] && r[j] == rest[j - 1]; }
        else { assert r[j] in rest; }
      }
    }
  }

  lemma {:induction false} SortByCountSorted<T(!new)>(ps: seq<(T, nat)>)
    ensures SortedByCount(SortByCount(ps))
    decreases |ps|
  {
    if ps != [] {
      SortByCountSorted(ps[1..]);
      InsertSorted(ps[0], SortByCount(ps[1..]));
    }
  }

  lemma {:induction false} SumCountsCons<T(!new)>(p: (T, nat), s: seq<(T, nat)>)
    ensures SumCounts([p] + s) == p.1 + SumCounts(s)
    decreases |s|
  {
    if s != [] {
      var t := [p] + s;
      assert t[..|t| - 1] == [p] + s[..|s| - 1];
      SumCountsCons(p, s[..|s| - 1]);
    }
  }

  lemma {:induction false} InsertSum<T(!new)>(p: (T, nat), s: seq<(T, nat)>)
    ensures SumCounts(Insert(p, s)) == p.1 + SumCounts(s)
    decreases |s|
  {
    if s == [] || p.1 >= s[0].1 {
      SumCountsCons(p, s);
    } else {
      InsertSum(p, s[1..]);
      SumCountsCons(s[0], Insert(p, s[1..]));
      SumCountsCons(s[0], s[1..]);
      assert [s[0]] + s[1..] == s;
    }
  }

  lemma {:induction false} SortByCountSum<T(!new)>(ps: seq<(T, nat)>)
    ensures SumCounts(SortByCount(ps)) == SumCounts(ps)
    decreases |ps|
  {
    if ps != [] {
      SortByCountSum(ps[1..]);
      InsertSum(ps[0], SortByCount(ps[1..]));
      SumCountsCons(ps[0], ps[1..]);
      assert [ps[0]] + ps[1..] == ps;
    }
  }

  /** Sum over the keys of how many of them equal `x`. */
  function Hits<T(==,!new)>(keys: seq<T>, x: T): nat
    decreases |keys|
  {
    if keys == [] then 0 else Hits(keys[..|keys| - 1], x) + (if keys[|keys| - 1] == x then 1 else 0)
  }

  lemma {:induction false} HitsOfDistinct<T(!new)>(keys: seq<T>, x: T)
    requires NoDuplicates(keys)
    ensures Hits(keys, x) == if x in keys then 1 else 0
    decreases |keys|
  {
    if keys != [] {
      var front := keys[..|keys| - 1];
      assert NoDuplicates(front);
      HitsOfDistinct(front, x);
      assert forall y :: y in keys <==> y in front || y == keys[|keys| - 1];
    }
  }

  /** Tallying `ys + [x]` over `keys` adds the number of keys equal to `x`. */
  lemma {:induction false} TallySnoc<T(!new)>(ys: seq<T>, x: T, keys: seq<T>)
    ensures SumCounts(Tally(ys + [x], keys)) == SumCounts(Tally(ys, keys)) + Hits(keys, x)
    decreases |keys|
  {
    var xs := ys + [x];
    assert xs[..|xs| - 1] == ys;
    if keys != [] {
      var front := keys[..|keys| - 1];
      TallySnoc(ys, x, front);
      assert Tally(xs, keys)[..|keys| - 1] == Tally(xs, front);
      assert Tally(ys, keys)[..|keys| - 1] == Tally(ys, front);
    }
  }

  lemma {:induction false} TallyAppendKey<T(!new)>(xs: seq<T>, keys: seq<T>, k: T)
    ensures SumCounts(Tally(xs, keys + [k])) == SumCounts(Tally(xs, keys)) + Count(xs, k)
  {
    var ks := keys + [k];
    assert ks[..|ks| - 1] == keys;
    assert Tally(xs, ks)[..|keys|] == Tally(xs, keys);
  }

  /** The counts of the distinct values add up to the number of values. */
  lemma {:induction false} TallyDistinctSum<T(!new)>(xs: seq<T>)
    ensures SumCounts(Tally(xs, Distinct(xs))) == |xs|
    decreases |xs|
  {
    if xs != [] {
      var ys := xs[..|xs| - 1];
      var x := xs[|xs| - 1];
      assert xs == ys + [x];
      var d := Distinct(ys);
      TallyDistinctSum(ys);
      TallySnoc(ys, x, d);
      HitsOfDistinct(d, x);
      if x in d {
        assert Distinct(xs) == d;
      } else {
        assert Distinct(xs) == d + [x];
        TallyAppendKey(xs, d, x);
        TallySnoc(ys, x, d);
        assert Count(xs, x) == Count(ys, x) + 1;
      }
    }
  }

  /** `value_counts()`: one pair per distinct value, carrying its count, in
      descending order of count, and the counts add up to the number of
      values. */
  lemma ValueCountsFacts<T(!new)>(xs: seq<T>)
    ensures |ValueCounts(xs)| == |Distinct(xs)|
    ensures SortedByCount(ValueCounts(xs))
    ensures forall p | p in ValueCounts(xs) :: p.0 in xs && p.1 == Count(xs, p.0)
    ensures forall x | x in xs :: (x, Count(xs, x)) in ValueCounts(xs)
    ensures SumCounts(ValueCounts(xs)) == |xs|
  {
    var t := Tally(xs, Distinct(xs));
    SortByCountSorted(t);
    SortByCountSum(t);
    TallyDistinctSum(xs);
    forall p | p in ValueCounts(xs) ensures p.0 in xs && p.1 == Count(xs, p.0) {
      var i :| 0 <= i < |t| && t[i] == p;
    }
    forall x | x in xs ensures (x, Count(xs, x)) in ValueCounts(xs) {
      var d := Distinct(xs);
      var i :| 0 <= i < |d| && d[i] == x;
      assert t[i] == (x, Count(xs, x));
    }
  }
}
