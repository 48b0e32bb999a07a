/** Sequence helpers shared by the models: the JavaScript and Python list idioms
    (`filter(p).length`, `filter`, `map`, `reduce` with `+`, insertion-ordered `Set`,
    `indexOf`, stable `sort`) written once, with their defining properties proved. */
module Seqs {

  /** Number of elements satisfying `p` (`s.filter(p).length`). */
  function Count<T>(s: seq<T>, p: T -> bool): nat
  {
    if s == [] then 0 else (if p(s[0]) then 1 else 0) + Count(s[1..], p)
  }

  /** The elements satisfying `p`, in their original order (`s.filter(p)`). */
  function Filter<T>(s: seq<T>, p: T -> bool): (r: seq<T>)
    ensures |r| == Count(s, p)
    ensures forall x :: x in r ==> x in s && p(x)
  {
    if s == [] then [] else (if p(s[0]) then [s[0]] else []) + Filter(s[1..], p)
  }

  /** Concatenation is associative. */
  lemma ConcatAssoc<T>(x: seq<T>, y: seq<T>, z: seq<T>)
    ensures x + y + z == x + (y + z)
  {
  }

  /** `s.map(f)`. */
  function Map<T, U>(s: seq<T>, f: T -> U): (r: seq<U>)
    ensures |r| == |s|
    ensures forall i :: 0 <= i < |s| ==> r[i] == f(s[i])
  {
    if s == [] then [] else [f(s[0])] + Map(s[1..], f)
  }

  /** `s.reduce((a, x) => a + x, 0)`. */
  function Sum(s: seq<real>): real
  {
    if s == [] then 0.0 else s[0] + Sum(s[1..])
  }

  /** The largest element of a non-empty sequence (`Math.max(...s)`). */
  function MaxOf(s: seq<int>): (m: int)
    requires |s| > 0
    ensures m in s
    ensures forall x :: x in s ==> x <= m
  {
    if |s| == 1 then s[0]
    else
      var rest := MaxOf(s[1..]);
      assert forall x :: x in s ==> x == s[0] || x in s[1..];
      if s[0] >= rest then s[0] else rest
  }

  predicate NoDup<T(==)>(s: seq<T>)
  {
    forall i, j :: 0 <= i < j < |s| ==> s[i] != s[j]
  }

  /** `s` occurs in `t` with the same relative order (possibly with gaps). */
  predicate Subsequence<T(==)>(s: seq<T>, t: seq<T>)
    decreases |t|
  {
    if s == [] then true
    else if t == [] then false
    else (s[0] == t[0] && Subsequence(s[1..], t[1..])) || Subsequence(s, t[1..])
  }

  /** `s.indexOf(x)`: the first position holding `x`, or -1. */
  function IndexOf<T(==)>(s: seq<T>, x: T): (k: int)
    ensures -1 <= k < |s|
    ensures k >= 0 <==> x in s
    ensures k >= 0 ==> s[k] == x && forall j :: 0 <= j < k ==> s[j] != x
  {
    if s == [] then -1
    else if s[0] == x then 0
    else
      var k := IndexOf(s[1..], x);
      assert forall y :: y in s ==> y == s[0] || y in s[1..];
      if k < 0 then -1 else k + 1
  }

  /** The distinct elements in order of first occurrence, built as a loop that adds
      each element to an insertion-ordered set (`new Set(s)`, then `Array.from`). */
  function Dedup<T(==)>(s: seq<T>): seq<T>
    decreases |s|
  {
    if s == [] then []
    else
      var d := Dedup(s[..|s| - 1]);
      if s[|s| - 1] in d then d else d + [s[|s| - 1]]
  }

  /** The sequences one after another (`[].concat(...ss)`). */
  function Concat<T>(ss: seq<seq<T>>): seq<T>
  {
    if |ss| == 0 then [] else Concat(ss[..|ss| - 1]) + ss[|ss| - 1]
  }

  /** An element of one of the sequences is an element of their concatenation. */
  lemma {:induction false} ConcatMember<T>(ss: seq<seq<T>>, k: nat, x: T)
    requires k < |ss| && x in ss[k]
    ensures x in Concat(ss)
  {
    var n := |ss| - 1;
    if k < n {
      ConcatMember(ss[..n], k, x);
    }
  }

  // ---------------------------------------------------------------------------
  // Stable sort by a numeric key (`Array.prototype.sort((a, b) => key(a) - key(b))`,
  // which is stable since ES2019). An insertion sort that puts an element before
  // the first one whose key is not smaller keeps equal keys in their original order.

  function InsertByKey<T>(x: T, s: seq<T>, key: T -> real): seq<T>
  {
    if s == [] || key(x) <= key(s[0]) then [x] + s
    else [s[0]] + InsertByKey(x, s[1..], key)
  }

  function SortByKey<T>(s: seq<T>, key: T -> real): seq<T>
  {
    if s == [] then [] else InsertByKey(s[0], SortByKey(s[1..], key), key)
  }

  predicate SortedBy<T>(s: seq<T>, key: T -> real)
  {
    forall i, j :: 0 <= i < j < |s| ==> key(s[i]) <= key(s[j])
  }

  // ---------------------------------------------------------------------------
  // Lemmas

  lemma {:induction false} CountAppend<T>(a: seq<T>, b: seq<T>, p: T -> bool)
    ensures Count(a + b, p) == Count(a, p) + Count(b, p)
  {
    if a != [] {
      assert (a + b)[0] == a[0];
      assert (a + b)[1..] == a[1..] + b;
      CountAppend(a[1..], b, p);
    } else {
      assert a + b == b;
    }
  }

  lemma {:induction false} CountLast<T>(s: seq<T>, p: T -> bool)
    requires s != []
    ensures Count(s, p) == Count(s[..|s| - 1], p) + (if p(s[|s| - 1]) then 1 else 0)
  {
    var last := s[|s| - 1];
    assert s == s[..|s| - 1] + [last];
    CountAppend(s[..|s| - 1], [last], p);
    assert [last][1..] == [];
  }

  lemma {:induction false} CountBound<T>(s: seq<T>, p: T -> bool)
    ensures Count(s, p) <= |s|
  {
    if s != [] { CountBound(s[1..], p); }
  }

  /** Filtering by `p` and by its complement `q` splits `s` without loss. */
  lemma {:induction false} CountPartition<T>(s: seq<T>, p: T -> bool, q: T -> bool)
    requires forall x :: q(x) == !p(x)
    ensures Count(s, p) + Count(s, q) == |s|
  {
    if s != [] { CountPartition(s[1..], p, q); }
  }

  /** Counting by a predicate that agrees with `p` on the elements of `s` gives the same count. */
  lemma {:induction false} CountCongruent<T>(s: seq<T>, p: T -> bool, q: T -> bool)
    requires forall x :: x in s ==> p(x) == q(x)
    ensures Count(s, p) == Count(s, q)
  {
    if s != [] {
      assert forall x :: x in s[1..] ==> x in s;
      CountCongruent(s[1..], p, q);
    }
  }

  lemma {:induction false} CountNone<T>(s: seq<T>, p: T -> bool)
    requires forall x :: x in s ==> !p(x)
    ensures Count(s, p) == 0
  {
    if s != [] {
      assert forall x :: x in s[1..] ==> x in s;
      CountNone(s[1..], p);
    }
  }

  /** An element satisfying `p` makes the count positive. */
  lemma {:induction false} CountWitness<T>(s: seq<T>, p: T -> bool, x: T)
    requires x in s && p(x)
    ensures Count(s, p) > 0
  {
    if s[0] != x {
      assert x in s[1..];
      CountWitness(s[1..], p, x);
    }
  }

  /** A predicate that implies another counts no more elements. */
  lemma {:induction false} CountImplies<T>(s: seq<T>, p: T -> bool, q: T -> bool)
    requires forall x :: p(x) ==> q(x)
    ensures Count(s, p) <= Count(s, q)
  {
    if s != [] { CountImplies(s[1..], p, q); }
  }

  lemma MapAppend<T, U>(a: seq<T>, b: seq<T>, f: T -> U)
    ensures Map(a + b, f) == Map(a, f) + Map(b, f)
  {
    assert forall i :: 0 <= i < |a| + |b| ==> Map(a + b, f)[i] == (Map(a, f) + Map(b, f))[i];
  }

  /** Summing a mapped sequence with one more element adds that element's image. */
  lemma SumMapSnoc<T>(s: seq<T>, x: T, f: T -> real)
    ensures Sum(Map(s + [x], f)) == Sum(Map(s, f)) + f(x)
  {
    MapAppend(s, [x], f);
    assert Map([x], f) == [f(x)];
    SumAppend(Map(s, f), [f(x)]);
    assert Sum([f(x)]) == f(x) + Sum([]);
  }

  lemma {:induction false} FilterAppend<T>(a: seq<T>, b: seq<T>, p: T -> bool)
    ensures Filter(a + b, p) == Filter(a, p) + Filter(b, p)
  {
    if a != [] {
      assert (a + b)[0] == a[0];
      assert (a + b)[1..] == a[1..] + b;
      FilterAppend(a[1..], b, p);
    } else {
      assert a + b == b;
    }
  }

  lemma {:induction false} FilterLast<T>(s: seq<T>, p: T -> bool)
    requires s != []
    ensures Filter(s, p) == Filter(s[..|s| - 1], p) + (if p(s[|s| - 1]) then [s[|s| - 1]] else [])
  {
    var last := s[|s| - 1];
    assert s == s[..|s| - 1] + [last];
    FilterAppend(s[..|s| - 1], [last], p);
    assert [last][1..] == [];
  }

  /** A filter that keeps everything is the identity. */
  lemma {:induction false} FilterAll<T>(s: seq<T>, p: T -> bool)
    requires forall x :: x in s ==> p(x)
    ensures Filter(s, p) == s
  {
    if s != [] {
      assert forall x :: x in s[1..] ==> x in s;
      FilterAll(s[1..], p);
    }
  }

  /** A filter that keeps nothing is empty. */
  lemma {:induction false} FilterNone<T>(s: seq<T>, p: T -> bool)
    requires forall x :: x in s ==> !p(x)
    ensures Filter(s, p) == []
  {
    if s != [] {
      assert forall x :: x in s[1..] ==> x in s;
      FilterNone(s[1..], p);
    }
  }

  /** The filter keeps exactly the copies of each element that satisfy `p`. */
  lemma {:induction false} FilterMultiset<T>(s: seq<T>, p: T -> bool, x: T)
    ensures multiset(Filter(s, p))[x] == if p(x) then multiset(s)[x] else 0
  {
    if s != [] {
      FilterMultiset(s[1..], p, x);
      assert s == [s[0]] + s[1..];
      assert multiset(s) == multiset([s[0]]) + multiset(s[1..]);
      var head := if p(s[0]) then [s[0]] else [];
      assert multiset(Filter(s, p)) == multiset(head) + multiset(Filter(s[1..], p));
    }
  }

  /** ... and keeps them in their original order. */
  lemma {:induction false} FilterSubsequence<T>(s: seq<T>, p: T -> bool)
    ensures Subsequence(Filter(s, p), s)
  {
    if s != [] {
      FilterSubsequence(s[1..], p);
      if p(s[0]) {
        assert Filter(s, p) == [s[0]] + Filter(s[1..], p);
        assert Filter(s, p)[1..] == Filter(s[1..], p);
      } else {
        assert Filter(s, p) == Filter(s[1..], p);
        SubsequenceSkip(Filter(s[1..], p), s);
      }
    }
  }

  lemma {:induction false} SubsequenceSkip<T>(s: seq<T>, t: seq<T>)
    requires t != []
    requires Subsequence(s, t[1..])
    ensures Subsequence(s, t)
  {
  }

  lemma {:induction false} SumAppend(a: seq<real>, b: seq<real>)
    ensures Sum(a + b) == Sum(a) + Sum(b)
  {
    if a != [] {
      assert (a + b)[0] == a[0];
      assert (a + b)[1..] == a[1..] + b;
      SumAppend(a[1..], b);
    } else {
      assert a + b == b;
    }
  }

  lemma {:induction false} SumLast(s: seq<real>)
    requires s != []
    ensures Sum(s) == Sum(s[..|s| - 1]) + s[|s| - 1]
  {
    assert s == s[..|s| - 1] + [s[|s| - 1]];
    SumAppend(s[..|s| - 1], [s[|s| - 1]]);
  }

  /** A sum of `n` terms each between `lo` and `hi` lies between `n * lo` and `n * hi`. */
  lemma {:induction false} SumBounds(s: seq<real>, lo: real, hi: real)
    requires forall i :: 0 <= i < |s| ==> lo <= s[i] <= hi
    ensures |s| as real * lo <= Sum(s) <= |s| as real * hi
  {
    if s != [] {
      SumBounds(s[1..], lo, hi);
    }
  }

  // --- Dedup ---------------------------------------------------------------------

  lemma {:induction false} DedupMembers<T>(s: seq<T>)
    ensures forall x :: x in Dedup(s) <==> x in s
    decreases |s|
  {
    if s != [] {
      var init := s[..|s| - 1];
      DedupMembers(init);
      assert s == init + [s[|s| - 1]];
      assert forall x :: x in s <==> x in init || x == s[|s| - 1];
    }
  }

  lemma DedupMember<T>(s: seq<T>, y: T)
    requires y in Dedup(s)
    ensures y in s
  {
    DedupMembers(s);
  }

  lemma {:induction false} DedupNoDup<T>(s: seq<T>)
    ensures NoDup(Dedup(s))
    decreases |s|
  {
    if s != [] {
      DedupNoDup(s[..|s| - 1]);
    }
  }

  /** Each distinct value appears in `Dedup(s)` before every value whose first
      occurrence in `s` comes later: the output is in first-occurrence order. */
  lemma {:induction false} DedupOrder<T>(s: seq<T>)
    ensures forall i, j :: 0 <= i < j < |Dedup(s)| ==> IndexOf(s, Dedup(s)[i]) < IndexOf(s, Dedup(s)[j])
    decreases |s|
  {
    if s != [] {
      var init := s[..|s| - 1];
      var last := s[|s| - 1];
      var d := Dedup(init);
      DedupOrder(init);
      DedupMembers(init);
      forall y | y in init
        ensures IndexOf(s, y) == IndexOf(init, y)
      {
        IndexOfPrefix(init, s, y);
      }
      if last !in d {
        assert last !in init;
        forall j | 0 <= j < |s| - 1
          ensures s[j] != last
        {
          assert s[j] == init[j];
        }
        assert IndexOf(s, last) == |s| - 1;
        forall i | 0 <= i < |d|
          ensures IndexOf(s, d[i]) < IndexOf(s, last)
        {
          DedupMember(init, d[i]);
        }
      }
    }
  }

  /** The first position of an element present in a prefix does not depend on the rest. */
  lemma IndexOfPrefix<T>(p: seq<T>, s: seq<T>, y: T)
    requires p <= s
    requires y in p
    ensures IndexOf(s, y) == IndexOf(p, y)
  {
    var k := IndexOf(p, y);
    assert s[k] == p[k];
    forall j | 0 <= j < k
      ensures s[j] != y
    {
      assert s[j] == p[j];
    }
    var m := IndexOf(s, y);
    assert m <= k;
    assert p[m] == s[m];
  }

  /** Appending a run of copies of one value `x` adds `x` once, if it is new. */
  lemma {:induction false} DedupAppendRun<T>(a: seq<T>, run: seq<T>, x: T)
    requires run != []
    requires forall i :: 0 <= i < |run| ==> run[i] == x
    ensures Dedup(a + run) == if x in Dedup(a) then Dedup(a) else Dedup(a) + [x]
    decreases |run|
  {
    var s := a + run;
    assert s[..|s| - 1] == a + run[..|run| - 1];
    if |run| > 1 {
      DedupAppendRun(a, run[..|run| - 1], x);
      DedupMembers(a + run[..|run| - 1]);
      assert x in a + run[..|run| - 1];
    }
  }

  /** Appending values that already occur changes nothing. */
  lemma {:induction false} DedupAppendKnown<T>(a: seq<T>, b: seq<T>)
    requires forall x :: x in b ==> x in a
    ensures Dedup(a + b) == Dedup(a)
    decreases |b|
  {
    if b != [] {
      var s := a + b;
      assert s[..|s| - 1] == a + b[..|b| - 1];
      DedupAppendKnown(a, b[..|b| - 1]);
      DedupMembers(a + b[..|b| - 1]);
      assert b[|b| - 1] in b;
    } else {
      assert a + b == a;
    }
  }

  lemma {:induction false} DedupLength<T>(s: seq<T>)
    ensures |Dedup(s)| <= |s|
    decreases |s|
  {
    if s != [] { DedupLength(s[..|s| - 1]); }
  }

  /** A duplicate-free sequence drawn from a set has at most as many elements as the set. */
  lemma {:induction false} NoDupBound<T>(s: seq<T>, universe: set<T>)
    requires NoDup(s)
    requires forall x :: x in s ==> x in universe
    ensures |s| <= |universe|
    decreases |s|
  {
    if s != [] {
      var last := s[|s| - 1];
      var init := s[..|s| - 1];
      assert forall x :: x in init ==> x in s && x != last;
      NoDupBound(init, universe - {last});
    }
  }

  /** In a duplicate-free sequence every value occurs at most once. */
  lemma {:induction false} NoDupOnce<T>(s: seq<T>, x: T)
    requires NoDup(s)
    ensures multiset(s)[x] <= 1
    decreases |s|
  {
    if s != [] {
      var n := |s| - 1;
      assert s == s[..n] + [s[n]];
      assert NoDup(s[..n]);
      NoDupOnce(s[..n], x);
      if s[n] == x {
        assert x !in s[..n];
      }
    }
  }

  /** Two positions holding a value that occurs at most once are different values. */
  lemma OnceDistinct<T>(t: seq<T>, i: nat, j: nat)
    requires i < j < |t| && multiset(t)[t[i]] <= 1
    ensures t[i] != t[j]
  {
    assert t == t[..j] + t[j..];
    assert t[i] in t[..j] && t[j] in t[j..];
    assert multiset(t) == multiset(t[..j]) + multiset(t[j..]);
  }

  /** A rearrangement of a duplicate-free sequence is duplicate-free. */
  lemma NoDupPermutation<T>(s: seq<T>, t: seq<T>)
    requires NoDup(s) && multiset(s) == multiset(t)
    ensures NoDup(t)
  {
    forall i, j | 0 <= i < j < |t|
      ensures t[i] != t[j]
    {
      NoDupOnce(s, t[i]);
      OnceDistinct(t, i, j);
    }
  }

  // --- Sorting -------------------------------------------------------------------

  lemma {:induction false} InsertMultiset<T>(x: T, s: seq<T>, key: T -> real)
    ensures multiset(InsertByKey(x, s, key)) == multiset(s) + multiset{x}
  {
    if s != [] && key(x) > key(s[0]) {
      InsertMultiset(x, s[1..], key);
      assert s == [s[0]] + s[1..];
    }
  }

  lemma {:induction false} InsertSorted<T>(x: T, s: seq<T>, key: T -> real)
    requires SortedBy(s, key)
    ensures SortedBy(InsertByKey(x, s, key), key)
  {
    if s != [] && key(x) > key(s[0]) {
      InsertSorted(x, s[1..], key);
      InsertMultiset(x, s[1..], key);
      var r := InsertByKey(x, s[1..], key);
      forall i | 0 <= i < |r|
        ensures key(s[0]) <= key(r[i])
      {
        assert r[i] in multiset(r);
        assert r[i] in multiset(s[1..]) || r[i] == x;
        if r[i] != x {
          var j :| 0 <= j < |s[1..]| && s[1..][j] == r[i];
          assert s[j + 1] == r[i];
        }
      }
    }
  }

  lemma {:induction false} SortMultiset<T>(s: seq<T>, key: T -> real)
    ensures multiset(SortByKey(s, key)) == multiset(s)
  {
    if s != [] {
      SortMultiset(s[1..], key);
      InsertMultiset(s[0], SortByKey(s[1..], key), key);
      assert s == [s[0]] + s[1..];
    }
  }

  lemma {:induction false} SortSorted<T>(s: seq<T>, key: T -> real)
    ensures SortedBy(SortByKey(s, key), key)
  {
    if s != [] {
      SortSorted(s[1..], key);
      InsertSorted(s[0], SortByKey(s[1..], key), key);
    }
  }

  lemma SortLength<T>(s: seq<T>, key: T -> real)
    ensures |SortByKey(s, key)| == |s|
  {
    SortMultiset(s, key);
    assert |multiset(SortByKey(s, key))| == |multiset(s)|;
  }

  /** Sorting an already sorted sequence leaves it as it is. */
  lemma {:induction false} SortOfSorted<T>(s: seq<T>, key: T -> real)
    requires SortedBy(s, key)
    ensures SortByKey(s, key) == s
  {
    if s != [] {
      SortOfSorted(s[1..], key);
    }
  }

  /** The sorted sequence holds the same elements. */
  lemma SortMembers<T>(s: seq<T>, key: T -> real)
    ensures forall x :: x in SortByKey(s, key) <==> x in s
  {
    SortMultiset(s, key);
    forall x
      ensures x in SortByKey(s, key) <==> x in s
    {
      assert x in SortByKey(s, key) <==> x in multiset(SortByKey(s, key));
      assert x in s <==> x in multiset(s);
    }
  }

  /** In a sorted non-empty sequence the first element has the least key and the last the greatest. */
  lemma SortedEnds<T>(s: seq<T>, key: T -> real)
    requires SortedBy(s, key) && s != []
    ensures forall x :: x in s ==> key(s[0]) <= key(x) <= key(s[|s| - 1])
  {
    forall x | x in s
      ensures key(s[0]) <= key(x) <= key(s[|s| - 1])
    {
      var i :| 0 <= i < |s| && s[i] == x;
    }
  }

  /** Sorting by a key that no two elements share orders the keys strictly. */
  lemma SortDistinctKeys<T>(s: seq<T>, key: T -> real)
    requires forall i, j :: 0 <= i < j < |s| ==> key(s[i]) != key(s[j])
    ensures var t := SortByKey(s, key);
      forall i, j :: 0 <= i < j < |t| ==> key(t[i]) < key(t[j])
  {
    var t := SortByKey(s, key);
    SortMultiset(s, key);
    SortSorted(s, key);
    NoDupPermutation(s, t);
    forall i, j | 0 <= i < j < |t|
      ensures key(t[i]) < key(t[j])
    {
      assert t[i] in multiset(s) && t[j] in multiset(s);
      var a, b := IndexOf(s, t[i]), IndexOf(s, t[j]);
      assert a != b;
      if a < b {
        assert key(s[a]) != key(s[b]);
      } else {
        assert key(s[b]) != key(s[a]);
      }
    }
  }

  /** Where an element of `s` ends up after sorting. */
  lemma SortedPosition<T>(s: seq<T>, key: T -> real, i: nat) returns (j: nat)
    requires i < |s|
    ensures j < |SortByKey(s, key)| && SortByKey(s, key)[j] == s[i]
  {
    SortMembers(s, key);
    assert s[i] in SortByKey(s, key);
    j := IndexOf(SortByKey(s, key), s[i]);
  }
}
