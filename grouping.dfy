/** Counting by key: the dashboard's `reduce` into a `Record<string, number>`
    (`if (!acc[key]) acc[key] = 0; acc[key] += 1`), read back with `Object.entries`.
    A JavaScript object with non-numeric keys enumerates them in insertion order, so
    the accumulator is a map together with the order its keys were created in. */
module Grouping {
  import opened Seqs

  /** One `[name, value]` pair of `Object.entries(...)`. */
  datatype Bucket<K> = Bucket(name: K, value: nat)

  /** The sum of the counts of `order`'s keys. */
  function Total<K>(order: seq<K>, counts: map<K, nat>): nat
    requires forall k :: k in order ==> k in counts
  {
    if |order| == 0 then 0 else Total(order[..|order| - 1], counts) + counts[order[|order| - 1]]
  }

  function SumValues<K>(buckets: seq<Bucket<K>>): nat
  {
    if |buckets| == 0 then 0 else SumValues(buckets[..|buckets| - 1]) + buckets[|buckets| - 1].value
  }

  /** How many times `k` occurs in `s`. */
  ghost function Occurrences<K>(s: seq<K>, k: K): nat
  {
    if |s| == 0 then 0 else Occurrences(s[..|s| - 1], k) + (if s[|s| - 1] == k then 1 else 0)
  }

  lemma {:induction false} OccurrencesMultiset<K>(s: seq<K>, k: K)
    ensures Occurrences(s, k) == multiset(s)[k]
  {
    if |s| > 0 {
      var n := |s| - 1;
      OccurrencesMultiset(s[..n], k);
      assert s == s[..n] + [s[n]];
      assert multiset(s) == multiset(s[..n]) + multiset{s[n]};
    }
  }

  /** Changing the count of a key outside `order` leaves the total alone. */
  lemma {:induction false} TotalFresh<K>(order: seq<K>, counts: map<K, nat>, k: K, v: nat)
    requires forall j :: j in order ==> j in counts
    requires k !in order
    ensures Total(order, counts[k := v]) == Total(order, counts)
  {
    if |order| > 0 {
      TotalFresh(order[..|order| - 1], counts, k, v);
    }
  }

  /** Changing the count of a key that occurs once in `order` changes the total by the
      same amount. */
  lemma {:induction false} TotalBump<K>(order: seq<K>, counts: map<K, nat>, k: K, v: nat)
    requires forall j :: j in order ==> j in counts
    requires NoDup(order) && k in order
    ensures Total(order, counts[k := v]) == Total(order, counts) - counts[k] + v
  {
    var n := |order| - 1;
    var init := order[..n];
    assert NoDup(init);
    if order[n] == k {
      assert k !in init;
      TotalFresh(init, counts, k, v);
    } else {
      assert k in init by {
        var i :| 0 <= i < |order| && order[i] == k;
        assert i < n && init[i] == k;
      }
      TotalBump(init, counts, k, v);
    }
  }

  /** The buckets read out of `order` and `counts` carry the same total. */
  lemma {:induction false} SumValuesOf<K>(order: seq<K>, counts: map<K, nat>, buckets: seq<Bucket<K>>)
    requires forall j :: j in order ==> j in counts
    requires |buckets| == |order|
    requires forall j :: 0 <= j < |order| ==> buckets[j] == Bucket(order[j], counts[order[j]])
    ensures SumValues(buckets) == Total(order, counts)
  {
    if |order| > 0 {
      var n := |order| - 1;
      SumValuesOf(order[..n], counts, buckets[..n]);
    }
  }

  /** One step of the `reduce`: create the key at 0 if it is missing, then add 1. */
  method Bump<K(==)>(order: seq<K>, counts: map<K, nat>, k: K) returns (order': seq<K>, counts': map<K, nat>)
    requires NoDup(order)
    requires forall j :: j in counts <==> j in order
    ensures order' == if k in order then order else order + [k]
    ensures counts' == counts[k := (if k in counts then counts[k] else 0) + 1]
    ensures NoDup(order') && forall j :: j in counts' <==> j in order'
    ensures Total(order', counts') == Total(order, counts) + 1
  {
    order', counts' := order, counts;
    if k !in counts' {
      TotalFresh(order', counts', k, 0);
      counts' := counts'[k := 0];
      order' := order' + [k];
    }
    TotalBump(order', counts', k, counts'[k] + 1);
    counts' := counts'[k := counts'[k] + 1];
  }

  /** The accumulator after the first `i` keys. */
  ghost predicate TalliedUpTo<K(!new)>(keys: seq<K>, i: nat, order: seq<K>, counts: map<K, nat>)
    requires i <= |keys|
  {
    && order == Dedup(keys[..i]) && NoDup(order)
    && (forall k :: k in counts <==> k in order)
    && (forall k :: k in counts ==> counts[k] == Occurrences(keys[..i], k))
  }

  /** Counting key `i` takes the accumulator for the first `i` keys to the one for the
      first `i + 1`. */
  lemma TallyStep<K(!new)>(keys: seq<K>, i: nat, order: seq<K>, counts: map<K, nat>, order': seq<K>, counts': map<K, nat>)
    requires i < |keys| && TalliedUpTo(keys, i, order, counts)
    requires order' == if keys[i] in order then order else order + [keys[i]]
    requires counts' == counts[keys[i] := (if keys[i] in counts then counts[keys[i]] else 0) + 1]
    requires NoDup(order') && (forall j :: j in counts' <==> j in order')
    ensures TalliedUpTo(keys, i + 1, order', counts')
  {
    DedupStep(keys, i);
    CountsStep(keys, i, order, counts, counts');
  }

  lemma DedupStep<K>(keys: seq<K>, i: nat)
    requires i < |keys|
    ensures Dedup(keys[..i + 1])
      == if keys[i] in Dedup(keys[..i]) then Dedup(keys[..i]) else Dedup(keys[..i]) + [keys[i]]
  {
    var s := keys[..i + 1];
    assert s[..|s| - 1] == keys[..i] && s[|s| - 1] == keys[i];
  }

  lemma CountsStep<K>(keys: seq<K>, i: nat, order: seq<K>, counts: map<K, nat>, counts': map<K, nat>)
    requires i < |keys| && order == Dedup(keys[..i])
    requires forall k :: k in counts <==> k in order
    requires forall k :: k in counts ==> counts[k] == Occurrences(keys[..i], k)
    requires counts' == counts[keys[i] := (if keys[i] in counts then counts[keys[i]] else 0) + 1]
    ensures forall k :: k in counts' ==> counts'[k] == Occurrences(keys[..i + 1], k)
  {
    var s := keys[..i + 1];
    assert s[..|s| - 1] == keys[..i] && s[|s| - 1] == keys[i];
    forall k | k in counts'
      ensures counts'[k] == Occurrences(s, k)
    {
      if k !in counts {
        OccurrencesUnseen(keys[..i], k);
      }
    }
  }

  /** A key the deduplicated prefix lacks does not occur in it. */
  lemma {:induction false} OccurrencesUnseen<K>(s: seq<K>, k: K)
    requires k !in Dedup(s)
    ensures Occurrences(s, k) == 0
  {
    if |s| > 0 {
      OccurrencesUnseen(s[..|s| - 1], k);
    }
  }

  /** `buckets` tallies `keys`: one bucket per distinct key, in order of first occurrence,
      holding the number of times it occurs. */
  predicate Tallies<K(==)>(keys: seq<K>, buckets: seq<Bucket<K>>)
  {
    && |buckets| == |Dedup(keys)|
    && forall j :: 0 <= j < |buckets| ==>
      buckets[j].name == Dedup(keys)[j] && buckets[j].value == multiset(keys)[buckets[j].name]
  }

  /** `keys.reduce(...)` followed by `Object.entries`: one bucket per distinct key, in
      order of first occurrence, holding the number of times it occurs. Every key is
      counted once, so the values add up to `|keys|`. */
  method Tally<K(==,!new)>(keys: seq<K>) returns (buckets: seq<Bucket<K>>)
    ensures |buckets| == |Dedup(keys)|
    ensures forall j :: 0 <= j < |buckets| ==>
      buckets[j].name == Dedup(keys)[j] && buckets[j].value == multiset(keys)[buckets[j].name]
    ensures SumValues(buckets) == |keys|
  {
    var order: seq<K> := [];
    var counts: map<K, nat> := map[];
    for i := 0 to |keys|
      invariant TalliedUpTo(keys, i, order, counts)
      invariant Total(order, counts) == i
    {
      var order', counts' := Bump(order, counts, keys[i]);
      TallyStep(keys, i, order, counts, order', counts');
      order, counts := order', counts';
    }
    assert keys[..|keys|] == keys;
    buckets := seq(|order|, j requires 0 <= j < |order| => Bucket(order[j], counts[order[j]]));
    SumValuesOf(order, counts, buckets);
    forall k
      ensures Occurrences(keys, k) == multiset(keys)[k]
    {
      OccurrencesMultiset(keys, k);
    }
  }

  /** With keys drawn from a set `universe`, there are at most `|universe|` buckets. */
  lemma TallyBound<K>(keys: seq<K>, universe: set<K>)
    requires forall k :: k in keys ==> k in universe
    ensures |Dedup(keys)| <= |universe|
  {
    DedupMembers(keys);
    DedupNoDup(keys);
    forall k | k in Dedup(keys)
      ensures k in universe
    {
      DedupMember(keys, k);
    }
    NoDupBound(Dedup(keys), universe);
  }

  // ---------------------------------------------------------------------------
  // A reduce into an object of per-key accumulators

  /** The accumulator that the items of `s` with key `k` build from `init` by `step`,
      in order. */
  ghost function FoldFor<T, K, A>(s: seq<T>, key: T -> K, k: K, init: A, step: (A, T) -> A): A
  {
    if |s| == 0 then init
    else
      var a := FoldFor(s[..|s| - 1], key, k, init, step);
      if key(s[|s| - 1]) == k then step(a, s[|s| - 1]) else a
  }

  /** The object after the first `i` items: its keys in creation order, each holding the
      fold of that key's items. */
  ghost predicate FoldedUpTo<T, K(!new), A>(s: seq<T>, key: T -> K, init: K -> A, step: (A, T) -> A,
    i: nat, order: seq<K>, acc: map<K, A>)
    requires i <= |s|
  {
    && order == Dedup(Map(s[..i], key))
    && (forall k :: k in acc <==> k in order)
    && (forall k :: k in acc ==> acc[k] == FoldFor(s[..i], key, k, init(k), step))
  }

  lemma {:induction false} FoldUnseen<T, K, A>(s: seq<T>, key: T -> K, k: K, init: A, step: (A, T) -> A)
    requires k !in Dedup(Map(s, key))
    ensures FoldFor(s, key, k, init, step) == init
  {
    if |s| > 0 {
      var n := |s| - 1;
      assert Map(s[..n], key) == Map(s, key)[..n];
      FoldUnseen(s[..n], key, k, init, step);
    }
  }

  lemma FoldStep<T, K(!new), A>(s: seq<T>, key: T -> K, init: K -> A, step: (A, T) -> A,
    i: nat, order: seq<K>, acc: map<K, A>, order': seq<K>, acc': map<K, A>)
    requires i < |s| && FoldedUpTo(s, key, init, step, i, order, acc)
    requires order' == if key(s[i]) in order then order else order + [key(s[i])]
    requires acc' == acc[key(s[i]) := step(if key(s[i]) in acc then acc[key(s[i])] else init(key(s[i])), s[i])]
    ensures FoldedUpTo(s, key, init, step, i + 1, order', acc')
  {
    KeysStep(s, key, i);
    forall k | k in acc'
      ensures acc'[k] == FoldFor(s[..i + 1], key, k, init(k), step)
    {
      FoldForStep(s, key, k, init(k), step, i);
      if k !in acc {
        FoldUnseen(s[..i], key, k, init(k), step);
      }
    }
  }

  lemma KeysStep<T, K>(s: seq<T>, key: T -> K, i: nat)
    requires i < |s|
    ensures var order := Dedup(Map(s[..i], key));
      Dedup(Map(s[..i + 1], key)) == if key(s[i]) in order then order else order + [key(s[i])]
  {
    var keys := Map(s[..i + 1], key);
    assert keys[..i] == Map(s[..i], key) && keys[i] == key(s[i]);
  }

  lemma FoldForStep<T, K, A>(s: seq<T>, key: T -> K, k: K, init: A, step: (A, T) -> A, i: nat)
    requires i < |s|
    ensures var before := FoldFor(s[..i], key, k, init, step);
      FoldFor(s[..i + 1], key, k, init, step) == if key(s[i]) == k then step(before, s[i]) else before
  {
    assert s[..i + 1][..i] == s[..i];
  }

  /** `s.reduce((acc, x) => { if (!acc[key(x)]) acc[key(x)] = init(key(x)); acc[key(x)] =
      step(acc[key(x)], x); return acc }, {})`: one accumulator per distinct key,
      created in order of first occurrence, each the fold of its own items. */
  method GroupFold<T, K(==,!new), A>(s: seq<T>, key: T -> K, init: K -> A, step: (A, T) -> A)
    returns (order: seq<K>, acc: map<K, A>)
    ensures order == Dedup(Map(s, key))
    ensures forall k :: k in acc <==> k in order
    ensures forall k :: k in acc ==> acc[k] == FoldFor(s, key, k, init(k), step)
  {
    order, acc := [], map[];
    for i := 0 to |s|
      invariant FoldedUpTo(s, key, init, step, i, order, acc)
    {
      var k := key(s[i]);
      var order', acc' := order, acc;
      if k !in acc' {
        acc' := acc'[k := init(k)];
        order' := order' + [k];
      }
      acc' := acc'[k := step(acc'[k], s[i])];
      FoldStep(s, key, init, step, i, order, acc, order', acc');
      order, acc := order', acc';
    }
    assert s[..|s|] == s;
  }

  /** `acc[k].push(x)`. */
  function Push<T>(a: seq<T>, x: T): seq<T>
  {
    a + [x]
  }

  /** Pushing each item onto its key's list, starting from `[]`, leaves that key's items
      in their original order. */
  lemma {:induction false} FoldPush<T, K>(s: seq<T>, key: T -> K, k: K, p: T -> bool)
    requires forall x :: p(x) <==> key(x) == k
    ensures FoldFor(s, key, k, [], Push) == Filter(s, p)
  {
    if |s| > 0 {
      FoldPush(s[..|s| - 1], key, k, p);
      FilterLast(s, p);
    }
  }

  // ---------------------------------------------------------------------------
  // Enumeration order of an object with number keys

  /** A key that an object stores as an array index (0 <= k < 2^32 - 1). `Object.values`
      and `Object.entries` list such keys first, in ascending numeric order, and the
      object's other keys after them, in creation order. */
  predicate IsArrayIndex(k: int)
  {
    0 <= k < 0xFFFF_FFFF
  }

  predicate NotArrayIndex(k: int)
  {
    !IsArrayIndex(k)
  }

  function AsKey(k: int): real
  {
    k as real
  }

  /** The order in which an object whose number keys were created in the order `created`
      enumerates them. */
  function IntegerKeyOrder(created: seq<int>): seq<int>
  {
    SortByKey(Filter(created, IsArrayIndex), AsKey) + Filter(created, NotArrayIndex)
  }

  /** The enumeration lists every created key as often as it was created, the array
      indices first and ascending, then the other keys in creation order. */
  lemma IntegerKeyOrderFacts(created: seq<int>)
    ensures multiset(IntegerKeyOrder(created)) == multiset(created)
    ensures NoDup(created) ==> NoDup(IntegerKeyOrder(created))
    ensures var o, m := IntegerKeyOrder(created), Count(created, IsArrayIndex);
      && m <= |o|
      && (forall i :: 0 <= i < m ==> IsArrayIndex(o[i]))
      && (forall i, j :: 0 <= i < j < m ==> o[i] <= o[j])
      && o[m..] == Filter(created, NotArrayIndex)
  {
    IntegerKeyPermutation(created);
    if NoDup(created) {
      NoDupPermutation(created, IntegerKeyOrder(created));
    }
    IntegerKeyLayout(created);
  }

  lemma IntegerKeyPermutation(created: seq<int>)
    ensures multiset(IntegerKeyOrder(created)) == multiset(created)
  {
    var o := IntegerKeyOrder(created);
    SortMultiset(Filter(created, IsArrayIndex), AsKey);
    forall x
      ensures multiset(o)[x] == multiset(created)[x]
    {
      FilterMultiset(created, IsArrayIndex, x);
      FilterMultiset(created, NotArrayIndex, x);
    }
  }

  lemma IntegerKeyLayout(created: seq<int>)
    ensures var o, m := IntegerKeyOrder(created), Count(created, IsArrayIndex);
      && m <= |o|
      && (forall i :: 0 <= i < m ==> IsArrayIndex(o[i]))
      && (forall i, j :: 0 <= i < j < m ==> o[i] <= o[j])
      && o[m..] == Filter(created, NotArrayIndex)
  {
    var front := Filter(created, IsArrayIndex);
    var sorted := SortByKey(front, AsKey);
    var o := IntegerKeyOrder(created);
    SortMultiset(front, AsKey);
    SortSorted(front, AsKey);
    SortLength(front, AsKey);
    forall i | 0 <= i < |sorted|
      ensures IsArrayIndex(sorted[i])
    {
      assert sorted[i] in multiset(front);
    }
    assert o[..|sorted|] == sorted;
    assert o[|sorted|..] == Filter(created, NotArrayIndex);
  }

  // ---------------------------------------------------------------------------
  // Enumeration order of an object with string keys

  predicate AllDigits(s: string)
  {
    forall i :: 0 <= i < |s| ==> '0' <= s[i] <= '9'
  }

  /** The number a string of decimal digits denotes. */
  function DecimalValue(s: string): nat
    requires AllDigits(s)
  {
    if |s| == 0 then 0
    else DecimalValue(s[..|s| - 1]) * 10 + (s[|s| - 1] as int - '0' as int)
  }

  /** A string key that an object stores as an array index: the canonical decimal form
      (no leading zero) of an integer 0 <= k < 2^32 - 1. */
  predicate IsIndexString(s: string)
  {
    |s| > 0 && AllDigits(s) && (s[0] != '0' || |s| == 1) && DecimalValue(s) < 0xFFFF_FFFF
  }

  predicate NotIndexString(s: string)
  {
    !IsIndexString(s)
  }

  function IndexValue(s: string): real
  {
    if IsIndexString(s) then DecimalValue(s) as real else 0.0
  }

  /** The order in which `Object.keys`, `Object.values` and `Object.entries` list the
      keys of an object whose string keys were created in the order `created`: the
      array-index keys first, ascending, then the others in creation order. */
  function StringKeyOrder(created: seq<string>): seq<string>
  {
    SortByKey(Filter(created, IsIndexString), IndexValue) + Filter(created, NotIndexString)
  }

  /** The enumeration lists every created key as often as it was created, the array
      indices first and ascending, then the other keys in creation order; with no
      array-index key it is the creation order itself. */
  lemma StringKeyOrderFacts(created: seq<string>)
    ensures multiset(StringKeyOrder(created)) == multiset(created)
    ensures |StringKeyOrder(created)| == |created|
    ensures NoDup(created) ==> NoDup(StringKeyOrder(created))
    ensures var o, m := StringKeyOrder(created), Count(created, IsIndexString);
      && m <= |o|
      && (forall i :: 0 <= i < m ==> IsIndexString(o[i]))
      && (forall i, j :: 0 <= i < j < m ==> IndexValue(o[i]) <= IndexValue(o[j]))
      && o[m..] == Filter(created, NotIndexString)
    ensures (forall k :: k in created ==> NotIndexString(k)) ==> StringKeyOrder(created) == created
  {
    StringKeyPermutation(created);
    assert |multiset(StringKeyOrder(created))| == |multiset(created)|;
    if NoDup(created) {
      NoDupPermutation(created, StringKeyOrder(created));
    }
    StringKeyLayout(created);
    if forall k :: k in created ==> NotIndexString(k) {
      FilterNone(created, IsIndexString);
      FilterAll(created, NotIndexString);
    }
  }

  lemma StringKeyPermutation(created: seq<string>)
    ensures multiset(StringKeyOrder(created)) == multiset(created)
  {
    var o := StringKeyOrder(created);
    SortMultiset(Filter(created, IsIndexString), IndexValue);
    forall x
      ensures multiset(o)[x] == multiset(created)[x]
    {
      FilterMultiset(created, IsIndexString, x);
      FilterMultiset(created, NotIndexString, x);
    }
  }

  lemma StringKeyLayout(created: seq<string>)
    ensures var o, m := StringKeyOrder(created), Count(created, IsIndexString);
      && m <= |o|
      && (forall i :: 0 <= i < m ==> IsIndexString(o[i]))
      && (forall i, j :: 0 <= i < j < m ==> IndexValue(o[i]) <= IndexValue(o[j]))
      && o[m..] == Filter(created, NotIndexString)
  {
    var front := Filter(created, IsIndexString);
    var sorted := SortByKey(front, IndexValue);
    var o := StringKeyOrder(created);
    SortMultiset(front, IndexValue);
    SortSorted(front, IndexValue);
    SortLength(front, IndexValue);
    forall i | 0 <= i < |sorted|
      ensures IsIndexString(sorted[i])
    {
      assert sorted[i] in multiset(front);
    }
    assert o[..|sorted|] == sorted;
    assert o[|sorted|..] == Filter(created, NotIndexString);
  }
}
