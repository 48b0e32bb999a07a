/** The reaction-distribution area chart (area-chart.tsx): ten iteration buckets, each
    counting the Positive and Negative reactions recorded at its iteration, with the
    two shares in percent. */
module AreaChart {
  import opened Seqs
  import opened Numeric
  import opened Records

  /** The number of buckets: iterations 1 to 10. */
  const BucketCount: int := 10

  /** One value of `iterationMap`: `{ iteration, Positive, Negative, total }`. */
  datatype Bucket = Bucket(iteration: int, positive: int, negative: int, total: int)

  function EmptyBucket(i: int): Bucket
  {
    Bucket(i, 0, 0, 0)
  }

  /** `iterationObj[item.reaction] += 1; iterationObj.total += 1`. The reaction names a
      property of the bucket: "Positive" and "Negative" are the counters, and the names
      "total" and "iteration" reach those fields too. */
  function Tally(b: Bucket, reaction: string): Bucket
  {
    var b' := if reaction == Positive then b.(positive := b.positive + 1)
      else if reaction == Negative then b.(negative := b.negative + 1)
      else if reaction == "total" then b.(total := b.total + 1)
      else if reaction == "iteration" then b.(iteration := b.iteration + 1)
      else b;
    b'.(total := b'.total + 1)
  }

  /** The bucket after tallying `reactions` in order. */
  function TallyAll(b: Bucket, reactions: seq<string>): Bucket
  {
    if |reactions| == 0 then b
    else Tally(TallyAll(b, reactions[..|reactions| - 1]), reactions[|reactions| - 1])
  }

  function AtIteration(i: int): PersonaData -> bool
  {
    (x: PersonaData) => x.iteration == i
  }

  function ReactionOf(x: PersonaData): string
  {
    x.reaction
  }

  function Is(r: string): string -> bool
  {
    (s: string) => s == r
  }

  /** The reactions recorded at iteration `i`, in data order. */
  function Reactions(data: seq<PersonaData>, i: int): seq<string>
  {
    Map(Filter(data, AtIteration(i)), ReactionOf)
  }

  /** The bucket of iteration `i` once every record has been counted. */
  function BucketAt(data: seq<PersonaData>, i: int): Bucket
  {
    TallyAll(EmptyBucket(i), Reactions(data, i))
  }

  /** The ten buckets in creation order, iterations 1 to 10. */
  function Buckets(data: seq<PersonaData>): (b: seq<Bucket>)
    ensures |b| == BucketCount
    ensures forall j :: 0 <= j < BucketCount ==> b[j] == BucketAt(data, j + 1)
  {
    seq(BucketCount, j => BucketAt(data, j + 1))
  }

  /** A chart row: the bucket's fields and the two shares. */
  datatype ReactionRow = ReactionRow(bucket: Bucket, positivePercentage: real, negativePercentage: real)

  /** `item.total > 0 ? (item.Positive / item.total) * 100 : 0`, and the same for Negative. */
  function Percentages(b: Bucket): ReactionRow
  {
    if b.total > 0 then
      ReactionRow(b, b.positive as real / b.total as real * 100.0, b.negative as real / b.total as real * 100.0)
    else ReactionRow(b, 0.0, 0.0)
  }

  function BucketKey(b: Bucket): real
  {
    b.iteration as real
  }

  /** The chart data: the ten buckets in creation order, sorted by their `iteration`
      field, with their shares. */
  function ChartRows(data: seq<PersonaData>): seq<ReactionRow>
  {
    Map(SortByKey(Buckets(data), BucketKey), Percentages)
  }

  /** `prepareChartData`: first pass creates the ten buckets, second pass counts every
      record whose iteration has a bucket. */
  method PrepareChartData(data: seq<PersonaData>) returns (rows: seq<ReactionRow>)
    ensures rows == ChartRows(data)
  {
    var iterationMap: map<int, Bucket> := map[];
    for i := 1 to BucketCount + 1
      invariant forall j :: j in iterationMap <==> 1 <= j < i
      invariant forall j :: j in iterationMap ==> iterationMap[j] == EmptyBucket(j)
    {
      iterationMap := iterationMap[i := EmptyBucket(i)];
    }
    for k := 0 to |data|
      invariant forall j :: j in iterationMap <==> 1 <= j <= BucketCount
      invariant forall j :: 1 <= j <= BucketCount ==> iterationMap[j] == BucketAt(data[..k], j)
    {
      var item := data[k];
      if item.iteration in iterationMap {
        iterationMap := iterationMap[item.iteration := Tally(iterationMap[item.iteration], item.reaction)];
      }
      forall j | 1 <= j <= BucketCount
        ensures BucketAt(data[..k + 1], j) ==
          if data[k].iteration == j then Tally(BucketAt(data[..k], j), data[k].reaction) else BucketAt(data[..k], j)
      {
        BucketStep(data, k, j);
      }
    }
    assert data[..|data|] == data;
    var values := seq(BucketCount, j requires 0 <= j < BucketCount => iterationMap[j + 1]);
    assert values == Buckets(data);
    rows := Map(SortByKey(values, BucketKey), Percentages);
  }

  /** Counting record `k` changes only the bucket of its own iteration. */
  lemma BucketStep(data: seq<PersonaData>, k: nat, j: int)
    requires k < |data|
    ensures BucketAt(data[..k + 1], j) ==
      if data[k].iteration == j then Tally(BucketAt(data[..k], j), data[k].reaction) else BucketAt(data[..k], j)
  {
    var s := data[..k + 1];
    assert s[..k] == data[..k];
    FilterLast(s, AtIteration(j));
    var front := Filter(data[..k], AtIteration(j));
    if data[k].iteration == j {
      MapAppend(front, [data[k]], ReactionOf);
      var rs := Map(front, ReactionOf) + [data[k].reaction];
      assert rs[..|rs| - 1] == Map(front, ReactionOf);
    } else {
      assert Filter(s, AtIteration(j)) == front;
    }
  }

  // ---------------------------------------------------------------------------
  // What the buckets hold

  /** The counters of a bucket: "Positive" and "Negative" count their reactions, `total`
      counts every record (twice for a reaction named "total"), and a reaction named
      "iteration" moves the bucket's iteration on by one. */
  lemma {:induction false} TallyCounts(b: Bucket, reactions: seq<string>)
    ensures TallyAll(b, reactions) == Bucket(
      b.iteration + Count(reactions, Is("iteration")),
      b.positive + Count(reactions, Is(Positive)),
      b.negative + Count(reactions, Is(Negative)),
      b.total + |reactions| + Count(reactions, Is("total")))
  {
    if |reactions| > 0 {
      var n := |reactions| - 1;
      TallyCounts(b, reactions[..n]);
      CountLast(reactions, Is("iteration"));
      CountLast(reactions, Is(Positive));
      CountLast(reactions, Is(Negative));
      CountLast(reactions, Is("total"));
    }
  }

  /** A bucket's record count is the number of records at its iteration. */
  lemma BucketTotal(data: seq<PersonaData>, i: int)
    ensures |Reactions(data, i)| == Count(data, AtIteration(i))
    ensures BucketAt(data, i).total == Count(data, AtIteration(i)) + Count(Reactions(data, i), Is("total"))
    ensures BucketAt(data, i).positive == Count(Reactions(data, i), Is(Positive))
    ensures BucketAt(data, i).negative == Count(Reactions(data, i), Is(Negative))
  {
    TallyCounts(EmptyBucket(i), Reactions(data, i));
  }

  /** A property every record's reaction has, every reaction of a bucket has. */
  lemma ReactionsWith(data: seq<PersonaData>, i: int, p: string -> bool)
    requires forall x :: x in data ==> p(x.reaction)
    ensures forall r :: r in Reactions(data, i) ==> p(r)
  {
    var own := Filter(data, AtIteration(i));
    forall r | r in Reactions(data, i)
      ensures p(r)
    {
      var j :| 0 <= j < |own| && Reactions(data, i)[j] == r;
      assert own[j] in own;
    }
  }

  /** When every reaction is Positive or Negative, a bucket's iteration is its own,
      its total is the number of its records, and Positive + Negative is that total. */
  lemma TwoReactions(data: seq<PersonaData>, i: int)
    requires forall x :: x in data ==> x.reaction == Positive || x.reaction == Negative
    ensures BucketAt(data, i).iteration == i
    ensures BucketAt(data, i).total == Count(data, AtIteration(i))
    ensures BucketAt(data, i).positive + BucketAt(data, i).negative == BucketAt(data, i).total
  {
    var rs := Reactions(data, i);
    BucketTotal(data, i);
    FixedIteration(data, i);
    var notPositive := (s: string) => s != Positive;
    ReactionsWith(data, i, (s: string) => s == Positive || s == Negative);
    CountNone(rs, Is("total"));
    CountCongruent(rs, Is(Negative), notPositive);
    CountPartition(rs, Is(Positive), notPositive);
  }

  /** The shares: 0 and 0 for an empty bucket; otherwise each within [0, 100] and,
      when Positive and Negative make up the total, summing to 100. */
  lemma PercentagesFacts(b: Bucket)
    requires 0 <= b.positive && 0 <= b.negative && b.positive + b.negative <= b.total
    ensures var r := Percentages(b);
      && (b.total == 0 ==> r.positivePercentage == 0.0 && r.negativePercentage == 0.0)
      && 0.0 <= r.positivePercentage <= 100.0 && 0.0 <= r.negativePercentage <= 100.0
      && (b.total > 0 && b.positive + b.negative == b.total ==> r.positivePercentage + r.negativePercentage == 100.0)
  {
    if b.total > 0 {
      var t := b.total as real;
      MeanBetween(b.positive as real, t, 0.0, 1.0);
      MeanBetween(b.negative as real, t, 0.0, 1.0);
      if b.positive + b.negative == b.total {
        ShareSum(b.positive as real, b.negative as real, t);
      }
    }
  }

  lemma ShareSum(p: real, q: real, t: real)
    requires t > 0.0 && p + q == t
    ensures p / t * 100.0 + q / t * 100.0 == 100.0
  {
    assert p / t + q / t == (p + q) / t;
    assert (p + q) / t == 1.0;
  }

  /** A record outside iterations 1 to 10 changes nothing. */
  lemma OutOfRangeIgnored(data: seq<PersonaData>, x: PersonaData)
    requires x.iteration < 1 || x.iteration > BucketCount
    ensures ChartRows(data + [x]) == ChartRows(data)
  {
    forall j | 0 <= j < BucketCount
      ensures Buckets(data + [x])[j] == Buckets(data)[j]
    {
      BucketIgnored(data, x, j + 1);
    }
    assert Buckets(data + [x]) == Buckets(data);
  }

  lemma BucketIgnored(data: seq<PersonaData>, x: PersonaData, i: int)
    requires x.iteration != i
    ensures BucketAt(data + [x], i) == BucketAt(data, i)
  {
    BucketStep(data + [x], |data|, i);
    assert (data + [x])[..|data| + 1] == data + [x];
    assert (data + [x])[..|data|] == data;
  }

  /** Exactly ten rows; with no reaction named "iteration" they are the buckets of
      iterations 1 to 10, in order. */
  lemma ChartRowsFacts(data: seq<PersonaData>)
    ensures |ChartRows(data)| == BucketCount
    ensures (forall x :: x in data ==> x.reaction != "iteration") ==>
      forall j :: 0 <= j < BucketCount ==>
        && ChartRows(data)[j].bucket.iteration == j + 1
        && ChartRows(data)[j] == Percentages(BucketAt(data, j + 1))
  {
    SortLength(Buckets(data), BucketKey);
    if forall x :: x in data ==> x.reaction != "iteration" {
      BucketsInOrder(data);
    }
  }

  /** Without a reaction named "iteration" the buckets are already sorted. */
  lemma BucketsInOrder(data: seq<PersonaData>)
    requires forall x :: x in data ==> x.reaction != "iteration"
    ensures SortByKey(Buckets(data), BucketKey) == Buckets(data)
    ensures forall j :: 0 <= j < BucketCount ==> Buckets(data)[j].iteration == j + 1
  {
    var b := Buckets(data);
    forall j | 0 <= j < BucketCount
      ensures b[j].iteration == j + 1
    {
      FixedIteration(data, j + 1);
    }
    assert SortedBy(b, BucketKey);
    SortOfSorted(b, BucketKey);
  }

  /** A bucket keeps its iteration unless a reaction is named "iteration". */
  lemma FixedIteration(data: seq<PersonaData>, i: int)
    requires forall x :: x in data ==> x.reaction != "iteration"
    ensures BucketAt(data, i).iteration == i
  {
    var rs := Reactions(data, i);
    TallyCounts(EmptyBucket(i), rs);
    ReactionsWith(data, i, (s: string) => s != "iteration");
    CountNone(rs, Is("iteration"));
  }
}
