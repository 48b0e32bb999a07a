/** The news-impact analysis (news-impact-analysis.tsx): each persona's records split by
    news type, the average last-minus-first change of the personas with at least two
    records of a type, the exposure counts, and one row per iteration with the mean
    rating of each type and a running "cumulative change". */
module NewsImpactAnalysis {
  import opened Seqs
  import opened Numeric
  import opened Records
  import opened FillForward

  /** The two news types of this component: a record is fake news when `is_fake` holds
      and real news otherwise. */
  datatype Kind = Fake | Real

  predicate OfKind(kind: Kind, x: PersonaData)
  {
    match kind
    case Fake => x.isFake
    case Real => !x.isFake
  }

  predicate OwnOfKind(kind: Kind, name: string, x: PersonaData)
  {
    x.personaName == name && OfKind(kind, x)
  }

  /** `personaProgress[name].fake` or `.real`: the persona's records of that type, in
      the order they were pushed. */
  function Progress(data: seq<PersonaData>, name: string, kind: Kind): seq<PersonaData>
  {
    Filter(data, (x: PersonaData) => OwnOfKind(kind, name, x))
  }

  datatype Lists = Lists(fakeNews: seq<PersonaData>, realNews: seq<PersonaData>)

  function ListsOf(data: seq<PersonaData>, name: string): Lists
  {
    Lists(Progress(data, name, Fake), Progress(data, name, Real))
  }

  /** Every record goes into exactly one of its persona's two lists, with every copy. */
  lemma ProgressExact(data: seq<PersonaData>, name: string, kind: Kind)
    ensures forall x :: x in Progress(data, name, kind) <==> x in data && x.personaName == name && OfKind(kind, x)
    ensures forall x :: multiset(Progress(data, name, kind))[x] == if OwnOfKind(kind, name, x) then multiset(data)[x] else 0
  {
    forall x
      ensures multiset(Progress(data, name, kind))[x] == if OwnOfKind(kind, name, x) then multiset(data)[x] else 0
    {
      FilterMultiset(data, (y: PersonaData) => OwnOfKind(kind, name, y), x);
    }
    forall x
      ensures x in Progress(data, name, kind) <==> x in data && OwnOfKind(kind, name, x)
    {
      assert x in Progress(data, name, kind) <==> x in multiset(Progress(data, name, kind));
      assert x in data <==> x in multiset(data);
    }
  }

  /** One more record extends its own persona's list of its type and nothing else. */
  lemma ProgressStep(data: seq<PersonaData>, i: nat, name: string)
    requires i < |data|
    ensures var x := data[i];
      var l := ListsOf(data[..i], name);
      ListsOf(data[..i + 1], name) ==
        if x.personaName != name then l
        else if x.isFake then Lists(l.fakeNews + [x], l.realNews)
        else Lists(l.fakeNews, l.realNews + [x])
  {
    assert data[..i + 1][..i] == data[..i];
    FilterLast(data[..i + 1], (y: PersonaData) => OwnOfKind(Fake, name, y));
    FilterLast(data[..i + 1], (y: PersonaData) => OwnOfKind(Real, name, y));
  }

  /** The two `forEach` loops: an empty entry per available persona, then every record
      pushed onto its persona's list of its type. */
  method GroupProgress(data: seq<PersonaData>, names: seq<string>) returns (progress: map<string, Lists>)
    requires forall x :: x in data ==> x.personaName in names
    ensures forall n :: n in progress <==> n in names
    ensures forall n :: n in progress ==> progress[n] == ListsOf(data, n)
  {
    progress := map[];
    for k := 0 to |names|
      invariant forall n :: n in progress <==> n in names[..k]
      invariant forall n :: n in progress ==> progress[n] == Lists([], [])
    {
      assert names[..k + 1] == names[..k] + [names[k]];
      progress := progress[names[k] := Lists([], [])];
    }
    assert names[..|names|] == names;
    assert data[..0] == [];
    for i := 0 to |data|
      invariant forall n :: n in progress <==> n in names
      invariant forall n :: n in progress ==> progress[n] == ListsOf(data[..i], n)
    {
      var x := data[i];
      assert x in data;
      var l := progress[x.personaName];
      if x.isFake {
        progress := progress[x.personaName := Lists(l.fakeNews + [x], l.realNews)];
      } else {
        progress := progress[x.personaName := Lists(l.fakeNews, l.realNews + [x])];
      }
      forall n | n in progress
        ensures progress[n] == ListsOf(data[..i + 1], n)
      {
        ProgressStep(data, i, n);
      }
    }
    assert data[..|data|] == data;
  }

  // ---------------------------------------------------------------------------
  // Average change per news type

  function Rating(x: PersonaData): real
  {
    x.normalizedCurrentRating
  }

  /** A list sorted by iteration: last minus first normalised rating. */
  function Delta(sorted: seq<PersonaData>): real
    requires |sorted| > 1
  {
    Rating(sorted[|sorted| - 1]) - Rating(sorted[0])
  }

  /** A persona counts for a type when it has more than one record of that type. */
  predicate Moves(data: seq<PersonaData>, kind: Kind, name: string)
  {
    |Progress(data, name, kind)| > 1
  }

  /** The change of one persona's list of a type, from the list sorted by iteration. */
  function ChangeOf(data: seq<PersonaData>, kind: Kind, name: string): real
    requires Moves(data, kind, name)
  {
    SortLength(Progress(data, name, kind), IterationKey);
    Delta(SortByKey(Progress(data, name, kind), IterationKey))
  }

  /** The changes that `totalFakeChange` (or `totalRealChange`) adds up, persona by
      persona. */
  function Changes(data: seq<PersonaData>, names: seq<string>, kind: Kind): seq<real>
  {
    if |names| == 0 then []
    else
      var n := |names| - 1;
      Changes(data, names[..n], kind) + (if Moves(data, kind, names[n]) then [ChangeOf(data, kind, names[n])] else [])
  }

  /** `averageChangePerIteration.fake` (or `.real`): the total change over the number of
      personas that moved, or 0 when none did. */
  function AverageChange(data: seq<PersonaData>, names: seq<string>, kind: Kind): real
  {
    var c := Changes(data, names, kind);
    if |c| > 0 then Sum(c) / |c| as real else 0.0
  }

  /** There is one change per persona that moved. */
  lemma {:induction false} ChangesCount(data: seq<PersonaData>, names: seq<string>, kind: Kind)
    ensures |Changes(data, names, kind)| == Count(names, (n: string) => Moves(data, kind, n))
  {
    if |names| > 0 {
      var n := |names| - 1;
      ChangesCount(data, names[..n], kind);
      CountLast(names, (m: string) => Moves(data, kind, m));
    }
  }

  /** A persona's change runs from a record with its least iteration to one with its
      greatest, both of that persona and type. */
  lemma ChangeEnds(data: seq<PersonaData>, kind: Kind, name: string) returns (first: PersonaData, last: PersonaData)
    requires Moves(data, kind, name)
    ensures first in data && last in data
    ensures OwnOfKind(kind, name, first) && OwnOfKind(kind, name, last)
    ensures forall y :: y in Progress(data, name, kind) ==> first.iteration <= y.iteration <= last.iteration
    ensures ChangeOf(data, kind, name) == Rating(last) - Rating(first)
  {
    var own := Progress(data, name, kind);
    SortedExtremes(own);
    SortLength(own, IterationKey);
    var sorted := SortByKey(own, IterationKey);
    first, last := sorted[0], sorted[|sorted| - 1];
    ProgressExact(data, name, kind);
  }

  /** When normalised ratings lie in [0, 1], so does each change in [-1, 1] and so does
      the average; with no moving persona the average is 0. */
  lemma AverageChangeBounds(data: seq<PersonaData>, names: seq<string>, kind: Kind)
    requires forall x :: x in data ==> 0.0 <= Rating(x) <= 1.0
    ensures -1.0 <= AverageChange(data, names, kind) <= 1.0
    ensures Count(names, (n: string) => Moves(data, kind, n)) == 0 ==> AverageChange(data, names, kind) == 0.0
  {
    ChangesCount(data, names, kind);
    var c := Changes(data, names, kind);
    ChangesBounded(data, names, kind);
    if |c| > 0 {
      SumBounds(c, -1.0, 1.0);
      MeanBetween(Sum(c), |c| as real, -1.0, 1.0);
    }
  }

  lemma {:induction false} ChangesBounded(data: seq<PersonaData>, names: seq<string>, kind: Kind)
    requires forall x :: x in data ==> 0.0 <= Rating(x) <= 1.0
    ensures forall i :: 0 <= i < |Changes(data, names, kind)| ==> -1.0 <= Changes(data, names, kind)[i] <= 1.0
  {
    if |names| > 0 {
      var n := |names| - 1;
      ChangesBounded(data, names[..n], kind);
      if Moves(data, kind, names[n]) {
        var first, last := ChangeEnds(data, kind, names[n]);
      }
    }
  }

  /** The per-persona loop: the running totals of both types. */
  method TotalChanges(data: seq<PersonaData>, names: seq<string>, progress: map<string, Lists>)
    returns (totalFake: real, totalReal: real)
    requires forall n :: n in names ==> n in progress && progress[n] == ListsOf(data, n)
    ensures totalFake == Sum(Changes(data, names, Fake))
    ensures totalReal == Sum(Changes(data, names, Real))
  {
    totalFake, totalReal := 0.0, 0.0;
    for k := 0 to |names|
      invariant totalFake == Sum(Changes(data, names[..k], Fake))
      invariant totalReal == Sum(Changes(data, names[..k], Real))
    {
      assert names[k] in names;
      var lists := progress[names[k]];
      var fakeData := SortByKey(lists.fakeNews, IterationKey);
      var realData := SortByKey(lists.realNews, IterationKey);
      SortLength(lists.fakeNews, IterationKey);
      SortLength(lists.realNews, IterationKey);
      var fake', real' := totalFake, totalReal;
      if |fakeData| > 1 {
        fake' := totalFake + (fakeData[|fakeData| - 1].normalizedCurrentRating - fakeData[0].normalizedCurrentRating);
      }
      if |realData| > 1 {
        real' := totalReal + (realData[|realData| - 1].normalizedCurrentRating - realData[0].normalizedCurrentRating);
      }
      TotalStep(data, names, k, Fake, lists.fakeNews, fakeData, totalFake, fake');
      TotalStep(data, names, k, Real, lists.realNews, realData, totalReal, real');
      totalFake, totalReal := fake', real';
    }
    assert names[..|names|] == names;
  }

  /** One persona's step of the loop adds its change when it moved. */
  lemma TotalStep(data: seq<PersonaData>, names: seq<string>, k: nat, kind: Kind, list: seq<PersonaData>,
    sorted: seq<PersonaData>, total: real, total': real)
    requires k < |names| && list == Progress(data, names[k], kind)
    requires sorted == SortByKey(list, IterationKey) && |sorted| == |list|
    requires total == Sum(Changes(data, names[..k], kind))
    requires |sorted| > 1 ==> total' == total + Delta(sorted)
    requires |sorted| <= 1 ==> total' == total
    ensures total' == Sum(Changes(data, names[..k + 1], kind))
  {
    var step := ChangesSnoc(data, names, k, kind);
    SumAppend(Changes(data, names[..k], kind), step);
    if |sorted| > 1 {
      assert Sum(step) == Delta(sorted);
    }
  }

  /** The changes of one more persona. */
  lemma ChangesSnoc(data: seq<PersonaData>, names: seq<string>, k: nat, kind: Kind) returns (step: seq<real>)
    requires k < |names|
    ensures step == if Moves(data, kind, names[k]) then [ChangeOf(data, kind, names[k])] else []
    ensures Changes(data, names[..k + 1], kind) == Changes(data, names[..k], kind) + step
  {
    var prefix := names[..k + 1];
    assert prefix[..k] == names[..k] && prefix[k] == names[k];
    step := if Moves(data, kind, names[k]) then [ChangeOf(data, kind, names[k])] else [];
  }

  // ---------------------------------------------------------------------------
  // Per-iteration rows

  /** `mockData.filter(item => is_fake && item.iteration === i)` (or `!is_fake`). */
  function ItemsAt(data: seq<PersonaData>, kind: Kind, i: int): seq<PersonaData>
  {
    Filter(data, (x: PersonaData) => OfKind(kind, x) && x.iteration == i)
  }

  /** The mean normalised rating of some items, or 0 when there are none. */
  function MeanRating(items: seq<PersonaData>): real
  {
    if |items| > 0 then Sum(Map(items, Rating)) / |items| as real else 0.0
  }

  /** The running change: iteration 1 starts at its mean; each later iteration with items
      adds its mean minus the previous iteration's (0 when that one had none), and one
      without items carries the previous value over. */
  function Cumulative(data: seq<PersonaData>, kind: Kind, i: int): real
    requires i >= 1
    decreases i
  {
    if i == 1 then MeanRating(ItemsAt(data, kind, 1))
    else
      Cumulative(data, kind, i - 1)
        + (if |ItemsAt(data, kind, i)| > 0 then MeanRating(ItemsAt(data, kind, i)) - MeanRating(ItemsAt(data, kind, i - 1)) else 0.0)
  }

  datatype IterationData = IterationData(iteration: int, avgFakeRating: real, avgRealRating: real,
    fakeCount: nat, realCount: nat, cumulativeFakeChange: real, cumulativeRealChange: real)

  /** The row of iteration `i`. */
  function IterationAt(data: seq<PersonaData>, i: int): IterationData
    requires i >= 1
  {
    IterationData(i, MeanRating(ItemsAt(data, Fake, i)), MeanRating(ItemsAt(data, Real, i)),
      |ItemsAt(data, Fake, i)|, |ItemsAt(data, Real, i)|, Cumulative(data, Fake, i), Cumulative(data, Real, i))
  }

  /** The `for (i = 1; i <= maxIteration; i++)` loop, each row reading the one before. */
  method CumulativeRatings(data: seq<PersonaData>, count: nat) returns (rows: seq<IterationData>)
    ensures |rows| == count
    ensures forall j :: 0 <= j < count ==> rows[j] == IterationAt(data, j + 1)
  {
    rows := [];
    for i := 1 to count + 1
      invariant |rows| == i - 1
      invariant forall j :: 0 <= j < i - 1 ==> rows[j] == IterationAt(data, j + 1)
    {
      var prev := if i == 1 then IterationData(0, 0.0, 0.0, 0, 0, 0.0, 0.0) else rows[i - 2];
      var row := IterationRow(data, i, prev);
      AppendRow(data, rows, row);
      rows := rows + [row];
    }
  }

  lemma AppendRow(data: seq<PersonaData>, rows: seq<IterationData>, row: IterationData)
    requires forall j :: 0 <= j < |rows| ==> rows[j] == IterationAt(data, j + 1)
    requires row == IterationAt(data, |rows| + 1)
    ensures forall j :: 0 <= j < |rows| + 1 ==> (rows + [row])[j] == IterationAt(data, j + 1)
  {
  }

  /** One pass of the loop body: the means and counts of iteration `i`, and the running
      change from the previous row. */
  method IterationRow(data: seq<PersonaData>, i: int, prev: IterationData) returns (row: IterationData)
    requires i >= 1
    requires i > 1 ==> prev == IterationAt(data, i - 1)
    ensures row == IterationAt(data, i)
  {
    var fakeItems := ItemsAt(data, Fake, i);
    var realItems := ItemsAt(data, Real, i);
    var avgFake, fakeCount, avgReal, realCount := 0.0, 0, 0.0, 0;
    if |fakeItems| > 0 {
      avgFake := Sum(Map(fakeItems, Rating)) / |fakeItems| as real;
      fakeCount := |fakeItems|;
    }
    if |realItems| > 0 {
      avgReal := Sum(Map(realItems, Rating)) / |realItems| as real;
      realCount := |realItems|;
    }
    var cumFake, cumReal;
    if i == 1 {
      cumFake, cumReal := avgFake, avgReal;
    } else {
      cumFake := prev.cumulativeFakeChange + (if |fakeItems| > 0 then avgFake - prev.avgFakeRating else 0.0);
      cumReal := prev.cumulativeRealChange + (if |realItems| > 0 then avgReal - prev.avgRealRating else 0.0);
    }
    row := IterationData(i, avgFake, avgReal, fakeCount, realCount, cumFake, cumReal);
  }

  /** While every iteration up to `i` has items the running change telescopes to the
      mean of iteration `i`. */
  lemma {:induction false} CumulativeTelescopes(data: seq<PersonaData>, kind: Kind, i: int)
    requires i >= 1
    requires forall t :: 1 <= t <= i ==> |ItemsAt(data, kind, t)| > 0
    ensures Cumulative(data, kind, i) == MeanRating(ItemsAt(data, kind, i))
  {
    if i > 1 {
      CumulativeTelescopes(data, kind, i - 1);
    }
  }

  /** An iteration without items carries the running change over unchanged; the next one
      with items then adds its whole mean, since an empty iteration's mean reads as 0. */
  lemma CumulativeGap(data: seq<PersonaData>, kind: Kind, i: int)
    requires i > 1 && |ItemsAt(data, kind, i)| == 0
    ensures Cumulative(data, kind, i) == Cumulative(data, kind, i - 1)
    ensures |ItemsAt(data, kind, i + 1)| > 0 ==>
      Cumulative(data, kind, i + 1) == Cumulative(data, kind, i - 1) + MeanRating(ItemsAt(data, kind, i + 1))
  {
  }

  /** An iteration's mean lies within the range of its items' ratings. */
  lemma MeanRatingBounds(items: seq<PersonaData>, lo: real, hi: real)
    requires |items| > 0
    requires forall x :: x in items ==> lo <= Rating(x) <= hi
    ensures lo <= MeanRating(items) <= hi
  {
    var r := Map(items, Rating);
    var n := |items| as real;
    RatingsWithin(items, lo, hi);
    SumBounds(r, lo, hi);
    assert |r| as real == n;
    MeanBetween(Sum(r), n, lo, hi);
  }

  lemma RatingsWithin(items: seq<PersonaData>, lo: real, hi: real)
    requires forall x :: x in items ==> lo <= Rating(x) <= hi
    ensures forall k :: 0 <= k < |Map(items, Rating)| ==> lo <= Map(items, Rating)[k] <= hi
  {
    forall k | 0 <= k < |Map(items, Rating)|
      ensures lo <= Map(items, Rating)[k] <= hi
    {
      assert items[k] in items;
    }
  }

  // ---------------------------------------------------------------------------
  // The whole computation

  predicate IsFakeItem(x: PersonaData)
  {
    x.isFake
  }

  predicate NotFakeItem(x: PersonaData)
  {
    !x.isFake
  }

  datatype Impact = Impact(averageFake: real, averageReal: real, cumulative: seq<IterationData>,
    fakeExposure: nat, realExposure: nat)

  /** `impactData`, for the personas `getAvailablePersonas()` lists. */
  method ImpactData(data: seq<PersonaData>) returns (result: Impact)
    ensures result.fakeExposure == Count(data, IsFakeItem) && result.realExposure == Count(data, NotFakeItem)
    ensures result.averageFake == AverageChange(data, Dedup(Names(data)), Fake)
    ensures result.averageReal == AverageChange(data, Dedup(Names(data)), Real)
    ensures |result.cumulative| == RowCount(Map(data, Iteration))
    ensures forall j :: 0 <= j < |result.cumulative| ==> result.cumulative[j] == IterationAt(data, j + 1)
  {
    var names := GetAvailablePersonas(data);
    DedupMembers(Names(data));
    forall x | x in data
      ensures x.personaName in names
    {
      var i :| 0 <= i < |data| && data[i] == x;
      assert Names(data)[i] == x.personaName;
    }
    var progress := GroupProgress(data, names);
    var fakeExposure := Count(data, IsFakeItem);
    var realExposure := Count(data, NotFakeItem);
    var totalFake, totalReal := TotalChanges(data, names, progress);
    var fakePersonaCount := Count(names, (n: string) => Moves(data, Fake, n));
    var realPersonaCount := Count(names, (n: string) => Moves(data, Real, n));
    ChangesCount(data, names, Fake);
    ChangesCount(data, names, Real);
    var averageFake, averageReal := 0.0, 0.0;
    if fakePersonaCount > 0 {
      averageFake := totalFake / fakePersonaCount as real;
    }
    if realPersonaCount > 0 {
      averageReal := totalReal / realPersonaCount as real;
    }
    var rows := CumulativeRatings(data, RowCount(Map(data, Iteration)));
    result := Impact(averageFake, averageReal, rows, fakeExposure, realExposure);
  }

  /** The two exposure counts add up to the number of records. */
  lemma ExposuresPartition(data: seq<PersonaData>)
    ensures Count(data, IsFakeItem) + Count(data, NotFakeItem) == |data|
  {
    CountPartition(data, IsFakeItem, NotFakeItem);
  }

  /** On the mock data, which has no fake news, nobody moves on fake news: its average
      change and exposure are 0. */
  lemma MockNoFakeChange()
    ensures AverageChange(MockData(), Dedup(Names(MockData())), Fake) == 0.0
    ensures Count(MockData(), IsFakeItem) == 0
  {
    MockAllReal();
    var names := Dedup(Names(MockData()));
    forall n | n in names
      ensures !Moves(MockData(), Fake, n)
    {
      FilterNone(MockData(), (x: PersonaData) => OwnOfKind(Fake, n, x));
    }
    CountNone(names, (n: string) => Moves(MockData(), Fake, n));
    ChangesCount(MockData(), names, Fake);
    CountNone(MockData(), IsFakeItem);
  }
}
