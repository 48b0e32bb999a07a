/** The initial-sentiment pie chart (pie-chart.tsx): the iteration-1 ratings of the
    selected datasets, counted in three categories around the neutral rating 0.5. */
module PieChart {
  import opened Seqs
  import opened Records

  /** The `dataSource` prop. */
  datatype DataSource = Mixed | Fake | Real | All

  /** `allData`: "all" concatenates the mixed, fake and real datasets in that order; any
      other source selects its own dataset. The three datasets come from a module that
      is not part of this model, so they are parameters. */
  function Selected(source: DataSource, mixedNews: seq<PersonaData>, fakeNews: seq<PersonaData>, realNews: seq<PersonaData>)
    : (r: seq<PersonaData>)
    ensures source == All ==> r == mixedNews + fakeNews + realNews
    ensures source == Mixed ==> r == mixedNews
    ensures source == Fake ==> r == fakeNews
    ensures source == Real ==> r == realNews
  {
    var withMixed := if source == All || source == Mixed then mixedNews else [];
    var withFake := withMixed + (if source == All || source == Fake then fakeNews else []);
    withFake + (if source == All || source == Real then realNews else [])
  }

  function PersonaIdOf(x: PersonaData): int
  {
    x.personaId
  }

  /** `Array.from(new Set(allData.map(item => item.persona_id)))`. */
  function PersonaIds(data: seq<PersonaData>): seq<int>
  {
    Dedup(Map(data, PersonaIdOf))
  }

  predicate IsInitial(x: PersonaData)
  {
    x.iteration == 1
  }

  function InitialOf(personaId: int): PersonaData -> bool
  {
    (x: PersonaData) => x.personaId == personaId && x.iteration == 1
  }

  /** The iteration-1 records of each persona id in `ids`, id after id. */
  function RecordsFor(data: seq<PersonaData>, ids: seq<int>): seq<PersonaData>
  {
    if |ids| == 0 then []
    else RecordsFor(data, ids[..|ids| - 1]) + Filter(data, InitialOf(ids[|ids| - 1]))
  }

  function NormalizedOf(x: PersonaData): real
  {
    x.normalizedCurrentRating
  }

  /** `initialDataPoints`: the normalised ratings of those records (mapping each id's
      records and concatenating is mapping the concatenation). */
  function InitialPoints(data: seq<PersonaData>): seq<real>
  {
    Map(RecordsFor(data, PersonaIds(data)), NormalizedOf)
  }

  /** The points are the iteration-1 records of the data, each exactly once: grouping by
      persona id reorders them but loses and repeats none. */
  lemma InitialPointsFacts(data: seq<PersonaData>)
    ensures multiset(RecordsFor(data, PersonaIds(data))) == multiset(Filter(data, IsInitial))
    ensures |InitialPoints(data)| == Count(data, IsInitial)
    ensures forall x :: x in RecordsFor(data, PersonaIds(data)) <==> x in data && x.iteration == 1
  {
    var ids := PersonaIds(data);
    var records := RecordsFor(data, ids);
    var initial := Filter(data, IsInitial);
    DedupNoDup(Map(data, PersonaIdOf));
    IdsCover(data);
    RecordsForCounts(data, ids);
    forall x
      ensures multiset(records)[x] == multiset(initial)[x]
    {
      FilterMultiset(data, IsInitial, x);
    }
    assert multiset(records) == multiset(initial);
    SameLength(records, initial);
    forall x
      ensures x in records <==> x in data && x.iteration == 1
    {
      FilterMultiset(data, IsInitial, x);
      assert x in records <==> x in multiset(records);
      assert x in data <==> x in multiset(data);
    }
  }

  lemma SameLength<T>(s: seq<T>, t: seq<T>)
    requires multiset(s) == multiset(t)
    ensures |s| == |t|
  {
    assert |multiset(s)| == |s|;
    assert |multiset(t)| == |t|;
  }

  /** Every record's persona id is among the distinct ids; a record not in the data
      occurs there zero times. */
  lemma IdsCover(data: seq<PersonaData>)
    ensures forall x: PersonaData :: x.personaId !in PersonaIds(data) ==> multiset(data)[x] == 0
  {
    DedupMembers(Map(data, PersonaIdOf));
    forall x | multiset(data)[x] > 0
      ensures x.personaId in PersonaIds(data)
    {
      assert x in data;
      var k :| 0 <= k < |data| && data[k] == x;
      assert Map(data, PersonaIdOf)[k] == x.personaId;
    }
  }

  function Occurrences(data: seq<PersonaData>, ids: seq<int>, x: PersonaData): nat
  {
    if x.iteration == 1 && x.personaId in ids then multiset(data)[x] else 0
  }

  /** With distinct ids, a record occurs in `RecordsFor` as often as in the data when it
      is of iteration 1 and its id is listed, and not at all otherwise. */
  lemma {:induction false} RecordsForCounts(data: seq<PersonaData>, ids: seq<int>)
    requires NoDup(ids)
    ensures forall x :: multiset(RecordsFor(data, ids))[x] == Occurrences(data, ids, x)
  {
    if |ids| > 0 {
      var n := |ids| - 1;
      var front := ids[..n];
      assert NoDup(front);
      RecordsForCounts(data, front);
      forall x
        ensures multiset(RecordsFor(data, ids))[x] == Occurrences(data, ids, x)
      {
        FilterMultiset(data, InitialOf(ids[n]), x);
        assert x.personaId in ids <==> x.personaId in front || x.personaId == ids[n];
        assert ids[n] !in front;
      }
    }
  }

  // ---------------------------------------------------------------------------
  // Categories

  predicate Below(r: real) { r < 0.5 }
  predicate AtHalf(r: real) { r == 0.5 }
  predicate Above(r: real) { r > 0.5 }

  /** One slice of the pie: `{ name, value, color }`. */
  datatype Category = Category(name: string, value: nat, color: string)

  const NoName := "No Vaccine (0-0.5)"
  const NeutralName := "Neutral (0.5)"
  const YesName := "Yes Vaccine (0.5-1)"

  /** The three slices before empty ones are dropped, in their fixed order. */
  function AllCategories(points: seq<real>): seq<Category>
  {
    [ Category(NoName, Count(points, Below), "#ef4444"),
      Category(NeutralName, Count(points, AtHalf), "#a3a3a3"),
      Category(YesName, Count(points, Above), "#22c55e") ]
  }

  predicate HasValue(c: Category)
  {
    c.value > 0
  }

  /** The slices with a value, in the order No, Neutral, Yes. */
  function Categories(points: seq<real>): seq<Category>
  {
    Filter(AllCategories(points), HasValue)
  }

  /** `chartData`. */
  function ChartData(source: DataSource, mixedNews: seq<PersonaData>, fakeNews: seq<PersonaData>, realNews: seq<PersonaData>)
    : seq<Category>
  {
    Categories(InitialPoints(Selected(source, mixedNews, fakeNews, realNews)))
  }

  function TotalValue(cs: seq<Category>): nat
  {
    if |cs| == 0 then 0 else TotalValue(cs[..|cs| - 1]) + cs[|cs| - 1].value
  }

  /** Every point falls in exactly one category. */
  lemma {:induction false} CountsPartition(points: seq<real>)
    ensures Count(points, Below) + Count(points, AtHalf) + Count(points, Above) == |points|
  {
    if |points| > 0 {
      var n := |points| - 1;
      CountsPartition(points[..n]);
      CountLast(points, Below);
      CountLast(points, AtHalf);
      CountLast(points, Above);
    }
  }

  /** The slices shown are exactly the non-empty categories, in the fixed order
      No, Neutral, Yes, and their values add up to the number of points. */
  lemma CategoriesFacts(points: seq<real>)
    ensures var cs := Categories(points);
      && Subsequence(cs, AllCategories(points))
      && (forall c :: c in cs ==> c.value > 0)
      && (forall k :: 0 <= k < 3 ==> (AllCategories(points)[k] in cs <==> AllCategories(points)[k].value > 0))
      && TotalValue(cs) == |points|
  {
    var all := AllCategories(points);
    var cs := Categories(points);
    FilterSubsequence(all, HasValue);
    forall k | 0 <= k < 3
      ensures all[k] in cs <==> all[k].value > 0
    {
      FilterMultiset(all, HasValue, all[k]);
      assert all[k] in cs <==> all[k] in multiset(cs);
      assert all[k] in multiset(all);
    }
    TotalFilter(all);
    CountsPartition(points);
    TotalOfThree(all);
  }

  /** Dropping slices of value 0 does not change the total. */
  lemma {:induction false} TotalFilter(all: seq<Category>)
    ensures TotalValue(Filter(all, HasValue)) == TotalValue(all)
  {
    if |all| > 0 {
      var n := |all| - 1;
      FilterLast(all, HasValue);
      TotalFilter(all[..n]);
      TotalAppend(Filter(all[..n], HasValue), if HasValue(all[n]) then [all[n]] else []);
    }
  }

  lemma TotalOfThree(all: seq<Category>)
    requires |all| == 3
    ensures TotalValue(all) == all[0].value + all[1].value + all[2].value
  {
    assert TotalValue(all) == TotalValue(all[..2]) + all[2].value;
    assert all[..2][..1] == all[..1];
    assert TotalValue(all[..2]) == TotalValue(all[..1]) + all[1].value;
    assert all[..1][..0] == [];
  }

  lemma {:induction false} TotalAppend(a: seq<Category>, b: seq<Category>)
    ensures TotalValue(a + b) == TotalValue(a) + TotalValue(b)
  {
    if |b| == 0 {
      assert a + b == a;
    } else {
      var n := |b| - 1;
      assert (a + b)[..|a + b| - 1] == a + b[..n];
      assert (a + b)[|a + b| - 1] == b[n];
      TotalAppend(a, b[..n]);
    }
  }

  /** The edge ratings: 0.0 counts as "No", 0.5 as "Neutral" and 1.0 as "Yes". */
  lemma EdgeRatings()
    ensures Categories([0.0, 0.5, 1.0]) == AllCategories([0.0, 0.5, 1.0])
    ensures forall k :: 0 <= k < 3 ==> AllCategories([0.0, 0.5, 1.0])[k].value == 1
  {
    var points := [0.0, 0.5, 1.0];
    CountOfThree(0.0, 0.5, 1.0, Below);
    CountOfThree(0.0, 0.5, 1.0, AtHalf);
    CountOfThree(0.0, 0.5, 1.0, Above);
    FilterAll(AllCategories(points), HasValue);
  }

  function Indicator(b: bool): nat
  {
    if b then 1 else 0
  }

  lemma CountOfThree(a: real, b: real, c: real, p: real -> bool)
    ensures Count([a, b, c], p) == Indicator(p(a)) + Indicator(p(b)) + Indicator(p(c))
  {
    var s := [a, b, c];
    CountLast(s, p);
    CountLast(s[..2], p);
    CountLast(s[..1], p);
    assert s[..2][..1] == s[..1];
    assert s[..1][..0] == [];
  }

  /** The chart of the selected data counts each of its iteration-1 records once. */
  lemma ChartDataTotal(source: DataSource, mixedNews: seq<PersonaData>, fakeNews: seq<PersonaData>, realNews: seq<PersonaData>)
    ensures TotalValue(ChartData(source, mixedNews, fakeNews, realNews)) == Count(Selected(source, mixedNews, fakeNews, realNews), IsInitial)
  {
    var data := Selected(source, mixedNews, fakeNews, realNews);
    InitialPointsFacts(data);
    CategoriesFacts(InitialPoints(data));
  }
}
