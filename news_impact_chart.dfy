/** The news-impact chart (news-impact-chart.tsx): the records of one news type, grouped
    into one line per persona and news type, filled out to one row per iteration from 1
    to the largest iteration with the line-extension rule of `FillForward`. */
module NewsImpactChart {
  import opened Wrappers
  import opened Seqs
  import opened Records
  import opened Grouping
  import opened FillForward

  /** The news-type toggle. */
  datatype NewsFilter = FakeNews | RealNews

  /** 'fake' keeps what is not real news, 'real' keeps what is. */
  predicate Keeps(filter: NewsFilter, x: PersonaData)
  {
    match filter
    case FakeNews => !x.isReal
    case RealNews => x.isReal
  }

  function FilteredData(data: seq<PersonaData>, filter: NewsFilter): seq<PersonaData>
  {
    Filter(data, (x: PersonaData) => Keeps(filter, x))
  }

  /** The filter keeps every copy of each record of the selected type, in order, and
      nothing else. */
  lemma FilteredExact(data: seq<PersonaData>, filter: NewsFilter)
    ensures forall x :: x in FilteredData(data, filter) <==> x in data && Keeps(filter, x)
    ensures forall x :: multiset(FilteredData(data, filter))[x] == if Keeps(filter, x) then multiset(data)[x] else 0
    ensures Subsequence(FilteredData(data, filter), data)
  {
    var p := (x: PersonaData) => Keeps(filter, x);
    forall x
      ensures multiset(FilteredData(data, filter))[x] == if Keeps(filter, x) then multiset(data)[x] else 0
    {
      FilterMultiset(data, p, x);
    }
    FilterSubsequence(data, p);
  }

  /** `${persona_name}_${is_real ? 'real' : 'fake'}`. */
  function GroupKey(x: PersonaData): string
  {
    x.personaName + (if x.isReal then "_real" else "_fake")
  }

  /** Two records share a line exactly when they have the same persona name and the same
      news type. */
  lemma GroupKeyInjective(x: PersonaData, y: PersonaData)
    ensures GroupKey(x) == GroupKey(y) <==> x.personaName == y.personaName && x.isReal == y.isReal
  {
    var sx := if x.isReal then "_real" else "_fake";
    var sy := if y.isReal then "_real" else "_fake";
    if GroupKey(x) == GroupKey(y) {
      var n := |GroupKey(x)|;
      assert |x.personaName| == |y.personaName|;
      assert GroupKey(x)[n - 4] == sx[1] && GroupKey(y)[n - 4] == sy[1];
      assert x.isReal == y.isReal;
      assert x.personaName == GroupKey(x)[..|x.personaName|] == GroupKey(y)[..|y.personaName|] == y.personaName;
    }
  }

  /** A line's records: those of the filtered data with its key, in order. */
  function Group(filtered: seq<PersonaData>, key: string): seq<PersonaData>
  {
    Filter(filtered, (x: PersonaData) => GroupKey(x) == key)
  }

  /** The line keys in order of first appearance; `Object.entries` keeps that order,
      since no key is an array index (each ends in `_real` or `_fake`). */
  function GroupKeys(filtered: seq<PersonaData>): seq<string>
  {
    Dedup(Map(filtered, GroupKey))
  }

  /** `groupedData`: every record pushed onto its line's list. */
  method GroupRecords(filtered: seq<PersonaData>) returns (keys: seq<string>, groups: map<string, seq<PersonaData>>)
    ensures keys == GroupKeys(filtered)
    ensures forall k :: k in groups <==> k in keys
    ensures forall k :: k in groups ==> groups[k] == Group(filtered, k)
  {
    keys, groups := GroupFold(filtered, GroupKey, (k: string) => [], Push);
    forall k | k in groups
      ensures groups[k] == Group(filtered, k)
    {
      FoldPush(filtered, GroupKey, k, (x: PersonaData) => GroupKey(x) == k);
    }
  }

  /** Each record lies on the line of its own key, and every record on a line has the
      line's persona and news type. */
  lemma GroupMembers(filtered: seq<PersonaData>, x: PersonaData)
    requires x in filtered
    ensures GroupKey(x) in GroupKeys(filtered)
    ensures x in Group(filtered, GroupKey(x))
    ensures forall y :: y in Group(filtered, GroupKey(x)) ==> y.personaName == x.personaName && y.isReal == x.isReal
  {
    DedupMembers(Map(filtered, GroupKey));
    var i :| 0 <= i < |filtered| && filtered[i] == x;
    assert Map(filtered, GroupKey)[i] == GroupKey(x);
    FilterMultiset(filtered, (y: PersonaData) => GroupKey(y) == GroupKey(x), x);
    assert x in multiset(filtered);
    forall y | y in Group(filtered, GroupKey(x))
      ensures y.personaName == x.personaName && y.isReal == x.isReal
    {
      GroupKeyInjective(x, y);
    }
  }

  /** A listed key has records. */
  lemma GroupNonEmpty(filtered: seq<PersonaData>, key: string)
    requires key in GroupKeys(filtered)
    ensures |Group(filtered, key)| > 0
  {
    DedupMembers(Map(filtered, GroupKey));
    var i :| 0 <= i < |filtered| && Map(filtered, GroupKey)[i] == key;
    FilterMultiset(filtered, (y: PersonaData) => GroupKey(y) == key, filtered[i]);
    assert filtered[i] in multiset(filtered);
  }

  /** A line's records sorted by iteration, as the fill reads them. */
  function Line(filtered: seq<PersonaData>, key: string): (r: seq<PersonaData>)
    requires key in GroupKeys(filtered)
    ensures |r| > 0
  {
    GroupNonEmpty(filtered, key);
    SortLength(Group(filtered, key), IterationKey);
    SortByKey(Group(filtered, key), IterationKey)
  }

  /** The sorted lines, in key order. */
  function Lines(filtered: seq<PersonaData>): (r: seq<seq<PersonaData>>)
    ensures |r| == |GroupKeys(filtered)|
    ensures AllNonEmpty(r)
  {
    var keys := GroupKeys(filtered);
    seq(|keys|, p requires 0 <= p < |keys| => Line(filtered, keys[p]))
  }

  /** What the tooltip keeps of a record under `${key}_data`. */
  datatype Detail = Detail(reaction: string, article: string, reason: string)

  function DetailOf(x: PersonaData): Detail
  {
    Detail(x.reaction, x.article, x.reason)
  }

  /** One element of the chart data: the iteration, each line's normalised rating
      (`row[key]`) and its tooltip data (`row[key + '_data']`). */
  datatype NewsRow = NewsRow(iteration: int, values: map<string, real>, details: map<string, Detail>)

  /** The two properties a cell writes come from the same record. */
  function NewsRowOf(r: Row): NewsRow
  {
    NewsRow(r.iteration,
      map k | k in r.cells :: r.cells[k].normalizedCurrentRating,
      map k | k in r.cells :: DetailOf(r.cells[k]))
  }

  /** `prepareChartData()`. */
  method NewsChartData(data: seq<PersonaData>, filter: NewsFilter) returns (rows: seq<NewsRow>)
    ensures |rows| == RowCount(Map(FilteredData(data, filter), Iteration))
    ensures forall j :: 0 <= j < |rows| ==>
      var filtered := FilteredData(data, filter);
      rows[j] == NewsRowOf(Row(j + 1, CellsAt(GroupKeys(filtered), Lines(filtered), j + 1)))
  {
    var filtered := Filter(data, (x: PersonaData) => Keeps(filter, x));
    var maxIteration := RowCount(Map(filtered, Iteration));
    var keys, groups := GroupRecords(filtered);
    var series := seq(|keys|, p requires 0 <= p < |keys| => SortByKey(groups[keys[p]], IterationKey));
    assert series == Lines(filtered);
    var filled := FillRows(keys, series, maxIteration);
    RowsInOrder(filled);
    rows := Map(filled, NewsRowOf);
  }

  /** At every row, a line shows a value exactly when `FillForward.ValueAt` gives its
      sorted records one there: that record's normalised rating, with the same record's
      reaction, article and reason as tooltip data. Every value has its tooltip data and
      no key but a line's appears. */
  lemma NewsCells(filtered: seq<PersonaData>, i: int)
    ensures var keys := GroupKeys(filtered);
      var r := NewsRowOf(Row(i, CellsAt(keys, Lines(filtered), i)));
      && r.iteration == i
      && r.values.Keys == r.details.Keys
      && (forall k :: k in r.values ==> k in keys)
      && (forall p :: 0 <= p < |keys| ==>
        && (keys[p] in r.values <==> ValueAt(Line(filtered, keys[p]), i).Some?)
        && (keys[p] in r.values ==>
          && r.values[keys[p]] == ValueAt(Line(filtered, keys[p]), i).value.normalizedCurrentRating
          && r.details[keys[p]] == DetailOf(ValueAt(Line(filtered, keys[p]), i).value)))
  {
    var keys := GroupKeys(filtered);
    DedupNoDup(Map(filtered, GroupKey));
    CellsAtFacts(keys, Lines(filtered), i);
  }

  /** Every iteration of the selected records gets a row, and an empty selection gets
      none. */
  lemma RowsCover(data: seq<PersonaData>, filter: NewsFilter, x: PersonaData)
    requires x in FilteredData(data, filter) && x.iteration >= 1
    ensures x.iteration <= RowCount(Map(FilteredData(data, filter), Iteration))
  {
    var filtered := FilteredData(data, filter);
    var i :| 0 <= i < |filtered| && filtered[i] == x;
    assert Map(filtered, Iteration)[i] == x.iteration;
    RowCountCovers(Map(filtered, Iteration), x.iteration);
  }

  /** The mock data holds only real news, so the 'fake' view has no rows at all and the
      'real' view keeps every record. */
  lemma MockViews()
    ensures RowCount(Map(FilteredData(MockData(), FakeNews), Iteration)) == 0
    ensures FilteredData(MockData(), RealNews) == MockData()
  {
    MockAllReal();
    FilterNone(MockData(), (x: PersonaData) => Keeps(FakeNews, x));
    FilterAll(MockData(), (x: PersonaData) => Keeps(RealNews, x));
  }
}
