/** The line-extension fill that the reaction-shift chart (reactation-shift.tsx) and the
    news-impact chart (news-impact-chart.tsx) share: one row per iteration from 1 to the
    largest iteration, and in it, per series, the series' own record for that iteration,
    or its last record carried forward once the series has ended. */
module FillForward {
  import opened Wrappers
  import opened Seqs
  import opened Records

  function Iteration(d: PersonaData): int
  {
    d.iteration
  }

  function IterationKey(d: PersonaData): real
  {
    d.iteration as real
  }

  /** Sorted by iteration, a list starts at a record of least iteration and ends at one
      of greatest. */
  lemma SortedExtremes(own: seq<PersonaData>)
    requires |own| > 0
    ensures var sorted := SortByKey(own, IterationKey);
      && |sorted| == |own|
      && sorted[0] in own && sorted[|sorted| - 1] in own
      && forall y :: y in own ==> sorted[0].iteration <= y.iteration <= sorted[|sorted| - 1].iteration
  {
    var sorted := SortByKey(own, IterationKey);
    SortLength(own, IterationKey);
    SortMembers(own, IterationKey);
    SortSorted(own, IterationKey);
    SortedEnds(sorted, IterationKey);
    assert sorted[0] in sorted && sorted[|sorted| - 1] in sorted;
  }

  /** `Math.max(...iterations)` used as the bound of `for (i = 1; i <= max; i++)`: the
      number of rows. The maximum of nothing is `-Infinity`, which gives no rows. */
  function RowCount(iterations: seq<int>): (n: nat)
    ensures |iterations| == 0 ==> n == 0
    ensures |iterations| > 0 ==> n == (if MaxOf(iterations) > 0 then MaxOf(iterations) else 0)
  {
    if |iterations| == 0 then 0
    else
      var m := MaxOf(iterations);
      if m > 0 then m else 0
  }

  /** Every iteration from 1 on that occurs gets a row. */
  lemma RowCountCovers(iterations: seq<int>, x: int)
    requires x in iterations && x >= 1
    ensures x <= RowCount(iterations)
  {
  }

  /** `series.find(d => d.iteration === i)`: the first record of iteration `i`. */
  function FirstAt(series: seq<PersonaData>, i: int): (r: Option<PersonaData>)
    ensures r.Some? <==> i in Map(series, Iteration)
    ensures r.Some? ==> r.value in series && r.value.iteration == i
    ensures r.Some? ==>
      exists k :: 0 <= k < |series| && series[k] == r.value && (forall j :: 0 <= j < k ==> series[j].iteration != i)
  {
    var its := Map(series, Iteration);
    var k := IndexOf(its, i);
    if k < 0 then None else Some(series[k])
  }

  /** What a series shows at iteration `i`: its own record there, else its last record
      when `i` is past that record's iteration, else nothing (a gap). */
  function ValueAt(series: seq<PersonaData>, i: int): Option<PersonaData>
    requires |series| > 0
  {
    var own := FirstAt(series, i);
    var last := series[|series| - 1];
    if own.Some? then own
    else if i > last.iteration then Some(last)
    else None
  }

  predicate AllNonEmpty(series: seq<seq<PersonaData>>)
  {
    forall p :: 0 <= p < |series| ==> |series[p]| > 0
  }

  /** One row of the combined chart data: its iteration and the value of each series
      that has one there, by series key. */
  datatype Row = Row(iteration: int, cells: map<string, PersonaData>)

  /** The cells of iteration `i`, filled series after series. */
  function CellsAt(keys: seq<string>, series: seq<seq<PersonaData>>, i: int): map<string, PersonaData>
    requires |keys| == |series| && AllNonEmpty(series)
  {
    if |keys| == 0 then map[]
    else
      var n := |keys| - 1;
      var m := CellsAt(keys[..n], series[..n], i);
      var v := ValueAt(series[n], i);
      if v.Some? then m[keys[n] := v.value] else m
  }

  /** Filling one more series extends the cells of every iteration by that series'
      value. */
  lemma CellsStep(keys: seq<string>, series: seq<seq<PersonaData>>, p: nat, i: int)
    requires |keys| == |series| && AllNonEmpty(series) && p < |keys|
    ensures var m := CellsAt(keys[..p], series[..p], i);
      var v := ValueAt(series[p], i);
      CellsAt(keys[..p + 1], series[..p + 1], i) == if v.Some? then m[keys[p] := v.value] else m
  {
    assert keys[..p + 1][..p] == keys[..p];
    assert series[..p + 1][..p] == series[..p];
  }

  /** With distinct keys, a key's cell is exactly that series' value. */
  lemma CellsAtFacts(keys: seq<string>, series: seq<seq<PersonaData>>, i: int)
    requires |keys| == |series| && AllNonEmpty(series) && NoDup(keys)
    ensures forall k :: k in CellsAt(keys, series, i) ==> k in keys
    ensures forall p :: 0 <= p < |keys| ==>
      && (keys[p] in CellsAt(keys, series, i) <==> ValueAt(series[p], i).Some?)
      && (keys[p] in CellsAt(keys, series, i) ==> CellsAt(keys, series, i)[keys[p]] == ValueAt(series[p], i).value)
  {
    CellsAtKeys(keys, series, i);
    forall p | 0 <= p < |keys|
      ensures keys[p] in CellsAt(keys, series, i) <==> ValueAt(series[p], i).Some?
      ensures keys[p] in CellsAt(keys, series, i) ==> CellsAt(keys, series, i)[keys[p]] == ValueAt(series[p], i).value
    {
      CellAt(keys, series, i, p);
    }
  }

  lemma {:induction false} CellsAtKeys(keys: seq<string>, series: seq<seq<PersonaData>>, i: int)
    requires |keys| == |series| && AllNonEmpty(series)
    ensures forall k :: k in CellsAt(keys, series, i) ==> k in keys
  {
    if |keys| > 0 {
      var n := |keys| - 1;
      assert AllNonEmpty(series[..n]);
      CellsAtKeys(keys[..n], series[..n], i);
      assert forall k :: k in keys[..n] ==> k in keys;
    }
  }

  lemma {:induction false} CellAt(keys: seq<string>, series: seq<seq<PersonaData>>, i: int, p: nat)
    requires |keys| == |series| && AllNonEmpty(series) && NoDup(keys) && p < |keys|
    ensures keys[p] in CellsAt(keys, series, i) <==> ValueAt(series[p], i).Some?
    ensures keys[p] in CellsAt(keys, series, i) ==> CellsAt(keys, series, i)[keys[p]] == ValueAt(series[p], i).value
  {
    var n := |keys| - 1;
    var m := CellsAt(keys[..n], series[..n], i);
    var v := ValueAt(series[n], i);
    assert CellsAt(keys, series, i) == if v.Some? then m[keys[n] := v.value] else m;
    if p < n {
      assert NoDup(keys[..n]);
      assert AllNonEmpty(series[..n]);
      assert keys[..n][p] == keys[p] && series[..n][p] == series[p];
      assert keys[p] != keys[n];
      CellAt(keys[..n], series[..n], i, p);
    } else {
      assert AllNonEmpty(series[..n]);
      CellsAtKeys(keys[..n], series[..n], i);
      assert keys[n] !in keys[..n];
    }
  }

  /** The rows of iterations 1 to `maxIteration`: every row starts as `{ iteration: i }`,
      then each series in turn writes its value into every row where it has one. */
  method FillRows(keys: seq<string>, series: seq<seq<PersonaData>>, maxIteration: int) returns (rows: seq<Row>)
    requires |keys| == |series| && AllNonEmpty(series)
    ensures |rows| == (if maxIteration > 0 then maxIteration else 0)
    ensures forall j :: 0 <= j < |rows| ==> rows[j] == Row(j + 1, CellsAt(keys, series, j + 1))
  {
    var count := if maxIteration > 0 then maxIteration else 0;
    rows := seq(count, j => Row(j + 1, map[]));
    for p := 0 to |keys|
      invariant |rows| == count
      invariant forall j :: 0 <= j < count ==> rows[j] == Row(j + 1, CellsAt(keys[..p], series[..p], j + 1))
    {
      rows := FillSeries(rows, keys, series, p);
    }
    assert keys[..|keys|] == keys && series[..|series|] == series;
  }

  /** The inner loop: series `p` writes its value into every row that gets one. */
  method FillSeries(rows: seq<Row>, keys: seq<string>, series: seq<seq<PersonaData>>, p: nat)
    returns (rows': seq<Row>)
    requires |keys| == |series| && AllNonEmpty(series) && p < |keys|
    requires forall j :: 0 <= j < |rows| ==> rows[j] == Row(j + 1, CellsAt(keys[..p], series[..p], j + 1))
    ensures |rows'| == |rows|
    ensures forall j :: 0 <= j < |rows| ==> rows'[j] == Row(j + 1, CellsAt(keys[..p + 1], series[..p + 1], j + 1))
  {
    rows' := rows;
    for i := 1 to |rows| + 1
      invariant |rows'| == |rows|
      invariant forall j :: 0 <= j < i - 1 ==> rows'[j] == Row(j + 1, CellsAt(keys[..p + 1], series[..p + 1], j + 1))
      invariant forall j :: i - 1 <= j < |rows| ==> rows'[j] == rows[j]
    {
      var v := ValueAt(series[p], i);
      if v.Some? {
        rows' := rows'[i - 1 := Row(i, rows'[i - 1].cells[keys[p] := v.value])];
      }
      CellsStep(keys, series, p, i);
    }
  }

  function RowKey(r: Row): real
  {
    r.iteration as real
  }

  /** `Object.values(rows).sort(by iteration)` leaves the filled rows as they are: they
      are already in iteration order. */
  lemma RowsInOrder(rows: seq<Row>)
    requires forall j :: 0 <= j < |rows| ==> rows[j].iteration == j + 1
    ensures SortByKey(rows, RowKey) == rows
  {
    SortOfSorted(rows, RowKey);
  }

  // ---------------------------------------------------------------------------
  // What the fill shows

  /** A series that has a record at iteration `i` shows its first such record there. */
  lemma ValueAtOwn(series: seq<PersonaData>, i: int, k: nat)
    requires k < |series| && series[k].iteration == i
    ensures ValueAt(series, i).Some? && ValueAt(series, i).value.iteration == i
    ensures ValueAt(series, i).value == FirstAt(series, i).value
  {
    assert Map(series, Iteration)[k] == i;
  }

  /** Past the last iteration of a series sorted by iteration, its final record is
      extended flat. */
  lemma ValueAfterLast(series: seq<PersonaData>, i: int)
    requires |series| > 0 && SortedBy(series, IterationKey)
    requires i > series[|series| - 1].iteration
    ensures ValueAt(series, i) == Some(series[|series| - 1])
  {
    forall k | 0 <= k < |series|
      ensures Map(series, Iteration)[k] != i
    {
      if k < |series| - 1 {
        assert IterationKey(series[k]) <= IterationKey(series[|series| - 1]);
      }
    }
  }

  /** Inside the span of a series, an iteration without a record of its own stays
      empty: the fill never interpolates. */
  lemma ValueInGap(series: seq<PersonaData>, i: int)
    requires |series| > 0
    requires i <= series[|series| - 1].iteration
    requires forall k :: 0 <= k < |series| ==> series[k].iteration != i
    ensures ValueAt(series, i).None?
  {
  }

  /** A series with one record per iteration 1, 2, ..., n shows a value at every
      iteration from 1 on: record i up to n, then record n. */
  lemma ValueOfConsecutive(series: seq<PersonaData>, i: int)
    requires |series| > 0 && i >= 1
    requires forall k :: 0 <= k < |series| ==> series[k].iteration == k + 1
    ensures ValueAt(series, i) == Some(series[if i <= |series| then i - 1 else |series| - 1])
  {
    if i <= |series| {
      ValueAtOwn(series, i, i - 1);
    } else {
      assert forall k :: 0 <= k < |series| ==> Map(series, Iteration)[k] != i;
    }
  }
}
