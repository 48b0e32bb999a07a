/** The persona-trajectory line chart (line-chart.tsx): one row per iteration holding the
    current rating of every selected persona there, and the selection of personas that
    the chart's buttons toggle. */
module LineChart {
  import opened Wrappers
  import opened Seqs
  import opened Records
  import opened FillForward
  import opened ChartColors

  // ---------------------------------------------------------------------------
  // Chart rows

  /** One value of `iterationMap`: `{ iteration, [persona]: current_rating, ... }`. */
  datatype LineRow = LineRow(iteration: int, ratings: map<string, real>)

  /** The ratings of iteration `i` after the second pass over `data`: each record of
      iteration `i` by a selected persona writes its rating, a later one over an
      earlier one. */
  function Ratings(data: seq<PersonaData>, selected: seq<string>, i: int): map<string, real>
  {
    if |data| == 0 then map[]
    else
      Write(Ratings(data[..|data| - 1], selected, i), selected, i, data[|data| - 1])
  }

  /** What one record does to the ratings of iteration `i`. */
  function Write(m: map<string, real>, selected: seq<string>, i: int, item: PersonaData): map<string, real>
  {
    if item.iteration == i && item.personaName in selected then m[item.personaName := item.currentRating] else m
  }

  /** The rows of the iterations in `order`, each with its ratings. */
  function RowsOf(data: seq<PersonaData>, selected: seq<string>, order: seq<int>): (rows: seq<LineRow>)
    ensures |rows| == |order|
    ensures forall j :: 0 <= j < |order| ==> rows[j] == LineRow(order[j], Ratings(data, selected, order[j]))
  {
    seq(|order|, j requires 0 <= j < |order| => LineRow(order[j], Ratings(data, selected, order[j])))
  }

  /** The iterations in order of first occurrence: the key order of `iterationMap`. */
  function IterationOrder(data: seq<PersonaData>): seq<int>
  {
    Dedup(Map(data, Iteration))
  }

  function LineRowKey(r: LineRow): real
  {
    r.iteration as real
  }

  /** The chart data: the rows in key order, sorted by iteration. */
  function ChartRows(data: seq<PersonaData>, selected: seq<string>): seq<LineRow>
  {
    SortByKey(RowsOf(data, selected, IterationOrder(data)), LineRowKey)
  }

  /** `prepareChartData`: the first pass creates a row for every iteration that occurs,
      the second writes the selected personas' ratings into them. */
  method PrepareChartData(data: seq<PersonaData>, selected: seq<string>) returns (rows: seq<LineRow>)
    ensures rows == ChartRows(data, selected)
  {
    var iterationMap, order := CreateRows(data);
    OrderMembers(data);
    iterationMap := WriteRatings(data, selected, iterationMap, order);
    var values := seq(|order|, j requires 0 <= j < |order| => iterationMap[order[j]]);
    assert values == RowsOf(data, selected, order);
    rows := SortByKey(values, LineRowKey);
  }

  /** The first pass: an empty row for every iteration, in order of first occurrence. */
  method CreateRows(data: seq<PersonaData>) returns (iterationMap: map<int, LineRow>, order: seq<int>)
    ensures order == IterationOrder(data)
    ensures forall i :: i in iterationMap <==> i in order
    ensures forall i :: i in iterationMap ==> iterationMap[i] == LineRow(i, map[])
  {
    iterationMap := map[];
    order := [];
    for k := 0 to |data|
      invariant order == IterationOrder(data[..k])
      invariant forall i :: i in iterationMap <==> i in order
      invariant forall i :: i in iterationMap ==> iterationMap[i] == LineRow(i, map[])
    {
      OrderStep(data, k);
      if data[k].iteration !in iterationMap {
        iterationMap := iterationMap[data[k].iteration := LineRow(data[k].iteration, map[])];
        order := order + [data[k].iteration];
      }
    }
    assert data[..|data|] == data;
  }

  /** The second pass: each record of a selected persona writes its rating into the row
      of its iteration. */
  method WriteRatings(data: seq<PersonaData>, selected: seq<string>, rows: map<int, LineRow>, order: seq<int>)
    returns (iterationMap: map<int, LineRow>)
    requires forall k :: 0 <= k < |data| ==> data[k].iteration in order
    requires forall i :: i in rows <==> i in order
    requires forall i :: i in rows ==> rows[i] == LineRow(i, map[])
    ensures forall i :: i in iterationMap <==> i in order
    ensures forall i :: i in iterationMap ==> iterationMap[i] == LineRow(i, Ratings(data, selected, i))
  {
    iterationMap := rows;
    for k := 0 to |data|
      invariant forall i :: i in iterationMap <==> i in order
      invariant forall i :: i in iterationMap ==> iterationMap[i] == LineRow(i, Ratings(data[..k], selected, i))
    {
      var item := data[k];
      RatingsStep(data, selected, k);
      if item.personaName in selected {
        var iterationObj := iterationMap[item.iteration];
        iterationMap := iterationMap[item.iteration := iterationObj.(ratings := iterationObj.ratings[item.personaName := item.currentRating])];
      }
    }
    assert data[..|data|] == data;
  }

  /** One more record changes only the ratings of its own iteration, and only when its
      persona is selected. */
  lemma RatingsStep(data: seq<PersonaData>, selected: seq<string>, k: nat)
    requires k < |data|
    ensures forall i :: Ratings(data[..k + 1], selected, i) == Write(Ratings(data[..k], selected, i), selected, i, data[k])
  {
    assert data[..k + 1][..k] == data[..k];
  }

  /** One more record adds its iteration to the key order unless it is already there. */
  lemma OrderStep(data: seq<PersonaData>, k: nat)
    requires k < |data|
    ensures IterationOrder(data[..k + 1]) ==
      var o := IterationOrder(data[..k]);
      if data[k].iteration in o then o else o + [data[k].iteration]
  {
    var s := Map(data[..k + 1], Iteration);
    assert s[..|s| - 1] == Map(data[..k], Iteration);
  }

  /** Every iteration of the data, and nothing else, is in the key order, once. */
  lemma OrderMembers(data: seq<PersonaData>)
    ensures forall i :: i in IterationOrder(data) <==> i in Map(data, Iteration)
    ensures NoDup(IterationOrder(data))
    ensures forall k :: 0 <= k < |data| ==> data[k].iteration in IterationOrder(data)
  {
    DedupMembers(Map(data, Iteration));
    DedupNoDup(Map(data, Iteration));
    forall k | 0 <= k < |data|
      ensures data[k].iteration in IterationOrder(data)
    {
      assert Map(data, Iteration)[k] == data[k].iteration;
    }
  }

  /** One row per distinct iteration, strictly ascending, each holding the ratings of
      its iteration. */
  lemma ChartRowsFacts(data: seq<PersonaData>, selected: seq<string>)
    ensures var rows := ChartRows(data, selected);
      && |rows| == |IterationOrder(data)|
      && (forall j, k :: 0 <= j < k < |rows| ==> rows[j].iteration < rows[k].iteration)
      && (forall j :: 0 <= j < |rows| ==> rows[j].iteration in Map(data, Iteration))
      && (forall j :: 0 <= j < |rows| ==> rows[j].ratings == Ratings(data, selected, rows[j].iteration))
  {
    var order := IterationOrder(data);
    var unsorted := RowsOf(data, selected, order);
    var rows := ChartRows(data, selected);
    OrderMembers(data);
    SortLength(unsorted, LineRowKey);
    SortMembers(unsorted, LineRowKey);
    forall j, k | 0 <= j < k < |unsorted|
      ensures LineRowKey(unsorted[j]) != LineRowKey(unsorted[k])
    {
      assert order[j] != order[k];
    }
    SortDistinctKeys(unsorted, LineRowKey);
    forall j | 0 <= j < |rows|
      ensures rows[j].iteration in Map(data, Iteration)
      ensures rows[j].ratings == Ratings(data, selected, rows[j].iteration)
    {
      assert rows[j] in unsorted;
      var m := IndexOf(unsorted, rows[j]);
      assert order[m] in order;
    }
  }

  /** Every iteration of the data has its row. */
  lemma EveryIterationHasRow(data: seq<PersonaData>, selected: seq<string>, k: nat)
    requires k < |data|
    ensures exists j :: 0 <= j < |ChartRows(data, selected)| && ChartRows(data, selected)[j].iteration == data[k].iteration
  {
    var order := IterationOrder(data);
    var unsorted := RowsOf(data, selected, order);
    OrderMembers(data);
    var m := IndexOf(order, data[k].iteration);
    SortMembers(unsorted, LineRowKey);
    assert unsorted[m] in ChartRows(data, selected);
  }

  function Matches(i: int, name: string): PersonaData -> bool
  {
    (x: PersonaData) => x.iteration == i && x.personaName == name
  }

  /** Only selected personas get ratings; a selected persona has one at iteration `i`
      exactly when it has a record there, and then it is the rating of its last such
      record, which `j` names. */
  lemma {:induction false} RatingsFacts(data: seq<PersonaData>, selected: seq<string>, i: int, name: string)
    returns (j: int)
    ensures forall n :: n in Ratings(data, selected, i) ==> n in selected
    ensures -1 <= j < |data|
    ensures name in Ratings(data, selected, i) <==> j >= 0
    ensures j >= 0 ==>
      && name in selected && Matches(i, name)(data[j])
      && Ratings(data, selected, i)[name] == data[j].currentRating
      && forall k :: j < k < |data| ==> !Matches(i, name)(data[k])
    ensures j < 0 ==> name !in selected || forall k :: 0 <= k < |data| ==> !Matches(i, name)(data[k])
  {
    if |data| == 0 {
      j := -1;
    } else {
      var n := |data| - 1;
      var front := data[..n];
      var j' := RatingsFacts(front, selected, i, name);
      var item := data[n];
      if Matches(i, name)(item) && name in selected {
        j := n;
      } else {
        j := j';
        assert forall k :: 0 <= k < n ==> front[k] == data[k];
      }
    }
  }

  // ---------------------------------------------------------------------------
  // Selection

  function Other(persona: string): string -> bool
  {
    (p: string) => p != persona
  }

  /** `togglePersona`'s update: a selected persona is removed, any other is appended at
      the end; the rest of the selection stays as it was, in the same order. */
  function Toggle(prev: seq<string>, persona: string): (r: seq<string>)
    ensures persona in prev ==> persona !in r && Subsequence(r, prev)
    ensures persona !in prev ==> r == prev + [persona]
    ensures forall n :: n != persona ==> multiset(r)[n] == multiset(prev)[n]
  {
    if persona in prev then
      FilterSubsequence(prev, Other(persona));
      FilterCounts(prev, persona);
      Filter(prev, Other(persona))
    else prev + [persona]
  }

  lemma FilterCounts(prev: seq<string>, persona: string)
    ensures persona !in Filter(prev, Other(persona))
    ensures forall n :: n != persona ==> multiset(Filter(prev, Other(persona)))[n] == multiset(prev)[n]
  {
    forall n | n != persona
      ensures multiset(Filter(prev, Other(persona)))[n] == multiset(prev)[n]
    {
      FilterMultiset(prev, Other(persona), n);
    }
  }

  /** Toggling the same persona twice restores the set of selected personas, and the
      very selection when the persona was not selected. */
  lemma ToggleTwice(prev: seq<string>, persona: string)
    ensures forall n :: n in Toggle(Toggle(prev, persona), persona) <==> n in prev
    ensures persona !in prev ==> Toggle(Toggle(prev, persona), persona) == prev
  {
    var once := Toggle(prev, persona);
    var twice := Toggle(once, persona);
    forall n
      ensures n in twice <==> n in prev
    {
      assert n in twice <==> n in multiset(twice);
      assert n in once <==> n in multiset(once);
      assert n in prev <==> n in multiset(prev);
    }
    if persona !in prev {
      FilterAll(prev, Other(persona));
      FilterAppend(prev, [persona], Other(persona));
      assert Filter([persona], Other(persona)) == [];
    }
  }

  /** Toggling keeps a selection free of repeats. */
  lemma ToggleNoDup(prev: seq<string>, persona: string)
    requires NoDup(prev)
    ensures NoDup(Toggle(prev, persona))
  {
    var r := Toggle(prev, persona);
    if persona in prev {
      forall i, j | 0 <= i < j < |r|
        ensures r[i] != r[j]
      {
        if r[i] == r[j] {
          assert r[i] != persona;
          NoDupOnce(prev, r[i]);
          MultisetTwice(r, i, j);
        }
      }
    }
  }

  lemma MultisetTwice<T>(s: seq<T>, i: nat, j: nat)
    requires i < j < |s| && s[i] == s[j]
    ensures multiset(s)[s[i]] >= 2
  {
    var x := s[i];
    assert s == s[..i] + [x] + s[i + 1..j] + [x] + s[j + 1..];
  }

  /** The chart component's state: the data, the available personas and the selection. */
  class PersonaTrajectories {
    const data: seq<PersonaData>
    const availablePersonas: seq<string>
    var selectedPersonas: seq<string>

    /** The selection holds no repeats and only available personas. */
    predicate Valid()
      reads this
    {
      NoDup(selectedPersonas) && forall n :: n in selectedPersonas ==> n in availablePersonas
    }

    /** `useState(availablePersonas)`: every available persona starts selected. */
    constructor (data: seq<PersonaData>)
      ensures this.data == data
      ensures availablePersonas == Dedup(Names(data))
      ensures selectedPersonas == availablePersonas
      ensures Valid()
    {
      this.data := data;
      availablePersonas := Dedup(Names(data));
      selectedPersonas := Dedup(Names(data));
      new;
      DedupNoDup(Names(data));
    }

    /** `togglePersona`, called by the button of an available persona. */
    method TogglePersona(persona: string)
      requires Valid() && persona in availablePersonas
      modifies this
      ensures selectedPersonas == Toggle(old(selectedPersonas), persona)
      ensures Valid()
    {
      ToggleNoDup(selectedPersonas, persona);
      selectedPersonas := Toggle(selectedPersonas, persona);
      assert forall n :: n in selectedPersonas ==> n in old(selectedPersonas) || n == persona by {
        forall n | n in selectedPersonas
          ensures n in old(selectedPersonas) || n == persona
        {
          assert n in multiset(selectedPersonas);
        }
      }
    }

    /** `chartData` for the current selection. */
    method ChartData() returns (rows: seq<LineRow>)
      ensures rows == ChartRows(data, selectedPersonas)
    {
      rows := PrepareChartData(data, selectedPersonas);
    }

    /** The colour of a persona's button and line: `COLORS[getPersonaIndex(p) % 5]`. */
    function LineColor(persona: string): (c: Option<string>)
      reads this
      ensures c.Some? <==> persona in availablePersonas
    {
      PersonaColorFacts(availablePersonas, persona);
      PersonaColor(availablePersonas, persona)
    }
  }
}
