/** The reaction-shift insight (reactation-shift.tsx): for every persona, its records in
    iteration order, the points where its reaction turned from Negative to Positive, its
    first and last reaction and its colour; then the combined per-iteration chart rows
    and the annotations that mark each shift on its persona's line. */
module ReactionShift {
  import opened Wrappers
  import opened Seqs
  import opened Records
  import opened FillForward

  /** `PERSONA_COLORS[name] || '#94a3b8'`. The palette names Emily, whom the mock data
      does not have, and not Linda, who falls back to slate grey. */
  function PersonaColor(name: string): string
  {
    if name == "Brian" then "#3b82f6"
    else if name == "Sarah" then "#10b981"
    else if name == "Michael" then "#f59e0b"
    else if name == "Emily" then "#8b5cf6"
    else if name == "David" then "#ef4444"
    else "#94a3b8"
  }

  /** A point where the reaction changed from Negative to Positive. */
  datatype ShiftPoint = ShiftPoint(iteration: int, data: PersonaData)

  /** Record `i` is Positive right after a Negative one. */
  predicate ShiftAt(s: seq<PersonaData>, i: int)
  {
    1 <= i < |s| && s[i - 1].reaction == Negative && s[i].reaction == Positive
  }

  function PointOf(d: PersonaData): ShiftPoint
  {
    ShiftPoint(d.iteration, d)
  }

  /** The shift points of `s`, in order. */
  function Shifts(s: seq<PersonaData>): seq<ShiftPoint>
  {
    if |s| < 2 then []
    else
      var n := |s| - 1;
      Shifts(s[..n]) + (if ShiftAt(s, n) then [PointOf(s[n])] else [])
  }

  /** A point is a shift point exactly when it is the record of a Negative-to-Positive
      step; the first record never is one, and there are fewer points than records. */
  lemma {:induction false} ShiftsExactly(s: seq<PersonaData>)
    ensures forall p :: p in Shifts(s) <==> exists i :: ShiftAt(s, i) && p == PointOf(s[i])
    ensures |s| > 0 ==> |Shifts(s)| <= |s| - 1
  {
    if |s| >= 2 {
      var n := |s| - 1;
      var t := s[..n];
      ShiftsExactly(t);
      forall i | 1 <= i < n
        ensures ShiftAt(t, i) <==> ShiftAt(s, i)
      {
        assert t[i - 1] == s[i - 1] && t[i] == s[i];
      }
      forall p | p in Shifts(s)
        ensures exists i :: ShiftAt(s, i) && p == PointOf(s[i])
      {
        if p in Shifts(t) {
          var i :| ShiftAt(t, i) && p == PointOf(t[i]);
          assert ShiftAt(s, i) && p == PointOf(s[i]);
        } else {
          assert ShiftAt(s, n) && p == PointOf(s[n]);
        }
      }
      forall p | exists i :: ShiftAt(s, i) && p == PointOf(s[i])
        ensures p in Shifts(s)
      {
        var i :| ShiftAt(s, i) && p == PointOf(s[i]);
        if i < n {
          assert ShiftAt(t, i) && p == PointOf(t[i]);
        }
      }
    }
  }

  /** The loop that collects the shift points. */
  method ShiftPoints(s: seq<PersonaData>) returns (points: seq<ShiftPoint>)
    ensures points == Shifts(s)
  {
    points := [];
    if |s| == 0 {
      return;
    }
    var i := 1;
    while i < |s|
      invariant 1 <= i <= |s|
      invariant points == Shifts(s[..i])
    {
      assert s[..i + 1][..i] == s[..i];
      if s[i - 1].reaction == Negative && s[i].reaction == Positive {
        points := points + [PointOf(s[i])];
      }
      assert ShiftAt(s[..i + 1], i) <==> ShiftAt(s, i);
      i := i + 1;
    }
    assert s[..i] == s;
  }

  /** One element of `reactionShiftData`. `chartData` keeps the whole records; the
      chart reads their iteration, rating and reaction. */
  datatype PersonaShift = PersonaShift(name: string, chartData: seq<PersonaData>, shiftPoints: seq<ShiftPoint>,
    color: string, hasShift: bool, initialReaction: string, finalReaction: string)

  /** A persona's entry: its records in iteration order and what is read off them. */
  function ShiftEntry(data: seq<PersonaData>, name: string): PersonaShift
    requires name in Names(data)
  {
    OwnRecords(data, name);
    var sorted := SortByKey(GetPersonaData(data, name), IterationKey);
    SortLength(GetPersonaData(data, name), IterationKey);
    var points := Shifts(sorted);
    PersonaShift(name, sorted, points, PersonaColor(name), |points| > 0,
      sorted[0].reaction, sorted[|sorted| - 1].reaction)
  }

  /** The entry holds all of the persona's records, and only them, in iteration order;
      it has a shift exactly when some Negative record is directly followed by a
      Positive one; the initial reaction is that of a record with the least iteration
      and the final one that of a record with the greatest. */
  lemma ShiftEntryFacts(data: seq<PersonaData>, name: string)
    requires name in Names(data)
    ensures var e := ShiftEntry(data, name);
      && e.name == name && e.color == PersonaColor(name)
      && |e.chartData| > 0
      && multiset(e.chartData) == multiset(GetPersonaData(data, name))
      && SortedBy(e.chartData, IterationKey)
      && (e.hasShift <==> exists i :: ShiftAt(e.chartData, i))
      && (forall d :: d in e.chartData ==> e.chartData[0].iteration <= d.iteration <= e.chartData[|e.chartData| - 1].iteration)
      && e.initialReaction == e.chartData[0].reaction
      && e.finalReaction == e.chartData[|e.chartData| - 1].reaction
  {
    var own := GetPersonaData(data, name);
    OwnRecords(data, name);
    var sorted := SortByKey(own, IterationKey);
    SortLength(own, IterationKey);
    SortMultiset(own, IterationKey);
    SortSorted(own, IterationKey);
    SortedIterations(sorted);
    ShiftsExist(sorted);
  }

  /** Some record is a shift exactly when there are shift points. */
  lemma ShiftsExist(s: seq<PersonaData>)
    ensures |Shifts(s)| > 0 <==> exists i :: ShiftAt(s, i)
  {
    ShiftsExactly(s);
    if |Shifts(s)| > 0 {
      assert Shifts(s)[0] in Shifts(s);
    }
    if exists i :: ShiftAt(s, i) {
      var i :| ShiftAt(s, i);
      assert PointOf(s[i]) in Shifts(s);
    }
  }

  /** In records sorted by iteration the first has the least iteration and the last
      the greatest. */
  lemma SortedIterations(s: seq<PersonaData>)
    requires |s| > 0 && SortedBy(s, IterationKey)
    ensures forall d :: d in s ==> s[0].iteration <= d.iteration <= s[|s| - 1].iteration
  {
    SortedEnds(s, IterationKey);
  }

  /** A persona's entry; its shift points are collected by the loop. */
  method PersonaShiftOf(data: seq<PersonaData>, name: string) returns (p: PersonaShift)
    requires name in Names(data)
    ensures p == ShiftEntry(data, name)
  {
    var own := GetPersonaData(data, name);
    OwnRecords(data, name);
    var sorted := SortByKey(own, IterationKey);
    SortLength(own, IterationKey);
    var points := ShiftPoints(sorted);
    p := PersonaShift(name, sorted, points, PersonaColor(name), |points| > 0,
      sorted[0].reaction, sorted[|sorted| - 1].reaction);
  }

  /** `getAvailablePersonas().map(...)`: one entry per persona, in order of first
      appearance. */
  method ReactionShiftData(data: seq<PersonaData>) returns (personas: seq<PersonaShift>)
    ensures |personas| == |Dedup(Names(data))|
    ensures forall k :: 0 <= k < |personas| ==>
      Dedup(Names(data))[k] in Names(data) && personas[k] == ShiftEntry(data, Dedup(Names(data))[k])
  {
    var names := GetAvailablePersonas(data);
    DedupMembers(Names(data));
    personas := [];
    for k := 0 to |names|
      invariant |personas| == k
      invariant forall j :: 0 <= j < k ==> names[j] in Names(data) && personas[j] == ShiftEntry(data, names[j])
    {
      assert names[k] in names;
      var p := PersonaShiftOf(data, names[k]);
      personas := personas + [p];
    }
  }

  // ---------------------------------------------------------------------------
  // Combined chart rows

  function PersonaName(p: PersonaShift): string
  {
    p.name
  }

  function PersonaChart(p: PersonaShift): seq<PersonaData>
  {
    p.chartData
  }

  function ChartIterations(p: PersonaShift): seq<int>
  {
    Map(p.chartData, Iteration)
  }

  predicate ChartsNonEmpty(personas: seq<PersonaShift>)
  {
    forall k :: 0 <= k < |personas| ==> |personas[k].chartData| > 0
  }

  lemma ChartsFill(personas: seq<PersonaShift>)
    requires ChartsNonEmpty(personas)
    ensures |Map(personas, PersonaName)| == |Map(personas, PersonaChart)|
    ensures AllNonEmpty(Map(personas, PersonaChart))
  {
  }

  /** One row per iteration 1 to the largest iteration of any persona, holding each
      persona's own record there or its last record once its line has ended. */
  method CombinedChartData(personas: seq<PersonaShift>) returns (rows: seq<Row>)
    requires ChartsNonEmpty(personas)
    ensures |rows| == RowCount(Concat(Map(personas, ChartIterations)))
    ensures forall j :: 0 <= j < |rows| ==>
      rows[j] == Row(j + 1, CellsAt(Map(personas, PersonaName), Map(personas, PersonaChart), j + 1))
  {
    ChartsFill(personas);
    var filled := FillRows(Map(personas, PersonaName), Map(personas, PersonaChart),
      RowCount(Concat(Map(personas, ChartIterations))));
    RowsInOrder(filled);
    rows := SortByKey(filled, RowKey);
  }

  // ---------------------------------------------------------------------------
  // Shift annotations

  /** One marker; `y` is the row's value for the persona, `undefined` (None) when the
      row has none. */
  datatype Annotation = Annotation(x: int, y: Option<real>, personaName: string, color: string, iteration: int)

  function RatingIn(row: Row, name: string): Option<real>
  {
    if name in row.cells then Some(row.cells[name].currentRating) else None
  }

  /** The marker of one shift point: present when the rows have one of its iteration
      (`rows.find(d => d.iteration === i)` on rows 1, 2, ...), reading the persona's
      value in that row. */
  function MarkerAt(p: PersonaShift, pt: ShiftPoint, rows: seq<Row>): seq<Annotation>
  {
    var it := pt.iteration;
    if 1 <= it <= |rows| then [Annotation(it, RatingIn(rows[it - 1], p.name), p.name, p.color, it)] else []
  }

  /** The markers of the first `|points|` shift points of persona `p`. */
  function PointMarkers(p: PersonaShift, points: seq<ShiftPoint>, rows: seq<Row>): seq<Annotation>
  {
    if |points| == 0 then []
    else PointMarkers(p, points[..|points| - 1], rows) + MarkerAt(p, points[|points| - 1], rows)
  }

  /** The markers of all personas, persona after persona. */
  function AllMarkers(personas: seq<PersonaShift>, rows: seq<Row>): seq<Annotation>
  {
    if |personas| == 0 then []
    else
      var n := |personas| - 1;
      var p := personas[n];
      AllMarkers(personas[..n], rows) + (if p.hasShift then PointMarkers(p, p.shiftPoints, rows) else [])
  }

  /** The nested loops that collect the markers. */
  method ShiftAnnotations(personas: seq<PersonaShift>, rows: seq<Row>) returns (annotations: seq<Annotation>)
    requires forall j :: 0 <= j < |rows| ==> rows[j].iteration == j + 1
    ensures annotations == AllMarkers(personas, rows)
  {
    annotations := [];
    for k := 0 to |personas|
      invariant annotations == AllMarkers(personas[..k], rows)
    {
      var p := personas[k];
      assert personas[..k + 1][..k] == personas[..k];
      if p.hasShift {
        var before := annotations;
        for j := 0 to |p.shiftPoints|
          invariant annotations == before + PointMarkers(p, p.shiftPoints[..j], rows)
        {
          var it := p.shiftPoints[j].iteration;
          assert p.shiftPoints[..j + 1][..j] == p.shiftPoints[..j];
          if 1 <= it <= |rows| {
            annotations := annotations + [Annotation(it, RatingIn(rows[it - 1], p.name), p.name, p.color, it)];
          }
        }
        assert p.shiftPoints[..|p.shiftPoints|] == p.shiftPoints;
      }
    }
    assert personas[..|personas|] == personas;
  }

  /** A persona's markers: each sits at one of its shift points that has a row, carries
      the persona's name and colour and reads the persona's value in that row; every
      shift point with a row gets one. */
  lemma {:induction false} MarkersOf(p: PersonaShift, points: seq<ShiftPoint>, rows: seq<Row>)
    ensures |PointMarkers(p, points, rows)| <= |points|
    ensures forall a :: a in PointMarkers(p, points, rows) ==>
      && a.personaName == p.name && a.color == p.color && a.x == a.iteration
      && 1 <= a.iteration <= |rows| && a.y == RatingIn(rows[a.iteration - 1], p.name)
      && exists pt :: pt in points && pt.iteration == a.iteration
    ensures forall pt :: pt in points && 1 <= pt.iteration <= |rows| ==>
      exists a :: a in PointMarkers(p, points, rows) && a.iteration == pt.iteration
  {
    MarkersLength(p, points, rows);
    MarkersSound(p, points, rows);
    MarkersComplete(p, points, rows);
  }

  lemma {:induction false} MarkersLength(p: PersonaShift, points: seq<ShiftPoint>, rows: seq<Row>)
    ensures |PointMarkers(p, points, rows)| <= |points|
  {
    if |points| > 0 {
      MarkersLength(p, points[..|points| - 1], rows);
    }
  }

  predicate MarkerFits(p: PersonaShift, rows: seq<Row>, a: Annotation)
  {
    && a.personaName == p.name && a.color == p.color && a.x == a.iteration
    && 1 <= a.iteration <= |rows| && a.y == RatingIn(rows[a.iteration - 1], p.name)
  }

  lemma {:induction false} MarkersSound(p: PersonaShift, points: seq<ShiftPoint>, rows: seq<Row>)
    ensures forall a :: a in PointMarkers(p, points, rows) ==>
      MarkerFits(p, rows, a) && exists pt :: pt in points && pt.iteration == a.iteration
  {
    if |points| > 0 {
      var n := |points| - 1;
      MarkersSound(p, points[..n], rows);
      var prev := PointMarkers(p, points[..n], rows);
      assert PointMarkers(p, points, rows) == prev + MarkerAt(p, points[n], rows);
      forall a | a in PointMarkers(p, points, rows)
        ensures MarkerFits(p, rows, a) && exists pt :: pt in points && pt.iteration == a.iteration
      {
        if a in prev {
          var pt :| pt in points[..n] && pt.iteration == a.iteration;
          assert pt in points;
        } else {
          assert points[n] in points;
        }
      }
    }
  }

  lemma {:induction false} MarkersComplete(p: PersonaShift, points: seq<ShiftPoint>, rows: seq<Row>)
    ensures forall pt :: pt in points && 1 <= pt.iteration <= |rows| ==>
      exists a :: a in PointMarkers(p, points, rows) && a.iteration == pt.iteration
  {
    if |points| > 0 {
      var n := |points| - 1;
      MarkersComplete(p, points[..n], rows);
      var prev := PointMarkers(p, points[..n], rows);
      assert PointMarkers(p, points, rows) == prev + MarkerAt(p, points[n], rows);
      forall pt | pt in points && 1 <= pt.iteration <= |rows|
        ensures exists a :: a in PointMarkers(p, points, rows) && a.iteration == pt.iteration
      {
        var i :| 0 <= i < |points| && points[i] == pt;
        if i < n {
          assert points[..n][i] == pt;
          var a :| a in prev && a.iteration == pt.iteration;
          assert a in PointMarkers(p, points, rows);
        } else {
          var a := Annotation(pt.iteration, RatingIn(rows[pt.iteration - 1], p.name), p.name, p.color, pt.iteration);
          assert a in PointMarkers(p, points, rows);
        }
      }
    }
  }

  /** In rows filled from distinct series keys, the value a marker reads for a persona
      at the iteration of one of its records is the rating of the persona's first
      record of that iteration: the marker sits on the persona's own line. */
  lemma MarkerOnLine(keys: seq<string>, series: seq<seq<PersonaData>>, rows: seq<Row>, k: nat, d: PersonaData)
    requires |keys| == |series| && AllNonEmpty(series) && NoDup(keys)
    requires forall j :: 0 <= j < |rows| ==> rows[j] == Row(j + 1, CellsAt(keys, series, j + 1))
    requires k < |keys| && d in series[k] && 1 <= d.iteration <= |rows|
    ensures RatingIn(rows[d.iteration - 1], keys[k]) == Some(FirstAt(series[k], d.iteration).value.currentRating)
  {
    var i := IndexOf(series[k], d);
    ValueAtOwn(series[k], d.iteration, i);
    CellsAtFacts(keys, series, d.iteration);
  }

  /** Every record of every persona has a row, from iteration 1 on. */
  lemma RowsCoverCharts(personas: seq<PersonaShift>, k: nat, d: PersonaData)
    requires k < |personas| && d in personas[k].chartData && d.iteration >= 1
    ensures d.iteration <= RowCount(Concat(Map(personas, ChartIterations)))
  {
    var i := IndexOf(personas[k].chartData, d);
    assert ChartIterations(personas[k])[i] == d.iteration;
    assert Map(personas, ChartIterations)[k] == ChartIterations(personas[k]);
    ConcatMember(Map(personas, ChartIterations), k, d.iteration);
    RowCountCovers(Concat(Map(personas, ChartIterations)), d.iteration);
  }

  // ---------------------------------------------------------------------------
  // The shifts of the mock data

  function PointIteration(p: ShiftPoint): int
  {
    p.iteration
  }

  function IsPositive(g: Reading): bool
  {
    g.positive
  }

  /** The 1-based positions at which a run of flags turns from false to true. */
  function RisingEdges(b: seq<bool>): seq<int>
  {
    if |b| < 2 then []
    else
      var n := |b| - 1;
      RisingEdges(b[..n]) + (if !b[n - 1] && b[n] then [n + 1] else [])
  }

  /** A block of consecutive records shifts exactly where its readings turn positive. */
  lemma {:induction false} BlockShifts(personaId: int, name: string, readings: seq<Reading>)
    ensures Map(Shifts(Block(personaId, name, readings)), PointIteration) == RisingEdges(Map(readings, IsPositive))
  {
    var s := Block(personaId, name, readings);
    if |readings| >= 2 {
      var n := |readings| - 1;
      assert s[..n] == Block(personaId, name, readings[..n]);
      assert Map(readings, IsPositive)[..n] == Map(readings[..n], IsPositive);
      BlockShifts(personaId, name, readings[..n]);
      var tail := if ShiftAt(s, n) then [PointOf(s[n])] else [];
      MapAppend(Shifts(s[..n]), tail, PointIteration);
      assert ShiftAt(s, n) <==> !readings[n - 1].positive && readings[n].positive;
      assert Map(tail, PointIteration) == if ShiftAt(s, n) then [n + 1] else [];
    } else {
      assert Map(Shifts(s), PointIteration) == [];
    }
  }

  /** A persona whose records form one block shifts where its readings turn positive. */
  lemma EntryShifts(data: seq<PersonaData>, name: string, personaId: int, readings: seq<Reading>)
    requires name in Names(data) && GetPersonaData(data, name) == Block(personaId, name, readings)
    ensures Map(ShiftEntry(data, name).shiftPoints, PointIteration) == RisingEdges(Map(readings, IsPositive))
  {
    var b := Block(personaId, name, readings);
    assert SortedBy(b, IterationKey);
    SortOfSorted(b, IterationKey);
    BlockShifts(personaId, name, readings);
  }

  /** The expected shift iterations of Brian, Sarah, Michael, Linda and David. */
  function MockShiftIterations(): seq<seq<int>>
  {
    [[], [], [3], [], [2]]
  }

  lemma MockEdges(k: nat)
    requires k < 5
    ensures RisingEdges(Map(MockReadingList()[k], IsPositive)) == MockShiftIterations()[k]
  {
    if k == 0 {
      BrianEdges();
    } else if k == 1 {
      SarahEdges();
    } else if k == 2 {
      MichaelEdges();
    } else if k == 3 {
      LindaEdges();
    } else {
      DavidEdges();
    }
  }

  /** A run of flags that never turns from false to true has no rising edges. */
  lemma {:induction false} NoRisingEdges(b: seq<bool>)
    requires forall i :: 1 <= i < |b| ==> b[i - 1] || !b[i]
    ensures RisingEdges(b) == []
  {
    if |b| >= 2 {
      var n := |b| - 1;
      NoRisingEdges(b[..n]);
    }
  }

  /** One more flag adds its position when it turns the run from false to true. */
  lemma RisingStep(b: seq<bool>, x: bool)
    ensures RisingEdges(b + [x]) == RisingEdges(b) + (if |b| >= 1 && !b[|b| - 1] && x then [|b| + 1] else [])
  {
    assert (b + [x])[..|b|] == b;
  }

  lemma BrianEdges()
    ensures RisingEdges(Map(BrianReadings(), IsPositive)) == []
  {
    var b := Map(BrianReadings(), IsPositive);
    assert forall i :: 0 <= i < |b| ==> !b[i];
    NoRisingEdges(b);
  }

  lemma SarahEdges()
    ensures RisingEdges(Map(SarahReadings(), IsPositive)) == []
  {
    var b := Map(SarahReadings(), IsPositive);
    assert forall i :: 0 <= i < |b| ==> b[i];
    NoRisingEdges(b);
  }

  lemma MichaelEdges()
    ensures RisingEdges(Map(MichaelReadings(), IsPositive)) == [3]
  {
    assert Map(MichaelReadings(), IsPositive) == [false, false, true, true, true];
    NoRisingEdges([false, false]);
    RisingStep([false, false], true);
    assert [false, false] + [true] == [false, false, true];
    RisingStep([false, false, true], true);
    assert [false, false, true] + [true] == [false, false, true, true];
    RisingStep([false, false, true, true], true);
    assert [false, false, true, true] + [true] == [false, false, true, true, true];
  }

  lemma LindaEdges()
    ensures RisingEdges(Map(LindaReadings(), IsPositive)) == []
  {
    var b := Map(LindaReadings(), IsPositive);
    assert forall i :: 0 <= i < |b| ==> !b[i];
    NoRisingEdges(b);
  }

  lemma DavidEdges()
    ensures RisingEdges(Map(DavidReadings(), IsPositive)) == [2]
  {
    assert Map(DavidReadings(), IsPositive) == [false, true, true];
    RisingStep([false], true);
    assert [false] + [true] == [false, true];
    RisingStep([false, true], true);
    assert [false, true] + [true] == [false, true, true];
  }

  /** On the mock data (personas Brian, Sarah, Michael, Linda, David in that order)
      Michael shifts at iteration 3 and David at iteration 2; Brian, Sarah and Linda
      never shift. */
  lemma MockShifts(k: nat)
    requires k < 5
    ensures MockNameList()[k] in Names(MockData())
    ensures Map(ShiftEntry(MockData(), MockNameList()[k]).shiftPoints, PointIteration) == MockShiftIterations()[k]
  {
    MockBlock(k);
    EntryShifts(MockData(), MockNameList()[k], k + 1, MockReadingList()[k]);
    MockEdges(k);
  }
}
