/** The conversion-trajectory insight (converstion-trajectory.tsx): for every persona
    the change of its normalised rating from its first to its last iteration, the
    personas ordered by the size of that change, and the shade of blue each bar gets. */
module ConversionTrajectory {
  import opened Wrappers
  import opened Seqs
  import opened Numeric
  import opened Records
  import opened FillForward

  /** Nine shades, lightest first. */
  function BlueColors(): seq<string>
  {
    ["#dbeafe", "#bfdbfe", "#93c5fd", "#60a5fa", "#3b82f6", "#2563eb", "#1d4ed8", "#1e40af", "#1e3a8a"]
  }

  /** One bar. `changePerIteration` is absent where the division by a final iteration
      of 0 would give an infinity or NaN. */
  datatype Trajectory = Trajectory(name: string, startRating: real, endRating: real, ratingChange: real,
    absoluteRatingChange: real, finalIteration: int, changePerIteration: Option<real>, direction: string)

  /** The bar of a persona whose records run from `first` to `last`. */
  function BarOf(name: string, first: PersonaData, last: PersonaData): Trajectory
  {
    var change := last.normalizedCurrentRating - first.normalizedCurrentRating;
    Trajectory(name, first.normalizedCurrentRating, last.normalizedCurrentRating, change, Abs(change),
      last.iteration, if last.iteration != 0 then Some(change / last.iteration as real) else None,
      if change >= 0.0 then "positive" else "negative")
  }

  /** The change is end minus start and its size is non-negative; the direction is
      positive exactly when the change is not negative; and the change per iteration,
      where defined, times the final iteration gives back the change. */
  lemma BarFacts(name: string, first: PersonaData, last: PersonaData)
    ensures var t := BarOf(name, first, last);
      && t.name == name
      && t.startRating == first.normalizedCurrentRating && t.endRating == last.normalizedCurrentRating
      && t.ratingChange == t.endRating - t.startRating
      && t.absoluteRatingChange >= 0.0
      && (t.absoluteRatingChange == t.ratingChange || t.absoluteRatingChange == -t.ratingChange)
      && t.finalIteration == last.iteration
      && (t.direction == "positive" <==> t.ratingChange >= 0.0)
      && (t.direction == "positive" || t.direction == "negative")
      && (t.changePerIteration.Some? <==> t.finalIteration != 0)
      && (t.changePerIteration.Some? ==> t.changePerIteration.value * t.finalIteration as real == t.ratingChange)
  {
    var t := BarOf(name, first, last);
    if t.finalIteration != 0 {
      var f := t.finalIteration as real;
      assert t.ratingChange / f * f == t.ratingChange;
    }
  }

  /** A persona's bar, read off its records sorted by iteration. */
  function TrajectoryOf(data: seq<PersonaData>, name: string): Trajectory
    requires name in Names(data)
  {
    var own := GetPersonaData(data, name);
    OwnRecords(data, name);
    SortLength(own, IterationKey);
    var sorted := SortByKey(own, IterationKey);
    BarOf(name, sorted[0], sorted[|sorted| - 1])
  }

  /** A persona's bar runs from one of its records with the least iteration to one with
      the greatest. */
  lemma TrajectoryEnds(data: seq<PersonaData>, name: string) returns (first: PersonaData, last: PersonaData)
    requires name in Names(data)
    ensures first in data && last in data && first.personaName == name && last.personaName == name
    ensures forall y :: y in data && y.personaName == name ==> first.iteration <= y.iteration <= last.iteration
    ensures TrajectoryOf(data, name) == BarOf(name, first, last)
  {
    var own := GetPersonaData(data, name);
    OwnRecords(data, name);
    SortedExtremes(own);
    SortLength(own, IterationKey);
    var sorted := SortByKey(own, IterationKey);
    first, last := sorted[0], sorted[|sorted| - 1];
    GetPersonaDataExact(data, name);
  }

  /** `availablePersonas.map(...)`: one bar per persona, in order of first appearance. */
  function Trajectories(data: seq<PersonaData>): (r: seq<Trajectory>)
    ensures |r| == |Dedup(Names(data))|
    ensures forall k :: 0 <= k < |r| ==> Dedup(Names(data))[k] in Names(data) && r[k] == TrajectoryOf(data, Dedup(Names(data))[k])
  {
    var names := Dedup(Names(data));
    DedupMembers(Names(data));
    seq(|names|, k requires 0 <= k < |names| => TrajectoryOf(data, names[k]))
  }

  /** The sort key of `(a, b) => b.absoluteRatingChange - a.absoluteRatingChange`. */
  function Descending(t: Trajectory): real
  {
    -t.absoluteRatingChange
  }

  /** `trajectoryData`: the bars, largest change first; ties keep persona order. */
  function TrajectoryData(data: seq<PersonaData>): seq<Trajectory>
  {
    SortByKey(Trajectories(data), Descending)
  }

  /** The bars are a rearrangement of the per-persona bars, one per available persona,
      in non-increasing order of the size of the change. */
  lemma TrajectoryDataFacts(data: seq<PersonaData>)
    ensures var r := TrajectoryData(data);
      && |r| == |Dedup(Names(data))|
      && multiset(r) == multiset(Trajectories(data))
      && (forall i, j :: 0 <= i < j < |r| ==> r[i].absoluteRatingChange >= r[j].absoluteRatingChange)
  {
    SortLength(Trajectories(data), Descending);
    SortMultiset(Trajectories(data), Descending);
    SortSorted(Trajectories(data), Descending);
  }

  /** `trajectoryData[0]?.absoluteRatingChange || 1`: the first bar's change, or 1 when
      there is no bar or its change is 0. */
  function MaxChange(r: seq<Trajectory>): (m: real)
    ensures m != 0.0
  {
    if |r| > 0 && r[0].absoluteRatingChange != 0.0 then r[0].absoluteRatingChange else 1.0
  }

  /** `getColorIndex(value)`: `min(floor(value / maxChange * 9), 8)`. */
  function ColorIndex(r: seq<Trajectory>, value: real): int
  {
    var index := (value / MaxChange(r) * |BlueColors()| as real).Floor;
    if index < |BlueColors()| - 1 then index else |BlueColors()| - 1
  }

  /** A value between 0 and the scale's maximum gets one of the nine shades. */
  lemma ColorIndexBounds(r: seq<Trajectory>, value: real)
    requires 0.0 < MaxChange(r) && 0.0 <= value <= MaxChange(r)
    ensures 0 <= ColorIndex(r, value) <= 8
  {
    var m := MaxChange(r);
    MeanBetween(value, m, 0.0, 1.0);
  }

  /** Every bar of the chart gets one of the nine shades, and a largest change that is
      not 0 gets the darkest. */
  lemma BarColors(data: seq<PersonaData>)
    ensures var r := TrajectoryData(data);
      forall k :: 0 <= k < |r| ==> 0 <= ColorIndex(r, r[k].absoluteRatingChange) <= 8
    ensures var r := TrajectoryData(data);
      |r| > 0 && r[0].absoluteRatingChange != 0.0 ==> ColorIndex(r, r[0].absoluteRatingChange) == 8
  {
    var r := TrajectoryData(data);
    TrajectoryDataFacts(data);
    forall k | 0 <= k < |r|
      ensures r[k].absoluteRatingChange >= 0.0
    {
      BarNonNegative(data, r[k]);
    }
    ShadesInRange(r);
  }

  /** For bars with non-negative changes, largest first, every bar's shade is one of the
      nine, and a largest change that is not 0 gets the darkest. */
  lemma ShadesInRange(r: seq<Trajectory>)
    requires forall k :: 0 <= k < |r| ==> r[k].absoluteRatingChange >= 0.0
    requires forall i, j :: 0 <= i < j < |r| ==> r[i].absoluteRatingChange >= r[j].absoluteRatingChange
    ensures forall k :: 0 <= k < |r| ==> 0 <= ColorIndex(r, r[k].absoluteRatingChange) <= 8
    ensures |r| > 0 && r[0].absoluteRatingChange != 0.0 ==> ColorIndex(r, r[0].absoluteRatingChange) == 8
  {
    forall k | 0 <= k < |r|
      ensures 0 <= ColorIndex(r, r[k].absoluteRatingChange) <= 8
    {
      ColorIndexBounds(r, r[k].absoluteRatingChange);
    }
    if |r| > 0 && r[0].absoluteRatingChange != 0.0 {
      var m := r[0].absoluteRatingChange;
      assert MaxChange(r) == m;
      MeanBetween(m, m, 1.0, 1.0);
    }
  }

  /** Every bar's change size is non-negative. */
  lemma BarNonNegative(data: seq<PersonaData>, t: Trajectory)
    requires t in TrajectoryData(data)
    ensures t.absoluteRatingChange >= 0.0
  {
    TrajectoryDataFacts(data);
    assert t in multiset(Trajectories(data));
    var k :| 0 <= k < |Trajectories(data)| && Trajectories(data)[k] == t;
    var first, last := TrajectoryEnds(data, Dedup(Names(data))[k]);
    BarFacts(t.name, first, last);
  }
}
