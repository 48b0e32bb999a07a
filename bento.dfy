/** The aggregates that only the dashboard overview (DashboardBento.tsx) computes, on top
    of those it shares with the persona response charts: the three most recent responses,
    the per-day averages for the line chart, the per-persona vaccination treemap and the
    summary figures. */
module Bento {
  import opened Wrappers
  import opened Seqs
  import opened Numeric
  import opened Grouping
  import opened Responses

  function Attitude(r: PersonaResponse): real
  {
    OrZero(r.attitudeScore)
  }

  function Recommendation(r: PersonaResponse): real
  {
    OrZero(r.recommendationRating)
  }

  // ---------------------------------------------------------------------------
  // Most recent responses

  /** Sort key that puts later answers first. */
  function Later(r: PersonaResponse): real
  {
    -(r.answerTime as real)
  }

  /** A copy of the responses sorted by answer time, latest first (ties keep their
      order), cut to the first three. */
  function RecentResponses(responses: seq<PersonaResponse>): seq<PersonaResponse>
  {
    var sorted := SortByKey(responses, Later);
    SortLength(responses, Later);
    sorted[..if |sorted| < 3 then |sorted| else 3]
  }

  /** At most three responses, taken from the input, latest first, and no response left
      out is later than one kept. */
  lemma RecentFacts(responses: seq<PersonaResponse>)
    ensures var recent := RecentResponses(responses);
      && |recent| == (if |responses| < 3 then |responses| else 3)
      && multiset(recent) <= multiset(responses)
      && (forall i, j :: 0 <= i < j < |recent| ==> recent[i].answerTime >= recent[j].answerTime)
      && (forall r :: r in responses ==>
            r in recent || forall q :: q in recent ==> r.answerTime <= q.answerTime)
  {
    var sorted := SortByKey(responses, Later);
    SortLength(responses, Later);
    SortMultiset(responses, Later);
    SortSorted(responses, Later);
    var k := if |sorted| < 3 then |sorted| else 3;
    assert sorted[..k] == RecentResponses(responses);
    PrefixMultiset(sorted, k);
    PrefixLatest(responses, sorted, k);
  }

  lemma PrefixMultiset<T>(s: seq<T>, k: nat)
    requires k <= |s|
    ensures multiset(s[..k]) <= multiset(s)
  {
    assert s == s[..k] + s[k..];
  }

  /** The first `k` of the sorted responses are latest first, and any other response
      is no later than they are. */
  lemma PrefixLatest(responses: seq<PersonaResponse>, sorted: seq<PersonaResponse>, k: nat)
    requires SortedBy(sorted, Later) && multiset(sorted) == multiset(responses) && k <= |sorted|
    ensures var recent := sorted[..k];
      && (forall i, j :: 0 <= i < j < |recent| ==> recent[i].answerTime >= recent[j].answerTime)
      && (forall r :: r in responses ==>
            r in recent || forall q :: q in recent ==> r.answerTime <= q.answerTime)
  {
    var recent := sorted[..k];
    forall i, j | 0 <= i < j < |recent|
      ensures recent[i].answerTime >= recent[j].answerTime
    {
      assert Later(sorted[i]) <= Later(sorted[j]);
    }
    forall r | r in responses
      ensures r in recent || forall q :: q in recent ==> r.answerTime <= q.answerTime
    {
      assert r in multiset(sorted);
      var n := IndexOf(sorted, r);
      if n >= k {
        forall q | q in recent
          ensures r.answerTime <= q.answerTime
        {
          var i := IndexOf(recent, q);
          assert Later(sorted[i]) <= Later(sorted[n]);
        }
      } else {
        assert recent[n] == r;
      }
    }
  }

  // ---------------------------------------------------------------------------
  // Per-day averages for the line chart

  /** One value of `timeSeriesData`: the sums and the count of one day's responses. */
  datatype DayTotals = DayTotals(attitudeScore: real, recommendationRating: real, count: nat)

  /** One element of `lineChartData`. */
  datatype LinePoint = LinePoint(date: int, attitudeScore: real, recommendationRating: real)

  function Day(r: PersonaResponse): int
  {
    r.answerDay
  }

  function OnDay(d: int): PersonaResponse -> bool
  {
    (r: PersonaResponse) => r.answerDay == d
  }

  function NoTotals(d: int): DayTotals
  {
    DayTotals(0.0, 0.0, 0)
  }

  /** The reducer's update of a day's entry by one response (`|| 0` for missing scores). */
  function AddToDay(t: DayTotals, r: PersonaResponse): DayTotals
  {
    DayTotals(t.attitudeScore + Attitude(r), t.recommendationRating + Recommendation(r), t.count + 1)
  }

  /** The totals of day `d`, defined directly from the responses answered that day. */
  function DayTotalsOf(s: seq<PersonaResponse>, d: int): DayTotals
  {
    var day := Filter(s, OnDay(d));
    DayTotals(Sum(Map(day, Attitude)), Sum(Map(day, Recommendation)), |day|)
  }

  function AveragePoint(d: int, t: DayTotals): LinePoint
    requires t.count > 0
  {
    LinePoint(d, t.attitudeScore / t.count as real, t.recommendationRating / t.count as real)
  }

  function DateKey(p: LinePoint): real
  {
    p.date as real
  }

  /** The reduce over the responses leaves each day's entry with that day's totals. */
  lemma {:induction false} DayTotalsFold(s: seq<PersonaResponse>, d: int)
    ensures FoldFor(s, Day, d, NoTotals(d), AddToDay) == DayTotalsOf(s, d)
  {
    if |s| > 0 {
      var n := |s| - 1;
      DayTotalsFold(s[..n], d);
      DayTotalsLast(s, d);
    }
  }

  /** The last response adds to its own day's totals only. */
  lemma DayTotalsLast(s: seq<PersonaResponse>, d: int)
    requires |s| > 0
    ensures var n := |s| - 1;
      DayTotalsOf(s, d) == if s[n].answerDay == d then AddToDay(DayTotalsOf(s[..n], d), s[n]) else DayTotalsOf(s[..n], d)
  {
    var n := |s| - 1;
    var front := Filter(s[..n], OnDay(d));
    FilterLast(s, OnDay(d));
    if s[n].answerDay == d {
      assert OnDay(d)(s[n]);
      assert Filter(s, OnDay(d)) == front + [s[n]];
      SumMapSnoc(front, s[n], Attitude);
      SumMapSnoc(front, s[n], Recommendation);
    } else {
      assert !OnDay(d)(s[n]);
      assert Filter(s, OnDay(d)) == front;
    }
  }

  /** A day that occurs among the responses has at least one response. */
  lemma DayPresent(s: seq<PersonaResponse>, d: int)
    requires d in Dedup(Map(s, Day))
    ensures DayTotalsOf(s, d).count > 0
  {
    DedupMember(Map(s, Day), d);
    var i := IndexOf(Map(s, Day), d);
    CountWitness(s, OnDay(d), s[i]);
  }

  /** `points` is the line chart of `responses`: one point per answer day, in date
      order, each the averages of that day's responses, and no day left out. */
  predicate LineOf(responses: seq<PersonaResponse>, points: seq<LinePoint>)
  {
    && (forall i, j :: 0 <= i < j < |points| ==> points[i].date < points[j].date)
    && (forall i :: 0 <= i < |points| ==>
      DayTotalsOf(responses, points[i].date).count > 0 &&
      points[i] == AveragePoint(points[i].date, DayTotalsOf(responses, points[i].date)))
    && (forall r :: r in responses ==> HasDate(points, r.answerDay))
  }

  /** The averages of every day on which a response was given, one point per day, in
      ascending date order. */
  method LineChartData(responses: seq<PersonaResponse>) returns (points: seq<LinePoint>)
    ensures LineOf(responses, points)
  {
    var days, totals := GroupFold(responses, Day, NoTotals, AddToDay);
    DayEntries(responses, days, totals);
    var averages := DayPoints(days, totals);
    points := SortByKey(averages, DateKey);
    LineChartFacts(responses, days, totals);
  }

  /** Each day's averages, in the order the days were first seen. */
  function DayPoints(days: seq<int>, totals: map<int, DayTotals>): (r: seq<LinePoint>)
    requires forall d :: d in days ==> d in totals && totals[d].count > 0
    ensures |r| == |days|
    ensures forall i :: 0 <= i < |days| ==> r[i] == AveragePoint(days[i], totals[days[i]])
  {
    seq(|days|, i requires 0 <= i < |days| => AveragePoint(days[i], totals[days[i]]))
  }

  lemma LineChartFacts(responses: seq<PersonaResponse>, days: seq<int>, totals: map<int, DayTotals>)
    requires days == Dedup(Map(responses, Day))
    requires forall d :: d in days ==> d in totals
    requires forall d :: d in totals ==> totals[d] == DayTotalsOf(responses, d) && totals[d].count > 0
    ensures var points := SortByKey(DayPoints(days, totals), DateKey);
      && (forall i, j :: 0 <= i < j < |points| ==> points[i].date < points[j].date)
      && (forall i :: 0 <= i < |points| ==>
            DayTotalsOf(responses, points[i].date).count > 0 &&
            points[i] == AveragePoint(points[i].date, DayTotalsOf(responses, points[i].date)))
      && (forall r :: r in responses ==> HasDate(points, r.answerDay))
  {
    var averages := DayPoints(days, totals);
    PointsOrdered(responses, days, averages);
    PointsValues(responses, days, totals, averages);
    PointsCover(responses, days, averages);
  }

  /** Each entry of the reduced object holds its day's totals, which count at least one
      response. */
  lemma DayEntries(responses: seq<PersonaResponse>, days: seq<int>, totals: map<int, DayTotals>)
    requires days == Dedup(Map(responses, Day))
    requires forall d :: d in totals <==> d in days
    requires forall d :: d in totals ==> totals[d] == FoldFor(responses, Day, d, NoTotals(d), AddToDay)
    ensures forall d :: d in totals ==> totals[d] == DayTotalsOf(responses, d) && totals[d].count > 0
  {
    forall d | d in totals
      ensures totals[d] == DayTotalsOf(responses, d) && totals[d].count > 0
    {
      DayTotalsFold(responses, d);
      DayPresent(responses, d);
    }
  }

  /** Sorting the per-day points, one per distinct day, orders their dates strictly. */
  lemma PointsOrdered(responses: seq<PersonaResponse>, days: seq<int>, averages: seq<LinePoint>)
    requires days == Dedup(Map(responses, Day)) && |averages| == |days|
    requires forall i :: 0 <= i < |days| ==> averages[i].date == days[i]
    ensures var points := SortByKey(averages, DateKey);
      forall i, j :: 0 <= i < j < |points| ==> points[i].date < points[j].date
  {
    DedupNoDup(Map(responses, Day));
    SortDistinctKeys(averages, DateKey);
  }

  /** Every point holds its day's averages. */
  lemma PointsValues(responses: seq<PersonaResponse>, days: seq<int>, totals: map<int, DayTotals>,
    averages: seq<LinePoint>)
    requires forall d :: d in totals ==> totals[d] == DayTotalsOf(responses, d) && totals[d].count > 0
    requires |averages| == |days|
    requires forall i :: 0 <= i < |days| ==>
      days[i] in totals && averages[i] == AveragePoint(days[i], totals[days[i]])
    ensures var points := SortByKey(averages, DateKey);
      forall i :: 0 <= i < |points| ==>
        DayTotalsOf(responses, points[i].date).count > 0 &&
        points[i] == AveragePoint(points[i].date, DayTotalsOf(responses, points[i].date))
  {
    var points := SortByKey(averages, DateKey);
    SortMembers(averages, DateKey);
    forall i | 0 <= i < |points|
      ensures DayTotalsOf(responses, points[i].date).count > 0 &&
        points[i] == AveragePoint(points[i].date, DayTotalsOf(responses, points[i].date))
    {
      var k := IndexOf(averages, points[i]);
    }
  }

  /** Some point is dated `d`. */
  predicate HasDate(points: seq<LinePoint>, d: int)
  {
    exists i :: 0 <= i < |points| && points[i].date == d
  }

  /** Every response's day has a point. */
  lemma PointsCover(responses: seq<PersonaResponse>, days: seq<int>, averages: seq<LinePoint>)
    requires days == Dedup(Map(responses, Day)) && |averages| == |days|
    requires forall i :: 0 <= i < |days| ==> averages[i].date == days[i]
    ensures forall r :: r in responses ==> HasDate(SortByKey(averages, DateKey), r.answerDay)
  {
    var points := SortByKey(averages, DateKey);
    forall r | r in responses
      ensures HasDate(points, r.answerDay)
    {
      DayListed(responses, r);
      var i := IndexOf(days, r.answerDay);
      var j := SortedPosition(averages, DateKey, i);
      assert points[j].date == r.answerDay;
    }
  }

  lemma DayListed(responses: seq<PersonaResponse>, r: PersonaResponse)
    requires r in responses
    ensures r.answerDay in Dedup(Map(responses, Day))
  {
    var k := IndexOf(responses, r);
    assert Map(responses, Day)[k] == r.answerDay;
    DedupMembers(Map(responses, Day));
  }

  // ---------------------------------------------------------------------------
  // Vaccination treemap

  /** One value of `personaGroups`. */
  datatype PersonaGroup = PersonaGroup(total: nat, vaccinated: nat)

  /** One element of `treemapData`; its `name` is `Persona ` followed by `personaId`, and
      `value` is `probability` to one decimal. */
  datatype TreemapCell = TreemapCell(personaId: int, size: nat, value: real, fill: string, probability: real)

  function PersonaOf(r: PersonaResponse): int
  {
    r.personaId
  }

  function OfPersona(id: int): PersonaResponse -> bool
  {
    (r: PersonaResponse) => r.personaId == id
  }

  function VaccinatedOf(id: int): PersonaResponse -> bool
  {
    (r: PersonaResponse) => r.personaId == id && r.tookCovidVaccine
  }

  function NoGroup(id: int): PersonaGroup
  {
    PersonaGroup(0, 0)
  }

  function AddToGroup(g: PersonaGroup, r: PersonaResponse): PersonaGroup
  {
    PersonaGroup(g.total + 1, g.vaccinated + if r.tookCovidVaccine then 1 else 0)
  }

  /** A persona's group, defined directly by counting its responses. */
  function GroupOf(s: seq<PersonaResponse>, id: int): PersonaGroup
  {
    PersonaGroup(Count(s, OfPersona(id)), Count(s, VaccinatedOf(id)))
  }

  /** The share of vaccinated responses, in percent; 0 for an empty group. */
  function Probability(g: PersonaGroup): real
  {
    if g.total > 0 then (g.vaccinated as real / g.total as real) * 100.0 else 0.0
  }

  /** The cell colour by probability band. */
  function Fill(probability: real): string
  {
    if probability < 25.0 then "#FF8042"
    else if probability < 50.0 then "#FFBB28"
    else if probability < 75.0 then "#00C49F"
    else "#0088FE"
  }

  function CellOf(id: int, g: PersonaGroup): TreemapCell
  {
    var p := Probability(g);
    TreemapCell(id, g.total, RoundFixed(p, 10), Fill(p), p)
  }

  function CellPersona(c: TreemapCell): int
  {
    c.personaId
  }

  /** The reduce over the responses leaves each persona's entry with its counts. */
  lemma {:induction false} GroupFoldCounts(s: seq<PersonaResponse>, id: int)
    ensures FoldFor(s, PersonaOf, id, NoGroup(id), AddToGroup) == GroupOf(s, id)
  {
    if |s| > 0 {
      GroupFoldCounts(s[..|s| - 1], id);
      CountLast(s, OfPersona(id));
      CountLast(s, VaccinatedOf(id));
    }
  }

  /** A group never has more vaccinated responses than responses. */
  lemma GroupBound(s: seq<PersonaResponse>, id: int)
    ensures GroupOf(s, id).vaccinated <= GroupOf(s, id).total
  {
    CountImplies(s, VaccinatedOf(id), OfPersona(id));
  }

  /** The probability is a percentage; it is 0 exactly when nobody in the group was
      vaccinated and 100 exactly when everybody was. */
  lemma ProbabilityFacts(g: PersonaGroup)
    requires g.vaccinated <= g.total
    ensures 0.0 <= Probability(g) <= 100.0
    ensures Probability(g) == 0.0 <==> g.vaccinated == 0
    ensures Probability(g) == 100.0 <==> g.total > 0 && g.vaccinated == g.total
  {
    if g.total > 0 {
      var v, t := g.vaccinated as real, g.total as real;
      MeanBetween(v, t, 0.0, 1.0);
      var q := v / t;
      assert q * t == v;
      if g.vaccinated == g.total {
        assert t / t == 1.0;
      }
      if g.vaccinated == 0 {
        assert 0.0 / t == 0.0;
      }
    }
  }

  /** The quarter of the percentage scale a probability falls into, 0 to 3. */
  function Quarter(probability: real): nat
    requires 0.0 <= probability <= 100.0
  {
    if probability >= 75.0 then 3 else (probability / 25.0).Floor
  }

  /** The fill is the colour of the probability's quarter, from orange to blue. */
  lemma FillByQuarter(probability: real)
    requires 0.0 <= probability <= 100.0
    ensures Quarter(probability) <= 3
    ensures Fill(probability) == ["#FF8042", "#FFBB28", "#00C49F", "#0088FE"][Quarter(probability)]
  {
    var q := (probability / 25.0).Floor;
    assert q as real <= probability / 25.0 < q as real + 1.0;
  }

  /** `cells` is the treemap of `responses`: one cell per persona, in the integer-key
      order of `Object.entries`, each summarising that persona's responses. */
  predicate TreemapOf(responses: seq<PersonaResponse>, cells: seq<TreemapCell>)
  {
    && Map(cells, CellPersona) == IntegerKeyOrder(Dedup(PersonaIds(responses)))
    && (forall i :: 0 <= i < |cells| ==>
      && cells[i] == CellOf(cells[i].personaId, GroupOf(responses, cells[i].personaId))
      && cells[i].size > 0
      && 0.0 <= cells[i].probability <= 100.0)
  }

  /** One cell per persona, in the order `Object.values` enumerates number keys; each
      cell's size is the persona's response count and its probability the vaccinated
      share of those responses, in percent. */
  method TreemapData(responses: seq<PersonaResponse>) returns (cells: seq<TreemapCell>)
    ensures TreemapOf(responses, cells)
  {
    var ids, groups := GroupFold(responses, PersonaOf, NoGroup, AddToGroup);
    PersonaEntries(responses, ids, groups);
    var order := IntegerKeyOrder(ids);
    IntegerKeyPermutation(ids);
    assert forall id :: id in order ==> id in multiset(ids);
    cells := CellsOf(order, groups);
    TreemapFacts(responses, order, groups);
  }

  /** Each entry of the reduced object holds its persona's counts, from at least one
      response. */
  lemma PersonaEntries(responses: seq<PersonaResponse>, ids: seq<int>, groups: map<int, PersonaGroup>)
    requires ids == Dedup(Map(responses, PersonaOf))
    requires forall id :: id in groups <==> id in ids
    requires forall id :: id in groups ==> groups[id] == FoldFor(responses, PersonaOf, id, NoGroup(id), AddToGroup)
    ensures ids == Dedup(PersonaIds(responses))
    ensures forall id :: id in groups ==> groups[id] == GroupOf(responses, id) && groups[id].total > 0
  {
    assert Map(responses, PersonaOf) == PersonaIds(responses);
    forall id | id in groups
      ensures groups[id] == GroupOf(responses, id) && groups[id].total > 0
    {
      GroupFoldCounts(responses, id);
      DedupMember(PersonaIds(responses), id);
      var k := IndexOf(PersonaIds(responses), id);
      CountWitness(responses, OfPersona(id), responses[k]);
    }
  }

  /** The cells of the personas in `order`. */
  function CellsOf(order: seq<int>, groups: map<int, PersonaGroup>): (cells: seq<TreemapCell>)
    requires forall id :: id in order ==> id in groups
    ensures |cells| == |order|
    ensures forall i :: 0 <= i < |order| ==> cells[i] == CellOf(order[i], groups[order[i]])
  {
    seq(|order|, i requires 0 <= i < |order| => CellOf(order[i], groups[order[i]]))
  }

  lemma TreemapFacts(responses: seq<PersonaResponse>, order: seq<int>, groups: map<int, PersonaGroup>)
    requires forall id :: id in order ==> id in groups
    requires forall id :: id in groups ==> groups[id] == GroupOf(responses, id) && groups[id].total > 0
    ensures var cells := CellsOf(order, groups);
      && Map(cells, CellPersona) == order
      && forall i :: 0 <= i < |cells| ==>
        && cells[i] == CellOf(cells[i].personaId, GroupOf(responses, cells[i].personaId))
        && cells[i].size > 0
        && 0.0 <= cells[i].probability <= 100.0
  {
    var cells := CellsOf(order, groups);
    forall i | 0 <= i < |cells|
      ensures 0.0 <= cells[i].probability <= 100.0
    {
      GroupBound(responses, order[i]);
      ProbabilityFacts(groups[order[i]]);
    }
    assert Map(cells, CellPersona) == order;
  }

  // ---------------------------------------------------------------------------
  // Summary figures

  /** The four figures of the summary card. */
  datatype Summary = Summary(total: nat, realCount: nat, factCount: nat, avgAttitude: real)

  function IsRealResponse(r: PersonaResponse): bool
  {
    r.isReal
  }

  function IsFactResponse(r: PersonaResponse): bool
  {
    r.isFact
  }

  /** The exact mean attitude score (missing scores count as 0). */
  function MeanAttitude(responses: seq<PersonaResponse>): real
    requires |responses| > 0
  {
    Sum(Map(responses, Attitude)) / |responses| as real
  }

  /** The card shows the mean to two decimals. */
  function SummaryOf(responses: seq<PersonaResponse>): Summary
    requires |responses| > 0
  {
    Summary(|responses|, Count(responses, IsRealResponse), Count(responses, IsFactResponse),
      RoundFixed(MeanAttitude(responses), 100))
  }

  /** The real and factual counts never exceed the total, and the displayed average lies
      within half a hundredth of a mean that stays between the least and greatest
      scores. */
  lemma SummaryFacts(responses: seq<PersonaResponse>, lo: real, hi: real)
    requires |responses| > 0
    requires forall i :: 0 <= i < |responses| ==> lo <= Attitude(responses[i]) <= hi
    ensures SummaryOf(responses).realCount <= |responses|
    ensures SummaryOf(responses).factCount <= |responses|
    ensures lo <= MeanAttitude(responses) <= hi
    ensures Abs(SummaryOf(responses).avgAttitude - MeanAttitude(responses)) <= 0.005
  {
    CountBound(responses, IsRealResponse);
    CountBound(responses, IsFactResponse);
    var scores := Map(responses, Attitude);
    SumBounds(scores, lo, hi);
    var n := |responses| as real;
    MeanBetween(Sum(scores), n, lo, hi);
    RoundFixedClose(MeanAttitude(responses), 100);
  }

  // ---------------------------------------------------------------------------
  // The component

  /** What `DashboardBento` renders. */
  datatype BentoView =
    | BentoLoading
    | BentoFailed(message: string)
    | BentoEmpty
    | Dashboard(attitude: seq<AttitudeEntry>, scatter: seq<ScatterPoint>,
        realityFact: seq<Bucket<RealityFact>>, vaccine: seq<Bucket<bool>>,
        recent: seq<PersonaResponse>, line: seq<LinePoint>, treemap: seq<TreemapCell>,
        summary: Summary)

  /** The loading, error and empty states return first; otherwise every aggregate is
      computed from the responses. */
  method DashboardBento(loading: bool, error: Option<string>, responses: seq<PersonaResponse>)
    returns (view: BentoView)
    ensures view.BentoLoading? <==> loading
    ensures view.BentoFailed? <==> !loading && Shown(error)
    ensures view.BentoFailed? ==> view.message == error.value
    ensures view.BentoEmpty? <==> !loading && !Shown(error) && |responses| == 0
    ensures view.Dashboard? ==>
      && AttitudeSoFar(responses, view.attitude) && SumCounts(view.attitude) == |responses|
      && view.scatter == ScatterData(responses)
      && Tallies(RealityFactKeys(responses), view.realityFact) && SumValues(view.realityFact) == |responses|
      && Tallies(VaccineKeys(responses), view.vaccine) && SumValues(view.vaccine) == |responses|
      && view.recent == RecentResponses(responses)
      && LineOf(responses, view.line)
      && TreemapOf(responses, view.treemap)
      && view.summary == SummaryOf(responses)
  {
    if loading {
      return BentoLoading;
    }
    if Shown(error) {
      return BentoFailed(error.value);
    }
    if |responses| == 0 {
      return BentoEmpty;
    }
    var attitude := AttitudeByPersona(responses);
    var pie := RealityFactGroups(responses);
    var vaccine := VaccineData(responses);
    var line := LineChartData(responses);
    var treemap := TreemapData(responses);
    view := Dashboard(attitude, ScatterData(responses), pie, vaccine, RecentResponses(responses),
      line, treemap, SummaryOf(responses));
  }
}
