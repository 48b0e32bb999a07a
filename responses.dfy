/** The response aggregates that the dashboard's two response views compute alike
    (DashboardBento.tsx and PersonaResponseCharts.tsx): attitude by persona, the scatter
    points, the reality/fact groups and the vaccination groups, and the early returns
    that come before them. */
module Responses {
  import opened Wrappers
  import opened Seqs
  import opened Grouping

  /** One row of `persona_responses`. `answer_time` is an ISO timestamp in the source;
      here it is `answerTime`, its value in milliseconds (`new Date(...).getTime()`),
      and `answerDay`, the number of its UTC calendar day (the `YYYY-MM-DD` prefix of
      `toISOString()`). A score that is absent or not a number is `None`. */
  datatype PersonaResponse = PersonaResponse(
    id: string, personaId: int, answerTime: int, answerDay: int, response: string,
    isReal: bool, isFact: bool, tookCovidVaccine: bool,
    recommendationRating: Option<real>, attitudeScore: Option<real>)

  /** `score || 0`: a missing score reads as 0 (as does 0 itself). */
  function OrZero(x: Option<real>): real
  {
    if x.Some? then x.value else 0.0
  }

  // ---------------------------------------------------------------------------
  // Attitude by persona

  /** One element of `attitudeByPersonaData`. */
  datatype AttitudeEntry = AttitudeEntry(personaId: int, count: nat, totalAttitude: real, avgAttitude: real)

  function PersonaIds(s: seq<PersonaResponse>): (r: seq<int>)
    ensures |r| == |s| && forall i :: 0 <= i < |s| ==> r[i] == s[i].personaId
  {
    Map(s, (x: PersonaResponse) => x.personaId)
  }

  function EntryIds(acc: seq<AttitudeEntry>): (r: seq<int>)
    ensures |r| == |acc| && forall i :: 0 <= i < |acc| ==> r[i] == acc[i].personaId
  {
    Map(acc, (e: AttitudeEntry) => e.personaId)
  }

  /** The number of responses from persona `id`. */
  function CountFor(s: seq<PersonaResponse>, id: int): nat
  {
    if |s| == 0 then 0 else CountFor(s[..|s| - 1], id) + (if s[|s| - 1].personaId == id then 1 else 0)
  }

  /** The sum of persona `id`'s attitude scores, missing ones as 0. */
  function TotalFor(s: seq<PersonaResponse>, id: int): real
  {
    if |s| == 0 then 0.0
    else TotalFor(s[..|s| - 1], id) + (if s[|s| - 1].personaId == id then OrZero(s[|s| - 1].attitudeScore) else 0.0)
  }

  function SumCounts(acc: seq<AttitudeEntry>): nat
  {
    if |acc| == 0 then 0 else SumCounts(acc[..|acc| - 1]) + acc[|acc| - 1].count
  }

  /** An entry describes persona `e.personaId` over the responses `s`. */
  predicate Describes(s: seq<PersonaResponse>, e: AttitudeEntry)
  {
    && e.count == CountFor(s, e.personaId) && e.count > 0
    && e.totalAttitude == TotalFor(s, e.personaId)
    && e.avgAttitude == e.totalAttitude / e.count as real
  }

  /** The accumulator after the responses `s`. */
  predicate AttitudeSoFar(s: seq<PersonaResponse>, acc: seq<AttitudeEntry>)
  {
    && EntryIds(acc) == Dedup(PersonaIds(s))
    && (forall j :: 0 <= j < |acc| ==> Describes(s, acc[j]))
  }

  /** `acc.find(p => p.persona_id === id)`, as the index found (or -1). */
  function Find(acc: seq<AttitudeEntry>, id: int): (j: int)
    ensures -1 <= j < |acc|
    ensures j >= 0 ==> acc[j].personaId == id
    ensures j < 0 ==> id !in EntryIds(acc)
  {
    IndexOf(EntryIds(acc), id)
  }

  lemma {:induction false} UnseenFor(s: seq<PersonaResponse>, id: int)
    requires id !in Dedup(PersonaIds(s))
    ensures CountFor(s, id) == 0 && TotalFor(s, id) == 0.0
  {
    if |s| > 0 {
      var n := |s| - 1;
      assert PersonaIds(s[..n]) == PersonaIds(s)[..n];
      UnseenFor(s[..n], id);
    }
  }

  lemma PersonaIdsLast(s: seq<PersonaResponse>, r: PersonaResponse)
    ensures PersonaIds(s + [r]) == PersonaIds(s) + [r.personaId]
    ensures (s + [r])[..|s|] == s
  {
  }

  /** Responses from one persona leave every other persona's entry as it was. */
  lemma OthersUnchanged(s: seq<PersonaResponse>, r: PersonaResponse, e: AttitudeEntry)
    requires Describes(s, e) && e.personaId != r.personaId
    ensures Describes(s + [r], e)
  {
    PersonaIdsLast(s, r);
  }

  /** The response `r` joins the persona's existing entry, or starts a new one. */
  method Accumulate(acc: seq<AttitudeEntry>, r: PersonaResponse, ghost s: seq<PersonaResponse>)
    returns (acc': seq<AttitudeEntry>)
    requires AttitudeSoFar(s, acc)
    ensures AttitudeSoFar(s + [r], acc')
    ensures SumCounts(acc') == SumCounts(acc) + 1
  {
    var score := OrZero(r.attitudeScore);
    var j := Find(acc, r.personaId);
    if j >= 0 {
      var e := acc[j];
      var count := e.count + 1;
      var total := e.totalAttitude + score;
      acc' := acc[j := AttitudeEntry(e.personaId, count, total, total / count as real)];
      JoinEntry(s, r, acc, j, acc');
      SumCountsUpdate(acc, j, acc'[j]);
    } else {
      acc' := acc + [AttitudeEntry(r.personaId, 1, score, score)];
      NewEntry(s, r, acc, acc');
      assert acc'[..|acc|] == acc;
    }
  }

  /** A response from a persona with an entry updates that entry alone. */
  lemma JoinEntry(s: seq<PersonaResponse>, r: PersonaResponse, acc: seq<AttitudeEntry>, j: nat, acc': seq<AttitudeEntry>)
    requires AttitudeSoFar(s, acc) && j < |acc| && acc[j].personaId == r.personaId
    requires var e := acc[j]; var total := e.totalAttitude + OrZero(r.attitudeScore);
      acc' == acc[j := AttitudeEntry(e.personaId, e.count + 1, total, total / (e.count + 1) as real)]
    ensures AttitudeSoFar(s + [r], acc')
  {
    PersonaIdsLast(s, r);
    DedupNoDup(PersonaIds(s));
    DedupMembers(PersonaIds(s));
    assert EntryIds(acc') == EntryIds(acc);
    assert Dedup(PersonaIds(s + [r])) == Dedup(PersonaIds(s)) by {
      assert r.personaId in Dedup(PersonaIds(s));
    }
    forall k | 0 <= k < |acc'|
      ensures Describes(s + [r], acc'[k])
    {
      if k != j {
        assert EntryIds(acc)[k] != EntryIds(acc)[j];
        OthersUnchanged(s, r, acc[k]);
      }
    }
  }

  /** A response from a persona without an entry appends a fresh one. */
  lemma NewEntry(s: seq<PersonaResponse>, r: PersonaResponse, acc: seq<AttitudeEntry>, acc': seq<AttitudeEntry>)
    requires AttitudeSoFar(s, acc) && r.personaId !in EntryIds(acc)
    requires acc' == acc + [AttitudeEntry(r.personaId, 1, OrZero(r.attitudeScore), OrZero(r.attitudeScore))]
    ensures AttitudeSoFar(s + [r], acc')
  {
    PersonaIdsLast(s, r);
    UnseenFor(s, r.personaId);
    assert EntryIds(acc') == EntryIds(acc) + [r.personaId];
    forall k | 0 <= k < |acc|
      ensures Describes(s + [r], acc'[k])
    {
      assert acc[k].personaId in EntryIds(acc);
      OthersUnchanged(s, r, acc[k]);
    }
  }

  lemma {:induction false} SumCountsUpdate(acc: seq<AttitudeEntry>, j: nat, e: AttitudeEntry)
    requires j < |acc|
    ensures SumCounts(acc[j := e]) == SumCounts(acc) - acc[j].count + e.count
  {
    var n := |acc| - 1;
    if j < n {
      assert acc[j := e][..n] == acc[..n][j := e];
      SumCountsUpdate(acc[..n], j, e);
    } else {
      assert acc[j := e][..n] == acc[..n];
    }
  }

  /** `attitudeByPersonaData`: one entry per distinct persona id, in order of first
      appearance, with that persona's number of responses, the sum of their attitude
      scores (missing ones as 0) and the mean; the counts add up to the number of
      responses. */
  method AttitudeByPersona(responses: seq<PersonaResponse>) returns (acc: seq<AttitudeEntry>)
    ensures EntryIds(acc) == Dedup(PersonaIds(responses))
    ensures forall j :: 0 <= j < |acc| ==>
      && acc[j].count == CountFor(responses, acc[j].personaId) && acc[j].count > 0
      && acc[j].totalAttitude == TotalFor(responses, acc[j].personaId)
      && acc[j].avgAttitude == acc[j].totalAttitude / acc[j].count as real
    ensures SumCounts(acc) == |responses|
  {
    acc := [];
    for i := 0 to |responses|
      invariant AttitudeSoFar(responses[..i], acc)
      invariant SumCounts(acc) == i
    {
      assert responses[..i + 1] == responses[..i] + [responses[i]];
      acc := Accumulate(acc, responses[i], responses[..i]);
    }
    assert responses[..|responses|] == responses;
  }

  // ---------------------------------------------------------------------------
  // Scatter points

  /** One element of `scatterData`. */
  datatype ScatterPoint = ScatterPoint(recommendation: real, attitude: real, isReal: bool)

  /** `scatterData`: one point per response, in order, missing scores read as 0. */
  function ScatterData(responses: seq<PersonaResponse>): (r: seq<ScatterPoint>)
    ensures |r| == |responses|
    ensures forall i :: 0 <= i < |r| ==>
      && r[i].recommendation == (if responses[i].recommendationRating.Some? then responses[i].recommendationRating.value else 0.0)
      && r[i].attitude == (if responses[i].attitudeScore.Some? then responses[i].attitudeScore.value else 0.0)
      && r[i].isReal == responses[i].isReal
  {
    Map(responses, (x: PersonaResponse) => ScatterPoint(OrZero(x.recommendationRating), OrZero(x.attitudeScore), x.isReal))
  }

  // ---------------------------------------------------------------------------
  // Reality/fact and vaccination groups

  /** The key `${is_real ? 'Real' : 'Not Real'}-${is_fact ? 'Fact' : 'Not Fact'}`, as the
      pair it is built from; `RealityFactName` spells it. */
  datatype RealityFact = RealityFact(isReal: bool, isFact: bool)

  function RealityFactName(k: RealityFact): string
  {
    (if k.isReal then "Real" else "Not Real") + "-" + (if k.isFact then "Fact" else "Not Fact")
  }

  /** Different pairs are spelled differently, so grouping by the pair is grouping by
      the string key. */
  lemma RealityFactNamesDiffer(a: RealityFact, b: RealityFact)
    requires a != b
    ensures RealityFactName(a) != RealityFactName(b)
  {
    var na, nb := RealityFactName(a), RealityFactName(b);
    if a.isReal != b.isReal {
      assert na[0] != nb[0];
    } else {
      var k := if a.isReal then 5 else 9;
      assert na[k] != nb[k];
    }
  }

  function RealityFactKeys(responses: seq<PersonaResponse>): (r: seq<RealityFact>)
    ensures |r| == |responses|
    ensures forall i :: 0 <= i < |r| ==> r[i] == RealityFact(responses[i].isReal, responses[i].isFact)
  {
    Map(responses, (x: PersonaResponse) => RealityFact(x.isReal, x.isFact))
  }

  /** `getRealityFactGroups()`: one group per key that occurs, in order of first
      occurrence, with the number of responses carrying it. There are at most four,
      and the counts add up to the number of responses. */
  method RealityFactGroups(responses: seq<PersonaResponse>) returns (groups: seq<Bucket<RealityFact>>)
    ensures |groups| == |Dedup(RealityFactKeys(responses))| <= 4
    ensures forall j :: 0 <= j < |groups| ==>
      groups[j].name == Dedup(RealityFactKeys(responses))[j]
      && groups[j].value == multiset(RealityFactKeys(responses))[groups[j].name]
    ensures NoDup(Map(groups, (b: Bucket<RealityFact>) => b.name))
    ensures SumValues(groups) == |responses|
  {
    var keys := RealityFactKeys(responses);
    groups := Tally(keys);
    var universe := {RealityFact(false, false), RealityFact(false, true), RealityFact(true, false), RealityFact(true, true)};
    forall k | k in keys
      ensures k in universe
    {
    }
    TallyBound(keys, universe);
    assert |universe| == 4;
    DedupNoDup(keys);
    assert Map(groups, (b: Bucket<RealityFact>) => b.name) == Dedup(keys);
  }

  function VaccineKeys(responses: seq<PersonaResponse>): (r: seq<bool>)
    ensures |r| == |responses|
    ensures forall i :: 0 <= i < |r| ==> r[i] == responses[i].tookCovidVaccine
  {
    Map(responses, (x: PersonaResponse) => x.tookCovidVaccine)
  }

  /** The vaccination key, 'Vaccinated' or 'Not Vaccinated'. */
  function VaccineName(took: bool): string
  {
    if took then "Vaccinated" else "Not Vaccinated"
  }

  /** `vaccineData`: at most two groups, in order of first occurrence, each with the
      number of responses in it; the counts add up to the number of responses. */
  method VaccineData(responses: seq<PersonaResponse>) returns (groups: seq<Bucket<bool>>)
    ensures |groups| == |Dedup(VaccineKeys(responses))| <= 2
    ensures forall j :: 0 <= j < |groups| ==>
      groups[j].name == Dedup(VaccineKeys(responses))[j]
      && groups[j].value == multiset(VaccineKeys(responses))[groups[j].name]
    ensures SumValues(groups) == |responses|
  {
    var keys := VaccineKeys(responses);
    groups := Tally(keys);
    TallyBound(keys, {false, true});
    assert |{false, true}| == 2;
  }

  // ---------------------------------------------------------------------------
  // The component

  /** What `PersonaResponseCharts` renders. */
  datatype ChartsView =
    | Loading
    | Failed(message: string)
    | NoResponses
    | Charts(attitude: seq<AttitudeEntry>, scatter: seq<ScatterPoint>,
        realityFact: seq<Bucket<RealityFact>>, vaccine: seq<Bucket<bool>>)

  /** `if (error)`: an error message is shown unless it is the empty string. */
  predicate Shown(error: Option<string>)
  {
    error.Some? && |error.value| > 0
  }

  /** The loading, error and empty states return before anything is aggregated;
      otherwise the view holds the four aggregates of the responses: the per-persona
      attitude entries, the scatter points, and the reality/fact and vaccination tallies. */
  method PersonaResponseCharts(loading: bool, error: Option<string>, responses: seq<PersonaResponse>)
    returns (view: ChartsView)
    ensures view.Loading? <==> loading
    ensures view.Failed? <==> !loading && Shown(error)
    ensures view.Failed? ==> view.message == error.value
    ensures view.NoResponses? <==> !loading && !Shown(error) && |responses| == 0
    ensures view.Charts? ==>
      && AttitudeSoFar(responses, view.attitude) && SumCounts(view.attitude) == |responses|
      && view.scatter == ScatterData(responses)
      && Tallies(RealityFactKeys(responses), view.realityFact)
      && |view.realityFact| <= 4 && SumValues(view.realityFact) == |responses|
      && Tallies(VaccineKeys(responses), view.vaccine)
      && |view.vaccine| <= 2 && SumValues(view.vaccine) == |responses|
  {
    if loading {
      return Loading;
    }
    if Shown(error) {
      return Failed(error.value);
    }
    if |responses| == 0 {
      return NoResponses;
    }
    var attitude := AttitudeByPersona(responses);
    var scatter := ScatterData(responses);
    var pie := RealityFactGroups(responses);
    var vaccine := VaccineData(responses);
    view := Charts(attitude, scatter, pie, vaccine);
  }
}
