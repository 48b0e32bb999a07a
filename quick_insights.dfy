/** The three headline figures of the dashboard (quick-insights.tsx): the persona whose
    normalised rating rose most between its first and its last iteration, the persona
    whose rating rose least, and the share of personas that end at or above the
    acceptance threshold. */
module QuickInsights {
  import opened Wrappers
  import opened Seqs
  import opened Numeric
  import opened Records
  import opened Grouping
  import opened FillForward

  /** A persona's records, sorted by iteration. */
  function SortedRecords(data: seq<PersonaData>, name: string): (r: seq<PersonaData>)
    requires name in Names(data)
    ensures |r| > 0
  {
    OwnRecords(data, name);
    SortLength(GetPersonaData(data, name), IterationKey);
    SortByKey(GetPersonaData(data, name), IterationKey)
  }

  /** The last entry minus the first entry, in normalised current rating. */
  function Improvement(data: seq<PersonaData>, name: string): real
    requires name in Names(data)
  {
    var sorted := SortedRecords(data, name);
    sorted[|sorted| - 1].normalizedCurrentRating - sorted[0].normalizedCurrentRating
  }

  /** The improvement runs from a record of the persona's earliest iteration to one of its
      latest. */
  lemma ImprovementEnds(data: seq<PersonaData>, name: string) returns (first: PersonaData, last: PersonaData)
    requires name in Names(data)
    ensures first in data && last in data && first.personaName == name && last.personaName == name
    ensures forall y :: y in data && y.personaName == name ==> first.iteration <= y.iteration <= last.iteration
    ensures Improvement(data, name) == last.normalizedCurrentRating - first.normalizedCurrentRating
    ensures SortedRecords(data, name)[|SortedRecords(data, name)| - 1] == last
  {
    var own := GetPersonaData(data, name);
    OwnRecords(data, name);
    var sorted := SortedRecords(data, name);
    first, last := sorted[0], sorted[|sorted| - 1];
    assert first in own && last in own && forall y :: y in own ==> first.iteration <= y.iteration <= last.iteration by {
      SortedExtremes(own);
    }
    assert forall x :: x in own <==> x in data && x.personaName == name by {
      GetPersonaDataExact(data, name);
    }
  }

  /** With normalised ratings in [0, 1], an improvement lies in [-1, 1]. */
  lemma ImprovementBounds(data: seq<PersonaData>, name: string)
    requires name in Names(data)
    requires forall x :: x in data ==> 0.0 <= x.normalizedCurrentRating <= 1.0
    ensures -1.0 <= Improvement(data, name) <= 1.0
  {
    var first, last := ImprovementEnds(data, name);
  }

  /** The content of `personaImprovements`: every persona's improvement. */
  function ImprovementMap(data: seq<PersonaData>): (m: map<string, real>)
    ensures forall n :: n in m <==> n in Names(data)
    ensures forall n :: n in m ==> m[n] == Improvement(data, n)
  {
    map n | n in Names(data) :: Improvement(data, n)
  }

  /** `personaImprovements`: one entry per persona, written in order of first appearance. */
  method Improvements(data: seq<PersonaData>) returns (improvements: map<string, real>)
    ensures improvements == ImprovementMap(data)
  {
    var names := Dedup(Names(data));
    DedupMembers(Names(data));
    improvements := map[];
    for k := 0 to |names|
      invariant forall n :: n in improvements <==> n in names[..k]
      invariant forall n :: n in improvements ==> n in Names(data) && improvements[n] == Improvement(data, n)
    {
      var sorted := SortedRecords(data, names[k]);
      var firstEntry, lastEntry := sorted[0], sorted[|sorted| - 1];
      improvements := improvements[names[k] := lastEntry.normalizedCurrentRating - firstEntry.normalizedCurrentRating];
      assert names[..k + 1] == names[..k] + [names[k]];
    }
    assert names[..|names|] == names;
    SameImprovements(data, improvements);
  }

  lemma SameImprovements(data: seq<PersonaData>, m: map<string, real>)
    requires forall n :: n in m <==> n in Names(data)
    requires forall n :: n in m ==> m[n] == Improvement(data, n)
    ensures m == ImprovementMap(data)
  {
  }

  /** `Object.entries(personaImprovements)`: the persona names in the object's
      enumeration order. */
  function Entries(data: seq<PersonaData>): (keys: seq<string>)
    ensures NoDup(keys)
    ensures forall n :: n in keys <==> n in Names(data)
    ensures (forall n :: n in Names(data) ==> NotIndexString(n)) ==> keys == Dedup(Names(data))
  {
    var names := Dedup(Names(data));
    StringKeyOrderFacts(names);
    DedupNoDup(Names(data));
    DedupMembers(Names(data));
    assert forall n :: n in StringKeyOrder(names) <==> n in multiset(names);
    StringKeyOrder(names)
  }

  /** `keys` enumerates exactly the entries of `imp`. */
  ghost predicate Enumerates(keys: seq<string>, imp: map<string, real>)
  {
    forall n :: n in keys <==> n in imp
  }

  /** The values of the entries, in enumeration order. */
  function Values(keys: seq<string>, imp: map<string, real>): (v: seq<real>)
    requires forall j :: 0 <= j < |keys| ==> keys[j] in imp
    ensures |v| == |keys|
    ensures forall j :: 0 <= j < |keys| ==> v[j] == imp[keys[j]]
  {
    seq(|keys|, j requires 0 <= j < |keys| => imp[keys[j]])
  }

  // ---------------------------------------------------------------------------
  // Most persuadable persona

  /** The running maximum after the first `k` values: the position of the value that
      holds it, or -1 while no value has beaten the start value 0. */
  function Leader(v: seq<real>, k: nat): (l: int)
    requires k <= |v|
    ensures -1 <= l < k
  {
    if k == 0 then -1
    else
      var l := Leader(v, k - 1);
      if v[k - 1] > LeadValue(v, l) then k - 1 else l
  }

  function LeadValue(v: seq<real>, l: int): real
    requires -1 <= l < |v|
  {
    if l < 0 then 0.0 else v[l]
  }

  /** The loop keeps the greatest value seen, never below 0; it holds a position exactly
      when some value is positive, and then the first position of the greatest value. */
  lemma {:induction false} LeaderFacts(v: seq<real>, k: nat)
    requires k <= |v|
    ensures var l := Leader(v, k);
      && LeadValue(v, l) >= 0.0
      && (forall j :: 0 <= j < k ==> v[j] <= LeadValue(v, l))
      && (l < 0 <==> forall j :: 0 <= j < k ==> v[j] <= 0.0)
      && (l >= 0 ==> v[l] > 0.0 && forall j :: 0 <= j < l ==> v[j] < v[l])
  {
    if k > 0 {
      LeaderFacts(v, k - 1);
    }
  }

  /** An improvement in percent, rounded to one decimal. */
  function Percent(x: real): real
  {
    RoundFixed(x * 100.0, 10)
  }

  lemma PercentMonotone(x: real, y: real)
    requires x <= y
    ensures Percent(x) <= Percent(y)
  {
    ScaleMonotone(x, y, 100.0);
    RoundFixedMonotone(x * 100.0, y * 100.0, 10);
  }

  lemma PercentOfZero()
    ensures Percent(0.0) == 0.0
  {
    assert RoundFixed(0.0, 10) == 0.0;
  }

  /** `calculateMostPersuadablePersona`: the leader over all entries, its improvement in
      percent rounded to one decimal. No persona with a positive improvement gives `''`
      and 0; otherwise the result is a persona with the greatest improvement. */
  method MostPersuadable(data: seq<PersonaData>) returns (name: string, improvement: real)
    ensures var keys := Entries(data);
      var v := Values(keys, ImprovementMap(data));
      var l := Leader(v, |v|);
      && name == (if l < 0 then "" else keys[l])
      && improvement == Percent(LeadValue(v, l))
    ensures improvement >= 0.0
    ensures var imp := ImprovementMap(data);
      (forall n :: n in imp ==> imp[n] <= 0.0) ==> name == "" && improvement == 0.0
    ensures var imp := ImprovementMap(data);
      (exists n :: n in imp && imp[n] > 0.0) ==>
        && name in imp && imp[name] > 0.0
        && (forall n :: n in imp ==> imp[n] <= imp[name])
        && improvement == Percent(imp[name])
  {
    var improvements := Improvements(data);
    var keys := Entries(data);
    name, improvement := Highest(keys, improvements);
  }

  /** The loop over the entries that keeps the highest improvement, starting from 0. */
  method Highest(keys: seq<string>, imp: map<string, real>) returns (name: string, improvement: real)
    requires Enumerates(keys, imp)
    ensures var v := Values(keys, imp);
      var l := Leader(v, |v|);
      && name == (if l < 0 then "" else keys[l])
      && improvement == Percent(LeadValue(v, l))
    ensures improvement >= 0.0
    ensures (forall n :: n in imp ==> imp[n] <= 0.0) ==> name == "" && improvement == 0.0
    ensures (exists n :: n in imp && imp[n] > 0.0) ==>
      && name in imp && imp[name] > 0.0
      && (forall n :: n in imp ==> imp[n] <= imp[name])
      && improvement == Percent(imp[name])
  {
    ghost var values := Values(keys, imp);
    var highest := 0.0;
    ghost var leader := -1;
    name := "";
    for k := 0 to |keys|
      invariant leader == Leader(values, k)
      invariant highest == LeadValue(values, leader)
      invariant name == if leader < 0 then "" else keys[leader]
    {
      var v := imp[keys[k]];
      if v > highest {
        highest, leader, name := v, k, keys[k];
      }
    }
    improvement := Percent(highest);
    MostFacts(keys, imp, leader, name, improvement);
  }

  lemma MostFacts(keys: seq<string>, imp: map<string, real>, l: int, name: string, improvement: real)
    requires Enumerates(keys, imp)
    requires l == Leader(Values(keys, imp), |keys|)
    requires name == (if l < 0 then "" else keys[l])
    requires improvement == Percent(LeadValue(Values(keys, imp), l))
    ensures improvement >= 0.0
    ensures (forall n :: n in imp ==> imp[n] <= 0.0) ==> name == "" && improvement == 0.0
    ensures (exists n :: n in imp && imp[n] > 0.0) ==>
      && name in imp && imp[name] > 0.0
      && (forall n :: n in imp ==> imp[n] <= imp[name])
      && improvement == Percent(imp[name])
  {
    var v := Values(keys, imp);
    LeaderFacts(v, |v|);
    PercentMonotone(0.0, LeadValue(v, l));
    PercentOfZero();
    if forall n :: n in imp ==> imp[n] <= 0.0 {
      assert forall j :: 0 <= j < |v| ==> v[j] <= 0.0 by {
        assert forall j :: 0 <= j < |keys| ==> keys[j] in imp;
      }
    }
    if exists n :: n in imp && imp[n] > 0.0 {
      var n :| n in imp && imp[n] > 0.0;
      assert v[IndexOf(keys, n)] > 0.0;
      forall m | m in imp
        ensures imp[m] <= imp[keys[l]]
      {
        assert v[IndexOf(keys, m)] <= v[l];
      }
    }
  }

  // ---------------------------------------------------------------------------
  // Least persuadable persona

  /** The running minimum after the first `k` values, starting from `Infinity`: the
      position of the value that holds it, or -1 before the first value. */
  function Trailer(v: seq<real>, k: nat): (l: int)
    requires k <= |v|
    ensures -1 <= l < k
    ensures l < 0 <==> k == 0
  {
    if k == 0 then -1
    else
      var l := Trailer(v, k - 1);
      if l < 0 || v[k - 1] < v[l] then k - 1 else l
  }

  /** The loop keeps the least value seen, held by the first position that has it. */
  lemma {:induction false} TrailerFacts(v: seq<real>, k: nat)
    requires k <= |v|
    ensures var l := Trailer(v, k);
      k > 0 ==>
        && (forall j :: 0 <= j < k ==> v[l] <= v[j])
        && (forall j :: 0 <= j < l ==> v[l] < v[j])
  {
    if k > 0 {
      TrailerFacts(v, k - 1);
    }
  }

  /** `calculateLeastPersuadablePersona`: the trailer over all entries, its improvement in
      percent rounded to one decimal: a persona with the least improvement. With no
      persona the improvement stays `Infinity`, written `None`. */
  method LeastPersuadable(data: seq<PersonaData>) returns (name: string, improvement: Option<real>)
    ensures var keys := Entries(data);
      var v := Values(keys, ImprovementMap(data));
      var l := Trailer(v, |v|);
      && (l < 0 ==> name == "" && improvement == None)
      && (l >= 0 ==> name == keys[l] && improvement == Some(Percent(v[l])))
    ensures improvement.None? <==> |data| == 0
    ensures var imp := ImprovementMap(data);
      |data| > 0 ==>
        && name in imp
        && (forall n :: n in imp ==> imp[name] <= imp[n])
        && improvement == Some(Percent(imp[name]))
  {
    var improvements := Improvements(data);
    var keys := Entries(data);
    name, improvement := Lowest(keys, improvements);
    ImprovementMapEmpty(data);
  }

  /** The loop over the entries that keeps the lowest improvement, starting from
      `Infinity`. */
  method Lowest(keys: seq<string>, imp: map<string, real>) returns (name: string, improvement: Option<real>)
    requires Enumerates(keys, imp)
    ensures var v := Values(keys, imp);
      var l := Trailer(v, |v|);
      && (l < 0 ==> name == "" && improvement == None)
      && (l >= 0 ==> name == keys[l] && improvement == Some(Percent(v[l])))
    ensures improvement.None? <==> |imp| == 0
    ensures |imp| > 0 ==>
      && name in imp
      && (forall n :: n in imp ==> imp[name] <= imp[n])
      && improvement == Some(Percent(imp[name]))
  {
    ghost var values := Values(keys, imp);
    var lowest: Option<real> := None;
    ghost var trailer := -1;
    name := "";
    for k := 0 to |keys|
      invariant trailer == Trailer(values, k)
      invariant lowest == if trailer < 0 then None else Some(values[trailer])
      invariant name == if trailer < 0 then "" else keys[trailer]
    {
      var v := imp[keys[k]];
      if lowest.None? || v < lowest.value {
        lowest, trailer, name := Some(v), k, keys[k];
      }
    }
    improvement := if lowest.None? then None else Some(Percent(lowest.value));
    LeastFacts(keys, imp, trailer);
  }

  lemma LeastFacts(keys: seq<string>, imp: map<string, real>, l: int)
    requires Enumerates(keys, imp)
    requires l == Trailer(Values(keys, imp), |keys|)
    ensures l < 0 <==> |imp| == 0
    ensures l >= 0 ==> forall n :: n in imp ==> imp[keys[l]] <= imp[n]
  {
    var v := Values(keys, imp);
    TrailerFacts(v, |v|);
    if |imp| > 0 {
      var n :| n in imp;
      assert n in keys;
    } else {
      assert imp == map[];
    }
    forall n | n in imp && l >= 0
      ensures imp[keys[l]] <= imp[n]
    {
      assert v[l] <= v[IndexOf(keys, n)];
    }
  }

  /** There are improvements exactly when there are records. */
  lemma ImprovementMapEmpty(data: seq<PersonaData>)
    ensures |ImprovementMap(data)| == 0 <==> |data| == 0
  {
    var m := ImprovementMap(data);
    if |data| > 0 {
      assert data[0].personaName in Names(data);
      assert data[0].personaName in m;
    } else {
      assert Names(data) == [];
      assert m == map[];
    }
  }

  /** The most persuadable persona's figure is never below the least persuadable one's. */
  lemma MostAtLeastLeast(keys: seq<string>, imp: map<string, real>)
    requires Enumerates(keys, imp) && |imp| > 0
    ensures var v := Values(keys, imp);
      var most := Leader(v, |v|);
      var least := Trailer(v, |v|);
      && least >= 0
      && v[least] <= LeadValue(v, most)
      && Percent(v[least]) <= Percent(LeadValue(v, most))
  {
    var v := Values(keys, imp);
    LeastFacts(keys, imp, Trailer(v, |v|));
    LeaderFacts(v, |v|);
    TrailerFacts(v, |v|);
    var least := Trailer(v, |v|);
    PercentMonotone(v[least], LeadValue(v, Leader(v, |v|)));
  }

  // ---------------------------------------------------------------------------
  // Conversion rate

  /** The acceptance threshold on the normalised rating. */
  const Threshold: real := 0.8

  /** A persona is converted when its last entry reaches the threshold. */
  predicate Converted(data: seq<PersonaData>, name: string)
  {
    name in Names(data) &&
    var sorted := SortedRecords(data, name);
    sorted[|sorted| - 1].normalizedCurrentRating >= Threshold
  }

  function ConvertedIn(data: seq<PersonaData>): string -> bool
  {
    n => Converted(data, n)
  }

  /** `convertedCount / personaNames.length * 100`, rounded to a whole number. */
  function Rate(converted: nat, total: nat): real
    requires total > 0
  {
    RoundFixed(converted as real / total as real * 100.0, 1)
  }

  /** `calculateConversionRate`: the rounded percentage of personas whose last entry
      reaches the threshold; with no persona `0 / 0` is `NaN`, written `None`. */
  method ConversionRate(data: seq<PersonaData>) returns (rate: Option<real>)
    ensures var names := Dedup(Names(data));
      rate == if |names| == 0 then None else Some(Rate(Count(names, ConvertedIn(data)), |names|))
    ensures rate.None? <==> |data| == 0
  {
    var names := Dedup(Names(data));
    var convertedCount := 0;
    for k := 0 to |names|
      invariant convertedCount == Count(names[..k], ConvertedIn(data))
    {
      ConvertedStep(data, names, k);
      var sorted := SortedRecords(data, names[k]);
      var lastEntry := sorted[|sorted| - 1];
      if lastEntry.normalizedCurrentRating >= Threshold {
        convertedCount := convertedCount + 1;
      }
    }
    assert names[..|names|] == names;
    rate := if |names| == 0 then None else Some(Rate(convertedCount, |names|));
    DedupNonEmpty(data);
  }

  /** Counting one more persona name adds one exactly when that persona converted. */
  lemma ConvertedStep(data: seq<PersonaData>, names: seq<string>, k: nat)
    requires names == Dedup(Names(data)) && k < |names|
    ensures names[k] in Names(data)
    ensures Count(names[..k + 1], ConvertedIn(data)) == Count(names[..k], ConvertedIn(data)) + (if Converted(data, names[k]) then 1 else 0)
  {
    assert names[..k + 1][..k] == names[..k];
    CountLast(names[..k + 1], ConvertedIn(data));
    DedupMember(Names(data), names[k]);
  }

  lemma DedupNonEmpty(data: seq<PersonaData>)
    ensures |Dedup(Names(data))| == 0 <==> |data| == 0
  {
    DedupMembers(Names(data));
    if |data| > 0 {
      assert Names(data)[0] in Dedup(Names(data));
    }
  }

  /** The rate is a whole percentage between 0 and 100: 0 when nobody converted, 100
      when everybody did. */
  lemma RateBounds(converted: nat, total: nat)
    requires 0 < total && converted <= total
    ensures 0.0 <= Rate(converted, total) <= 100.0
    ensures converted == 0 ==> Rate(converted, total) == 0.0
    ensures converted == total ==> Rate(converted, total) == 100.0
  {
    var share := converted as real / total as real * 100.0;
    MeanBetween(converted as real, total as real, 0.0, 1.0);
    assert 0.0 <= share <= 100.0;
    RoundFixedMonotone(0.0, share, 1);
    RoundFixedMonotone(share, 100.0, 1);
    assert RoundFixed(0.0, 1) == 0.0;
    assert RoundFixed(100.0, 1) == 100.0;
    if converted == total {
      MeanBetween(converted as real, total as real, 1.0, 1.0);
    }
  }

  /** The rate is a whole number. */
  lemma RateWhole(converted: nat, total: nat)
    requires 0 < total
    ensures Rate(converted, total) == Rate(converted, total).Floor as real
  {
    var share := converted as real / total as real * 100.0;
    assert share >= 0.0;
    RoundMagnitudeOf(share, 1, share * 1 as real + 0.5);
  }

  /** The rate the dashboard shows for a data set with at least one persona obeys
      those bounds. */
  lemma ConversionRateBounds(data: seq<PersonaData>)
    requires |data| > 0
    ensures var names := Dedup(Names(data));
      var c := Count(names, ConvertedIn(data));
      && |names| > 0 && c <= |names|
      && 0.0 <= Rate(c, |names|) <= 100.0
  {
    DedupNonEmpty(data);
    CountBound(Dedup(Names(data)), ConvertedIn(data));
    RateBounds(Count(Dedup(Names(data)), ConvertedIn(data)), |Dedup(Names(data))|);
  }
}
