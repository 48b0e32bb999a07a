/** The synthetic persona-response generator: rating progressions that climb to the
    target (for five of the seven personas) or stall just below it, and one logged row
    per iteration. Ratings are integers counting tenths (`34` is 3.4), which is exact:
    the generator rounds every rating to one decimal and all its thresholds are
    multiples of a tenth. Random draws are parameters; a draw from
    `random.uniform(a, b)` is given by the fraction `u` it scales. */
module Synthetic {
  import opened Wrappers
  import opened Seqs
  import opened Strings
  import opened Numeric

  const NumEntries := 550
  const MaxIterationsPerSession := 7
  const NumPersonas := 7
  const NumSuccessPersonas := 5

  /** Ratings in tenths. */
  const RatingMin := 10
  const MaxInitialRating := 25
  /** The rating whose normalised value is the target 0.8: 0.8 * (4 - 1) + 1. */
  const TargetStopRating := 34
  /** Just below the target: the ceiling of a session that must not reach it. */
  const MaxMissingRating := 33
  /** The rating from which a reaction counts as positive. */
  const PositiveFrom := 25

  const TargetNormalized: real := 0.8
  const TargetHundredths := 80
  const MaxFinalRating: real := 3.43
  const MaxRatingChange: real := 0.1

  datatype FixedPersona = FixedPersona(id: int, name: string)

  function FixedPersonas(): seq<FixedPersona>
  {
    [FixedPersona(1, "Michael"), FixedPersona(2, "Emily"), FixedPersona(3, "David"),
     FixedPersona(4, "Sarah"), FixedPersona(5, "James"), FixedPersona(6, "Jennifer"),
     FixedPersona(7, "Robert")]
  }

  /** The editor changes a summary picks from. */
  function ChangeTexts(): seq<string>
  {
    ["Adjusted tone to better align with the reader's values",
     "Added more specific data points from trusted sources",
     "Emphasized community protection benefits",
     "Included more information about safety monitoring",
     "Acknowledged concerns while providing factual context",
     "Added perspectives from diverse experts",
     "Clarified the risk-benefit analysis",
     "Included more detail about the research methodology",
     "Focused more on long-term data",
     "Addressed specific concerns mentioned in previous feedback"]
  }

  // ---------------------------------------------------------------------------
  // Draws and rounding

  /** `random.uniform(a, b)` as `a + (b - a) * u` for the underlying fraction `u`. */
  function Uniform(a: real, b: real, u: real): real
  {
    a + (b - a) * u
  }

  lemma UniformBounds(a: real, b: real, u: real)
    requires a <= b && 0.0 <= u <= 1.0
    ensures a <= Uniform(a, b, u) <= b
  {
    var d := b - a;
    assert d * u >= 0.0;
    assert d * (1.0 - u) >= 0.0;
  }

  /** Python `round(x, 1)`, as a number of tenths (halves rounded up). */
  function RoundTenths(x: real): int
  {
    (10.0 * x + 0.5).Floor
  }

  /** The raw normalised rating reaches the target. */
  predicate Reaches(c: int)
  {
    Normalize(Tenths(c)) >= TargetNormalized
  }

  /** The normalised rating logged in a row, `round((r - 1) / 3, 2)`, as a number of
      hundredths. A rating of `c` tenths normalises to exactly `10 (c - 10) / 3`
      hundredths, which is never halfway between two whole hundredths, so the rounding
      is `floor(10 (c - 10) / 3 + 1/2)`: this integer quotient. */
  function NormalizedHundredths(c: int): int
  {
    (20 * (c - RatingMin) + 3) / 6
  }

  lemma RoundTenthsAtMost(x: real, hi: int)
    requires x <= Tenths(hi)
    ensures RoundTenths(x) <= hi
  {
  }

  lemma RoundTenthsAtLeast(x: real, lo: int)
    requires Tenths(lo) <= x
    ensures lo <= RoundTenths(x)
  {
  }

  /** Rounding a value already on the tenths grid gives it back. */
  lemma RoundTenthsExact(c: int)
    ensures RoundTenths(Tenths(c)) == c
  {
  }

  /** The rating normalises to the target exactly from 3.4 on. */
  lemma ReachesIff(c: int)
    ensures Reaches(c) <==> c >= TargetStopRating
  {
    NormalizeAtLeast(Tenths(c), TargetNormalized);
  }

  /** The logged hundredths are the nearest to the exact normalised rating, strictly
      closer than half a hundredth. */
  lemma NormalizedNearest(c: int)
    ensures Abs(NormalizedHundredths(c) as real / 100.0 - Normalize(Tenths(c))) < 0.005
  {
    var a := c - RatingMin;
    var q := NormalizedHundredths(c);
    // 20a + 3 - 6q lies in [0, 6) and 6q - 20a is even, so it is -2, 0 or 2.
    var k := 3 * q - 10 * a;
    assert -3 < 2 * k <= 3;
    assert -1 <= k <= 1;
    assert q as real / 100.0 - Normalize(Tenths(c)) == k as real / 300.0;
  }

  /** The rounded normalised rating reaches 0.8 exactly when the rating reaches 3.4:
      rounding lifts 3.3's 0.7666... only to 0.77. */
  lemma NormalizedReachesIff(c: int)
    ensures NormalizedHundredths(c) >= TargetHundredths <==> c >= TargetStopRating
  {
  }

  // ---------------------------------------------------------------------------
  // Rating progressions

  /** Every fraction behind a sequence of `random.uniform` draws lies in [0, 1]. */
  ghost predicate Fractions(u: nat -> real)
  {
    forall i: nat :: 0.0 <= u(i) <= 1.0
  }

  /** The exact course of a progression from an initial rating in [1.0, 2.5] with `k`
      planned steps. A marked persona climbs by exactly 0.1 per planned step and then
      jumps to 3.4 when fewer than seven ratings exist, that is when `k <= 5`; with
      `k == 6` the seven ratings end at most at 3.1 and the target is never reached. An
      unmarked persona never falls and rises by at most 0.1 per step. */
  predicate ProgressionShape(initial: int, shouldReach: bool, k: int, p: seq<int>)
  {
    && 1 <= |p| && p[0] == initial
    && (forall j :: 0 <= j < |p| ==> RatingMin <= p[j])
    && (shouldReach ==>
         && (forall j :: 0 <= j < |p| && j <= k ==> p[j] == initial + j)
         && (k < MaxIterationsPerSession - 1 ==> |p| == k + 2 && p[k + 1] == TargetStopRating)
         && (k >= MaxIterationsPerSession - 1 ==> |p| == k + 1))
    && (!shouldReach ==> forall j :: 1 <= j < |p| ==> p[j - 1] <= p[j] <= p[j - 1] + 1)
  }

  /** From an initial rating of at most 2.5 the even step `(3.4 - initial) / k` is at
      least 0.15, so the step size is the maximum 0.1. */
  lemma FullStep(initial: int, k: int)
    requires RatingMin <= initial <= MaxInitialRating && 4 <= k <= MaxIterationsPerSession - 1
    ensures Min(MaxRatingChange, (Tenths(TargetStopRating) - Tenths(initial)) / k as real) == MaxRatingChange
  {
    var gap := Tenths(TargetStopRating) - Tenths(initial);
    var q := gap / k as real;
    assert q * k as real == gap >= MaxRatingChange * k as real;
    assert (q - MaxRatingChange) * k as real >= 0.0;
  }

  /** A change in [0.09, 0.1] from a tenths rating rounds to the next tenth. */
  lemma RoundNextTenth(c: int, change: real)
    requires 0.09 <= change <= MaxRatingChange
    ensures RoundTenths(Tenths(c) + change) == c + 1
  {
  }

  /** A value no more than 0.05 below a tenths rating rounds back up to at least it. */
  lemma RoundNotBelow(c: int, x: real)
    requires Tenths(c) - 0.05 <= x
    ensures c <= RoundTenths(x)
  {
  }

  /** The progression of a session that reaches the target. `k` is the number of
      planned steps (`random.randint(4, 6)`); `variation(i)` is the fraction behind the
      step's variation `random.uniform(-0.01, 0.01)`. The loop stops at the first rating
      that normalises to the target; if none did and there is room, 3.4 is appended. */
  method ReachingProgression(initial: int, k: int, variation: nat -> real) returns (p: seq<int>)
    requires 4 <= k <= MaxIterationsPerSession - 1 && Fractions(variation)
    ensures 2 <= |p| <= MaxIterationsPerSession && |p| <= k + 2
    ensures p[0] == initial
    ensures forall j :: 1 <= j < |p| ==> p[j] <= TargetStopRating
    ensures forall j :: 1 <= j < |p| - 1 ==> !Reaches(p[j])
    ensures Reaches(p[|p| - 1]) || |p| == MaxIterationsPerSession
    ensures RatingMin <= initial <= MaxInitialRating ==> ProgressionShape(initial, true, k, p)
  {
    var inRange := RatingMin <= initial <= MaxInitialRating;
    var target := Tenths(TargetStopRating);
    p := [initial];
    var current := initial;
    var step := Min(MaxRatingChange, (target - Tenths(initial)) / k as real);
    if step <= 0.0 {
      step := MaxRatingChange;
    }
    if inRange {
      FullStep(initial, k);
    }
    var i := 1;
    while i <= k
      invariant 1 <= i <= k + 1
      invariant |p| == i && p[0] == initial && p[|p| - 1] == current
      invariant forall j :: 1 <= j < |p| ==> p[j] <= TargetStopRating && !Reaches(p[j])
      invariant inRange ==> step == MaxRatingChange && forall j :: 0 <= j < |p| ==> p[j] == initial + j
    {
      UniformBounds(-0.01, 0.01, variation(i));
      var change := Min(MaxRatingChange, step + Uniform(-0.01, 0.01, variation(i)));
      RoundTenthsAtMost(Min(target, Tenths(current) + change), TargetStopRating);
      if inRange {
        RoundNextTenth(current, change);
      }
      current := RoundTenths(Min(target, Tenths(current) + change));
      p := p + [current];
      ReachesIff(current);
      if Reaches(current) {
        break;
      }
      i := i + 1;
    }
    if !Reaches(current) && |p| < MaxIterationsPerSession {
      current := TargetStopRating;
      ReachesIff(current);
      p := p + [current];
    }
  }

  /** `progression[-1] = x`, total on the empty list. */
  function ReplaceLast(s: seq<int>, x: int): (r: seq<int>)
    ensures |r| == |s|
  {
    if s == [] then s else s[..|s| - 1] + [x]
  }

  /** The progression of a session that must not reach the target: always seven
      ratings, each step drawn below a ceiling of 3.3 with headroom-dependent bounds
      (`change(i)` is the fraction behind the step's `random.uniform`), clamped to a
      change of at most 0.1 and to the range [1.0, 3.3]. */
  method MissingProgression(initial: int, change: nat -> real) returns (p: seq<int>)
    requires Fractions(change)
    ensures |p| == MaxIterationsPerSession
    ensures p[0] == initial
    ensures forall j :: 1 <= j < |p| ==> RatingMin <= p[j] <= MaxMissingRating && !Reaches(p[j])
    ensures RatingMin <= initial <= MaxInitialRating ==> ProgressionShape(initial, false, 0, p)
  {
    var inRange := RatingMin <= initial <= MaxInitialRating;
    var ceiling := Tenths(MaxMissingRating);
    p := [initial];
    var current := initial;
    while |p| < MaxIterationsPerSession
      invariant 1 <= |p| <= MaxIterationsPerSession && p[0] == initial && p[|p| - 1] == current
      invariant forall j :: 1 <= j < |p| ==> RatingMin <= p[j] <= MaxMissingRating && !Reaches(p[j])
      invariant inRange ==> RatingMin <= current <= MaxMissingRating
      invariant inRange ==> forall j :: 1 <= j < |p| ==> p[j - 1] <= p[j] <= p[j - 1] + 1
      decreases MaxIterationsPerSession - |p|
    {
      var headroom := ceiling - Tenths(current);
      var delta;
      if headroom < 0.3 {
        delta := Uniform(-0.05, Min(0.05, headroom * 0.3), change(|p|));
      } else {
        delta := Uniform(-0.05, Min(MaxRatingChange, headroom * 0.2), change(|p|));
      }
      if inRange {
        assert delta >= -0.05 by {
          if headroom < 0.3 {
            UniformBounds(-0.05, Min(0.05, headroom * 0.3), change(|p|));
          } else {
            UniformBounds(-0.05, Min(MaxRatingChange, headroom * 0.2), change(|p|));
          }
        }
      }
      delta := Max(-MaxRatingChange, Min(MaxRatingChange, delta));
      var next := Max(Tenths(RatingMin), Min(ceiling, Tenths(current) + delta));
      RoundTenthsAtMost(next, MaxMissingRating);
      RoundTenthsAtLeast(next, RatingMin);
      if inRange {
        RoundTenthsAtMost(next, current + 1);
        RoundNotBelow(current, next);
      }
      current := RoundTenths(next);
      ReachesIff(current);
      p := p + [current];
      if Reaches(current) {
        current := MaxMissingRating;
        p := ReplaceLast(p, current);
      }
    }
  }

  /** `calculate_realistic_progression`: the branch is chosen by `shouldReach`. The
      target rating and the iteration bounds the source also passes are not read by it. */
  method Progression(initial: int, shouldReach: bool, k: int, variation: nat -> real, change: nat -> real)
    returns (p: seq<int>)
    requires 4 <= k <= MaxIterationsPerSession - 1 && Fractions(variation) && Fractions(change)
    ensures 2 <= |p| <= MaxIterationsPerSession && p[0] == initial
    ensures !shouldReach ==> |p| == MaxIterationsPerSession
    ensures forall j :: 1 <= j < |p| ==> p[j] <= TargetStopRating
    ensures forall j :: 1 <= j < |p| - 1 ==> p[j] < TargetStopRating
    ensures shouldReach ==> p[|p| - 1] == TargetStopRating || |p| == MaxIterationsPerSession
    ensures !shouldReach ==> p[|p| - 1] < TargetStopRating
    ensures RatingMin <= initial <= MaxInitialRating ==> ProgressionShape(initial, shouldReach, k, p)
  {
    if shouldReach {
      p := ReachingProgression(initial, k, variation);
      ReachesIff(p[|p| - 1]);
    } else {
      p := MissingProgression(initial, change);
    }
    forall j | 1 <= j < |p| - 1
      ensures p[j] < TargetStopRating
    {
      ReachesIff(p[j]);
    }
  }

  // ---------------------------------------------------------------------------
  // Editor change summaries and article templates

  /** A draw of `random.sample(changes, n)` with `n` in 1..3. */
  predicate ValidSelection(selected: seq<string>)
  {
    1 <= |selected| <= 3 && NoDup(selected) && forall c :: c in selected ==> c in ChangeTexts()
  }

  /** `generate_changes_summary`: the selected changes joined by ". ". */
  function ChangesSummary(selected: seq<string>): string
  {
    Join(selected, ". ")
  }

  /** What the summary relies on: at least one change, and no empty change text. */
  predicate NonEmptyPicks(selected: seq<string>)
  {
    1 <= |selected| && forall c :: c in selected ==> c != ""
  }

  /** Every change text is non-empty, so each valid selection has non-empty picks. */
  lemma SelectionNonEmpty(selected: seq<string>)
    requires ValidSelection(selected)
    ensures NonEmptyPicks(selected)
  {
  }

  /** A summary of non-empty picks is never empty, and a single change is shown as is. */
  lemma ChangesSummaryNonEmpty(selected: seq<string>)
    requires NonEmptyPicks(selected)
    ensures ChangesSummary(selected) != ""
    ensures |selected| == 1 ==> ChangesSummary(selected) == selected[0]
  {
    assert selected[0] in selected;
  }

  /** A template variable and the options it is filled from. */
  datatype Variable = Variable(name: string, options: seq<string>)

  function Placeholder(name: string): (r: string)
    ensures |r| > 0
  {
    "{" + name + "}"
  }

  /** One turn of the filling loop: the placeholder, if present, is replaced everywhere
      by the chosen option. */
  function FillStep(template: string, v: Variable, choice: nat): string
    requires choice < |v.options|
  {
    if NoOcc(template, Placeholder(v.name)) then template
    else ReplaceAll(template, Placeholder(v.name), v.options[choice])
  }

  predicate ValidChoices(variables: seq<Variable>, choice: nat -> nat)
  {
    forall i :: 0 <= i < |variables| ==> choice(i) < |variables[i].options|
  }

  /** The template after the variables, in order, have been filled in. */
  function Filled(template: string, variables: seq<Variable>, choice: nat -> nat): string
    requires ValidChoices(variables, choice)
  {
    if variables == [] then template
    else
      var n := |variables| - 1;
      FillStep(Filled(template, variables[..n], choice), variables[n], choice(n))
  }

  /** The same filling without the `in` guard: every placeholder replaced unconditionally. */
  function Replaced(template: string, variables: seq<Variable>, choice: nat -> nat): string
    requires ValidChoices(variables, choice)
  {
    if variables == [] then template
    else
      var n := |variables| - 1;
      ReplaceAll(Replaced(template, variables[..n], choice), Placeholder(variables[n].name),
        variables[n].options[choice(n)])
  }

  /** The placeholder-filling loop of `generate_article`; `choice(i)` is the option
      `random.choice` picks for the `i`-th variable. */
  method FillTemplate(template: string, variables: seq<Variable>, choice: nat -> nat) returns (r: string)
    requires ValidChoices(variables, choice)
    ensures r == Filled(template, variables, choice)
  {
    r := template;
    for i := 0 to |variables|
      invariant r == Filled(template, variables[..i], choice)
    {
      var v := variables[i];
      assert variables[..i + 1][..i] == variables[..i];
      if !NoOcc(r, Placeholder(v.name)) {
        r := ReplaceAll(r, Placeholder(v.name), v.options[choice(i)]);
      }
    }
    assert variables[..|variables|] == variables;
  }

  /** The `in` guard before each `replace` changes nothing. */
  lemma {:induction false} GuardRedundant(template: string, variables: seq<Variable>, choice: nat -> nat)
    requires ValidChoices(variables, choice)
    ensures Filled(template, variables, choice) == Replaced(template, variables, choice)
    decreases |variables|
  {
    if variables != [] {
      var n := |variables| - 1;
      GuardRedundant(template, variables[..n], choice);
      var before := Filled(template, variables[..n], choice);
      var ph := Placeholder(variables[n].name);
      if NoOcc(before, ph) {
        ReplaceAbsent(before, ph, variables[n].options[choice(n)]);
      }
    }
  }

  /** A template holding none of the placeholders comes back unchanged. */
  lemma {:induction false} FillNothing(template: string, variables: seq<Variable>, choice: nat -> nat)
    requires ValidChoices(variables, choice)
    requires forall v :: v in variables ==> NoOcc(template, Placeholder(v.name))
    ensures Filled(template, variables, choice) == template
    decreases |variables|
  {
    if variables != [] {
      var n := |variables| - 1;
      assert forall v :: v in variables[..n] ==> v in variables;
      FillNothing(template, variables[..n], choice);
      assert variables[n] in variables;
    }
  }

  /** `generate_article`: the filled main template followed by the filled extra
      sentences, joined by spaces. */
  function Article(main: string, extras: seq<string>): (r: string)
  {
    Join([main] + extras, " ")
  }

  // ---------------------------------------------------------------------------
  // Rows

  /** The draws behind one row: whether a non-final iteration still gets a
      recommendation (`random.random() < 0.1`), the fraction behind the recommendation's
      variation `random.uniform(-0.2, 0.2)`, its reasoning text, the two weighted
      booleans, the editor changes picked, and the article generated for the next
      iteration. */
  datatype RowDraws = RowDraws(extraRecommendation: bool, recommendationU: real, reason: string,
    isFact: bool, isReal: bool, changes: seq<string>, nextArticle: string)

  datatype Reaction = Positive | Negative

  /** A CSV row; an empty cell is `None`, and the normalised ratings are in hundredths. */
  datatype Row = Row(sessionId: string, iteration: int, personaId: int, personaName: string,
    currentRating: int, normalizedCurrentRating: int, reaction: Reaction, article: string,
    recommendedRating: Option<int>, normalizedRecommendedRating: Option<int>, reason: string,
    isFact: bool, isReal: bool, editorChanges: string)

  /** The recommendation rating: the current rating moved by up to 0.2, clamped into
      [1.0, 3.43] and rounded to tenths. */
  function Recommendation(c: int, u: real): (r: int)
    ensures RatingMin <= r <= TargetStopRating
  {
    var x := Max(Tenths(RatingMin), Min(MaxFinalRating, Tenths(c) + Uniform(-0.2, 0.2, u)));
    RoundTenthsAtLeast(x, RatingMin);
    assert 10.0 * x + 0.5 < 35.0;
    RoundTenths(x)
  }

  /** The row logged for iteration `iteration` (from 1) with rating `c`; `last` says
      whether it is the progression's final entry. A cell is written empty when the
      value is falsy: a recommendation of 1.0 normalises to 0.0, whose cell is empty. */
  function RowOf(sessionId: string, persona: FixedPersona, iteration: int, last: bool, c: int,
    article: string, d: RowDraws): Row
  {
    var hasRecommendation := last || d.extraRecommendation;
    var rec := Recommendation(c, d.recommendationU);
    var normalizedRec := NormalizedHundredths(rec);
    Row(sessionId, iteration, persona.id, persona.name, c, NormalizedHundredths(c),
      if Tenths(c) >= 2.5 then Positive else Negative, article,
      if hasRecommendation && rec != 0 then Some(rec) else None,
      if hasRecommendation && normalizedRec != 0 then Some(normalizedRec) else None,
      if hasRecommendation then d.reason else "",
      d.isFact, d.isReal,
      if iteration == 1 then "" else ChangesSummary(d.changes))
  }

  /** What every row states about its sentiment, normalised rating, recommendation and
      editor changes. */
  lemma RowFacts(sessionId: string, persona: FixedPersona, iteration: int, last: bool, c: int,
    article: string, d: RowDraws)
    ensures var r := RowOf(sessionId, persona, iteration, last, c, article, d);
      && (r.reaction == Positive <==> c >= PositiveFrom)
      && (iteration == 1 ==> r.editorChanges == "")
      && r.normalizedCurrentRating == NormalizedHundredths(c)
      && (r.recommendedRating.Some? <==> last || d.extraRecommendation)
      && (r.recommendedRating.Some? ==> RatingMin <= r.recommendedRating.value <= TargetStopRating)
      && (r.recommendedRating.None? ==> r.normalizedRecommendedRating.None? && r.reason == "")
  {
  }

  /** From the second iteration on, every row names the editor's changes. */
  lemma RowEditorChanges(sessionId: string, persona: FixedPersona, iteration: int, last: bool, c: int,
    article: string, d: RowDraws)
    requires iteration >= 1 && NonEmptyPicks(d.changes)
    ensures RowOf(sessionId, persona, iteration, last, c, article, d).editorChanges == "" <==> iteration == 1
  {
    ChangesSummaryNonEmpty(d.changes);
  }

  /** The article shown at iteration `j + 1`: the first one, then the one generated
      after each earlier row. */
  function ArticleFor(first: string, draws: nat -> RowDraws, j: nat): string
  {
    if j == 0 then first else draws(j - 1).nextArticle
  }

  /** The row draws pick non-empty changes (every valid selection does: `SelectionNonEmpty`). */
  ghost predicate ValidRowDraws(draws: nat -> RowDraws)
  {
    forall j :: NonEmptyPicks(draws(j).changes)
  }

  /** What one session's rows are built from: its id, the persona, the progression,
      the first article and the per-row draws. */
  datatype SessionInput = SessionInput(id: string, persona: FixedPersona, progression: seq<int>,
    firstArticle: string, draws: nat -> RowDraws)

  /** The row logged for the progression's entry `i`. */
  function RowAt(s: SessionInput, i: nat): Row
    requires i < |s.progression|
  {
    RowOf(s.id, s.persona, i + 1, i + 1 == |s.progression|, s.progression[i],
      ArticleFor(s.firstArticle, s.draws, i), s.draws(i))
  }

  /** The rows of the first `n` entries. */
  function SessionPrefix(s: SessionInput, n: nat): (r: seq<Row>)
    requires n <= |s.progression|
    ensures |r| == n
  {
    if n == 0 then [] else SessionPrefix(s, n - 1) + [RowAt(s, n - 1)]
  }

  lemma SessionPrefixNext(s: SessionInput, j: nat, row: Row)
    requires j < |s.progression| && row == RowAt(s, j)
    ensures SessionPrefix(s, j + 1) == SessionPrefix(s, j) + [row]
  {
  }

  /** Row `i` of a prefix is the row of entry `i`. */
  lemma {:induction false} SessionPrefixAt(s: SessionInput, n: nat, i: nat)
    requires i < n <= |s.progression|
    ensures SessionPrefix(s, n)[i] == RowAt(s, i)
  {
    var prev := SessionPrefix(s, n - 1);
    assert SessionPrefix(s, n) == prev + [RowAt(s, n - 1)];
    if i < n - 1 {
      SessionPrefixAt(s, n - 1, i);
      assert (prev + [RowAt(s, n - 1)])[i] == prev[i];
    }
  }

  /** The per-row facts every logged row satisfies. */
  predicate GoodRow(r: Row)
  {
    && r.iteration >= 1
    && (r.reaction == Positive <==> r.currentRating >= PositiveFrom)
    && (r.editorChanges == "" <==> r.iteration == 1)
    && r.normalizedCurrentRating == NormalizedHundredths(r.currentRating)
    && (r.recommendedRating.Some? ==> RatingMin <= r.recommendedRating.value <= TargetStopRating)
  }

  /** A good row of session `s`. */
  predicate SessionRow(s: SessionInput, r: Row)
  {
    GoodRow(r) && r.currentRating <= TargetStopRating && r.sessionId == s.id && r.personaId == s.persona.id
  }

  /** The row of a rating at most 3.4 with non-empty picks is good. */
  lemma RowAtGood(s: SessionInput, i: nat)
    requires i < |s.progression| && s.progression[i] <= TargetStopRating
    requires NonEmptyPicks(s.draws(i).changes)
    ensures SessionRow(s, RowAt(s, i))
  {
    RowFacts(s.id, s.persona, i + 1, i + 1 == |s.progression|, s.progression[i],
      ArticleFor(s.firstArticle, s.draws, i), s.draws(i));
    RowEditorChanges(s.id, s.persona, i + 1, i + 1 == |s.progression|, s.progression[i],
      ArticleFor(s.firstArticle, s.draws, i), s.draws(i));
  }

  /** Every row of a session whose ratings stay at most 3.4 is good. */
  lemma SessionGood(s: SessionInput, n: nat)
    requires n <= |s.progression|
    requires forall j :: 0 <= j < |s.progression| ==> s.progression[j] <= TargetStopRating
    requires ValidRowDraws(s.draws)
    ensures forall r :: r in SessionPrefix(s, n) ==> SessionRow(s, r)
  {
    forall r | r in SessionPrefix(s, n)
      ensures SessionRow(s, r)
    {
      var i :| 0 <= i < n && SessionPrefix(s, n)[i] == r;
      SessionPrefixAt(s, n, i);
      assert NonEmptyPicks(s.draws(i).changes);
      RowAtGood(s, i);
    }
  }

  /** Some of the first `n` ratings reaches the target. */
  predicate AnyReached(progression: seq<int>, n: nat)
    requires n <= |progression|
  {
    n > 0 && (AnyReached(progression, n - 1) || progression[n - 1] >= TargetStopRating)
  }

  /** Logging entry `j` adds whether its rounded normalised rating reaches 0.8. */
  lemma ReachedNext(progression: seq<int>, j: nat)
    requires j < |progression|
    ensures AnyReached(progression, j + 1) == (AnyReached(progression, j) || NormalizedHundredths(progression[j]) >= TargetHundredths)
  {
    NormalizedReachesIff(progression[j]);
  }

  lemma {:induction false} AnyReachedIff(progression: seq<int>, n: nat)
    requires n <= |progression|
    ensures AnyReached(progression, n) <==> exists i :: 0 <= i < n && progression[i] >= TargetStopRating
  {
    if n > 0 {
      AnyReachedIff(progression, n - 1);
    }
  }

  /** One session's rows: one per progression entry, or fewer when the entry budget
      (`NUM_ENTRIES` less the rows already written) runs out. `reached` says whether a
      logged rating normalised to the target. */
  method SessionRows(s: SessionInput, budget: nat) returns (rows: seq<Row>, reached: bool)
    requires budget >= 1
    ensures |rows| == if |s.progression| <= budget then |s.progression| else budget
    ensures rows == SessionPrefix(s, |rows|)
    ensures reached == AnyReached(s.progression, |rows|)
  {
    rows := [];
    reached := false;
    var article := s.firstArticle;
    var j := 0;
    while j < |s.progression|
      invariant j <= |s.progression| && j < budget
      invariant j < |s.progression| ==> article == ArticleFor(s.firstArticle, s.draws, j)
      invariant rows == SessionPrefix(s, j)
      invariant reached == AnyReached(s.progression, j)
    {
      rows, reached, article := LogEntry(s, j, rows, reached, article);
      j := j + 1;
      if j >= budget {
        break;
      }
    }
  }

  /** One pass of the session loop: note whether entry `j` normalises to the target, log
      its row at iteration `j + 1`, and move to the article the row recommends next. */
  method LogEntry(s: SessionInput, j: nat, rows: seq<Row>, reached: bool, article: string)
    returns (rows': seq<Row>, reached': bool, article': string)
    requires j < |s.progression| && article == ArticleFor(s.firstArticle, s.draws, j)
    requires rows == SessionPrefix(s, j) && reached == AnyReached(s.progression, j)
    ensures rows' == SessionPrefix(s, j + 1)
    ensures reached' == AnyReached(s.progression, j + 1)
    ensures j + 1 < |s.progression| ==> article' == ArticleFor(s.firstArticle, s.draws, j + 1)
  {
    var c := s.progression[j];
    ReachedNext(s.progression, j);
    reached' := reached || NormalizedHundredths(c) >= TargetHundredths;
    var row := RowOf(s.id, s.persona, j + 1, j + 1 == |s.progression|, c, article, s.draws(j));
    SessionPrefixNext(s, j, row);
    rows' := rows + [row];
    article' := article;
    if j + 1 < |s.progression| {
      article' := s.draws(j).nextArticle;
    }
  }

  // ---------------------------------------------------------------------------
  // The whole data set

  /** A persona with the fields the generator adds to it. */
  datatype Plan = Plan(persona: FixedPersona, shouldReach: bool, initial: int, target: int)

  /** The draws behind one persona and its session: the fractions behind the initial and
      target ratings, the session id, the planned step count and step fractions of the
      progression, the first article, and the per-row draws. */
  datatype PersonaDraws = PersonaDraws(initialU: real, targetU: real, sessionId: string, steps: int,
    variation: nat -> real, change: nat -> real, firstArticle: string, rows: nat -> RowDraws)

  ghost predicate ValidPersonaDraws(d: PersonaDraws)
  {
    0.0 <= d.initialU <= 1.0 && 0.0 <= d.targetU <= 1.0 && 4 <= d.steps <= MaxIterationsPerSession - 1
    && Fractions(d.variation) && Fractions(d.change) && ValidRowDraws(d.rows)
  }

  /** The persona preparation: the first five of the shuffled order are marked to reach
      the target; each gets an initial rating in [1.0, 2.5] and a target rating (unused
      by the progression) at 3.4 for those marked and between the initial rating and
      3.3 for the others. */
  method PreparePersonas(order: seq<FixedPersona>, draws: nat -> PersonaDraws) returns (plans: seq<Plan>)
    requires forall i :: 0 <= i < |order| ==> ValidPersonaDraws(draws(i))
    ensures |plans| == |order|
    ensures forall i :: 0 <= i < |plans| ==> plans[i].persona == order[i]
    ensures forall i :: 0 <= i < |plans| ==> (plans[i].shouldReach <==> i < NumSuccessPersonas)
    ensures forall i :: 0 <= i < |plans| ==> GoodPlan(plans[i])
  {
    var marks: seq<bool> := [];
    for i := 0 to |order|
      invariant |marks| == i
      invariant forall j :: 0 <= j < i ==> (marks[j] <==> j < NumSuccessPersonas)
    {
      marks := marks + [i < NumSuccessPersonas];
    }
    plans := [];
    for i := 0 to |order|
      invariant |plans| == i
      invariant forall j :: 0 <= j < i ==> plans[j].persona == order[j] && plans[j].shouldReach == marks[j]
      invariant forall j :: 0 <= j < i ==> GoodPlan(plans[j])
    {
      var plan := PlanFor(order[i], marks[i], draws(i));
      plans := plans + [plan];
    }
  }

  /** The rating ranges of a prepared persona. */
  predicate GoodPlan(p: Plan)
  {
    && RatingMin <= p.initial <= MaxInitialRating
    && if p.shouldReach then p.target == TargetStopRating
       else p.initial <= p.target <= MaxMissingRating
  }

  /** One persona's initial and target ratings. */
  method PlanFor(persona: FixedPersona, mark: bool, d: PersonaDraws) returns (plan: Plan)
    requires 0.0 <= d.initialU <= 1.0 && 0.0 <= d.targetU <= 1.0
    ensures plan.persona == persona && plan.shouldReach == mark
    ensures GoodPlan(plan)
  {
    var x := Uniform(Tenths(RatingMin), Tenths(MaxInitialRating), d.initialU);
    RoundTenthsAtLeast(x, RatingMin);
    RoundTenthsAtMost(x, MaxInitialRating);
    var initial := RoundTenths(x);
    var target;
    if mark {
      var y := Uniform(Tenths(TargetStopRating), MaxFinalRating, d.targetU);
      RoundTenthsAtLeast(y, TargetStopRating);
      assert 10.0 * y + 0.5 < 35.0;
      target := RoundTenths(y);
    } else {
      var y := Uniform(Tenths(initial), Tenths(TargetStopRating) - 0.1, d.targetU);
      UniformBounds(Tenths(initial), Tenths(TargetStopRating) - 0.1, d.targetU);
      RoundTenthsAtMost(y, MaxMissingRating);
      RoundTenthsAtLeast(y, initial);
      target := RoundTenths(y);
    }
    plan := Plan(persona, mark, initial, target);
  }

  predicate ShouldReach(p: Plan)
  {
    p.shouldReach
  }

  /** Five of the seven shuffled personas are marked to reach the target. */
  lemma {:induction false} MarkedCount(plans: seq<Plan>)
    requires |plans| == NumPersonas
    requires forall i :: 0 <= i < |plans| ==> (plans[i].shouldReach <==> i < NumSuccessPersonas)
    ensures Count(plans, ShouldReach) == NumSuccessPersonas
  {
    MarkedPrefix(plans, |plans|);
    assert plans[..|plans|] == plans;
  }

  lemma {:induction false} MarkedPrefix(plans: seq<Plan>, n: nat)
    requires n <= |plans|
    requires forall i :: 0 <= i < |plans| ==> (plans[i].shouldReach <==> i < NumSuccessPersonas)
    ensures Count(plans[..n], ShouldReach) == if n <= NumSuccessPersonas then n else NumSuccessPersonas
  {
    if n > 0 {
      MarkedPrefix(plans, n - 1);
      assert plans[..n][..n - 1] == plans[..n - 1];
      CountLast(plans[..n], ShouldReach);
    }
  }

  /** What `calculate_realistic_progression` promises for a plan with `k` planned steps
      (`Progression`). */
  predicate ProgressionFor(plan: Plan, k: int, p: seq<int>)
  {
    && 2 <= |p| <= MaxIterationsPerSession && p[0] == plan.initial
    && (forall j :: 1 <= j < |p| ==> p[j] <= TargetStopRating)
    && (forall j :: 1 <= j < |p| - 1 ==> p[j] < TargetStopRating)
    && (plan.shouldReach ==> p[|p| - 1] == TargetStopRating || |p| == MaxIterationsPerSession)
    && (!plan.shouldReach ==> |p| == MaxIterationsPerSession && p[|p| - 1] < TargetStopRating)
    && ProgressionShape(plan.initial, plan.shouldReach, k, p)
  }

  /** The session of a plan with progression `p`, drawn from `d`. */
  function SessionFor(plan: Plan, d: PersonaDraws, p: seq<int>): SessionInput
  {
    SessionInput(d.sessionId, plan.persona, p, d.firstArticle, d.rows)
  }

  /** The number of rows a progression logs within the budget. */
  function SessionLength(p: seq<int>, budget: nat): (n: nat)
    ensures n <= |p| && n <= budget
  {
    if |p| <= budget then |p| else budget
  }

  /** `session` is what a plan with progression `p` logs within `budget` (at least 1):
      the rows of its first entries, as many as the budget allows. */
  predicate SessionLogged(plan: Plan, d: PersonaDraws, p: seq<int>, budget: int, session: seq<Row>)
  {
    && budget >= 1
    && |session| == SessionLength(p, budget)
    && session == SessionPrefix(SessionFor(plan, d, p), |session|)
  }

  /** One persona's session: its progression and the rows logged for it within the
      remaining entry budget; `reached` says whether a logged rating normalised to the
      target. */
  method PersonaSession(plan: Plan, d: PersonaDraws, budget: nat)
    returns (progression: seq<int>, session: seq<Row>, reached: bool)
    requires budget >= 1 && GoodPlan(plan) && ValidPersonaDraws(d)
    ensures ProgressionFor(plan, d.steps, progression)
    ensures SessionLogged(plan, d, progression, budget, session) && 1 <= |session|
    ensures reached == AnyReached(progression, |session|)
    ensures forall r :: r in session ==> GoodRow(r) && r.currentRating <= TargetStopRating
    ensures forall r :: r in session ==> r.sessionId == d.sessionId && r.personaId == plan.persona.id
  {
    progression := Progression(plan.initial, plan.shouldReach, d.steps, d.variation, d.change);
    var input := SessionFor(plan, d, progression);
    session, reached := SessionRows(input, budget);
    SessionGood(input, |session|);
  }

  /** A persona not marked to reach the target never does: its ratings stay below 3.4. */
  lemma UnmarkedNeverReaches(plan: Plan, k: int, p: seq<int>, n: nat)
    requires GoodPlan(plan) && ProgressionFor(plan, k, p) && !plan.shouldReach && n <= |p|
    ensures !AnyReached(p, n)
  {
    AnyReachedIff(p, n);
    forall i | 0 <= i < n
      ensures p[i] < TargetStopRating
    {
      if i == 0 {
        assert p[0] == plan.initial;
      }
    }
  }

  /** A marked persona reaches the target exactly when its planned step count leaves room
      for the final jump to 3.4: when `randint(4, 6)` draws 6, the climb alone fills the
      seven iterations and ends at most at 3.1. */
  lemma MarkedReachesIff(plan: Plan, k: int, p: seq<int>)
    requires GoodPlan(plan) && plan.shouldReach && 4 <= k <= MaxIterationsPerSession - 1
    requires ProgressionFor(plan, k, p)
    ensures AnyReached(p, |p|) <==> k < MaxIterationsPerSession - 1
    ensures k == MaxIterationsPerSession - 1 ==> forall j :: 0 <= j < |p| ==> p[j] <= plan.initial + k < TargetStopRating
  {
    AnyReachedIff(p, |p|);
    if k < MaxIterationsPerSession - 1 {
      assert p[k + 1] >= TargetStopRating;
    }
  }

  /** Each step changes the rating by at most 0.1, as `MAX_RATING_CHANGE_PER_ITERATION`
      intends, except a marked persona's final jump to 3.4, which is at least 0.4. */
  lemma StepsWithinTenth(plan: Plan, k: int, p: seq<int>)
    requires GoodPlan(plan) && 4 <= k <= MaxIterationsPerSession - 1 && ProgressionFor(plan, k, p)
    ensures forall j :: 1 <= j < |p| && !(plan.shouldReach && j == k + 1) ==> -1 <= p[j] - p[j - 1] <= 1
    ensures plan.shouldReach && k < MaxIterationsPerSession - 1 ==> p[k + 1] - p[k] >= 4
    ensures forall j :: 0 <= j < |p| ==> RatingMin <= p[j]
  {
  }

  /** The entry budget left for session `i`: `NUM_ENTRIES` less the earlier sessions' rows. */
  function BudgetBefore(sessions: seq<seq<Row>>, i: nat): int
    requires i <= |sessions|
  {
    NumEntries - |Concat(sessions[..i])|
  }

  /** Session `i` of `sessions` is what plan `i` logs with progression `progs[i]` in the
      budget the earlier sessions left. */
  predicate AllLogged(plans: seq<Plan>, draws: nat -> PersonaDraws, progs: seq<seq<int>>, sessions: seq<seq<Row>>)
    requires |sessions| == |progs| <= |plans|
  {
    forall i :: 0 <= i < |sessions| ==>
      SessionLogged(plans[i], draws(i), progs[i], BudgetBefore(sessions, i), sessions[i])
  }

  /** The number of sessions whose logged ratings reached the target. */
  function ReachedCount(progs: seq<seq<int>>, sessions: seq<seq<Row>>): nat
    requires |progs| == |sessions|
    requires forall i :: 0 <= i < |progs| ==> |sessions[i]| <= |progs[i]|
  {
    if |progs| == 0 then 0
    else
      var n := |progs| - 1;
      ReachedCount(progs[..n], sessions[..n]) + (if AnyReached(progs[n], |sessions[n]|) then 1 else 0)
  }

  /** Logging one more session extends every record of the loop by it. */
  lemma SessionsNext(plans: seq<Plan>, draws: nat -> PersonaDraws, progs: seq<seq<int>>, sessions: seq<seq<Row>>,
                     p: seq<int>, session: seq<Row>)
    requires |sessions| == |progs| < |plans|
    requires AllLogged(plans, draws, progs, sessions)
    requires SessionLogged(plans[|progs|], draws(|progs|), p, NumEntries - |Concat(sessions)|, session)
    ensures AllLogged(plans, draws, progs + [p], sessions + [session])
    ensures Concat(sessions + [session]) == Concat(sessions) + session
  {
    var n := |sessions|;
    var sessions' := sessions + [session];
    assert sessions'[..n] == sessions;
    forall i | 0 <= i <= n
      ensures BudgetBefore(sessions', i) == if i < n then BudgetBefore(sessions, i) else NumEntries - |Concat(sessions)|
    {
      if i < n {
        assert sessions'[..i] == sessions[..i];
      }
    }
  }

  lemma ReachedCountNext(progs: seq<seq<int>>, sessions: seq<seq<Row>>, p: seq<int>, session: seq<Row>)
    requires |progs| == |sessions| && |session| <= |p|
    requires forall i :: 0 <= i < |progs| ==> |sessions[i]| <= |progs[i]|
    ensures ReachedCount(progs + [p], sessions + [session])
      == ReachedCount(progs, sessions) + (if AnyReached(p, |session|) then 1 else 0)
  {
    assert (progs + [p])[..|progs|] == progs;
    assert (sessions + [session])[..|sessions|] == sessions;
  }

  /** Only a persona marked to reach the target can succeed; the marked count of the
      plans so far grows by that mark. */
  lemma MarkedNext(plans: seq<Plan>, i: nat, k: int, p: seq<int>, n: nat)
    requires i < |plans| && GoodPlan(plans[i]) && ProgressionFor(plans[i], k, p) && n <= |p|
    ensures AnyReached(p, n) ==> plans[i].shouldReach
    ensures Count(plans[..i + 1], ShouldReach) == Count(plans[..i], ShouldReach) + (if plans[i].shouldReach then 1 else 0)
  {
    if !plans[i].shouldReach {
      UnmarkedNeverReaches(plans[i], k, p, n);
    }
    assert plans[..i + 1][..i] == plans[..i];
    CountLast(plans[..i + 1], ShouldReach);
  }

  /** What the generator has produced after the sessions of the first `|progs|` plans
      (besides `AllLogged`): `rows` is the sessions' concatenation, `successful` the number
      that reached the target (never more than were marked to), and every row is well formed. */
  predicate Generated(plans: seq<Plan>, draws: nat -> PersonaDraws, progs: seq<seq<int>>,
                      sessions: seq<seq<Row>>, rows: seq<Row>, successful: nat)
  {
    && |sessions| == |progs| <= |plans| && |rows| <= NumEntries
    && (forall i :: 0 <= i < |progs| ==> ProgressionFor(plans[i], draws(i).steps, progs[i]))
    && (forall i :: 0 <= i < |sessions| ==> |sessions[i]| <= |progs[i]|)
    && rows == Concat(sessions)
    && successful == ReachedCount(progs, sessions)
    && successful <= Count(plans[..|progs|], ShouldReach)
    && (forall r :: r in rows ==> GoodRow(r) && r.currentRating <= TargetStopRating)
  }

  /** One more session, no longer than its progression and the budget left, keeps `Generated`. */
  lemma GeneratedNext(plans: seq<Plan>, draws: nat -> PersonaDraws, progs: seq<seq<int>>,
                      sessions: seq<seq<Row>>, rows: seq<Row>, successful: nat,
                      p: seq<int>, session: seq<Row>, reached: bool)
    requires Generated(plans, draws, progs, sessions, rows, successful) && |progs| < |plans|
    requires GoodPlan(plans[|progs|]) && ProgressionFor(plans[|progs|], draws(|progs|).steps, p)
    requires |session| <= |p| && |session| <= NumEntries - |rows|
    requires reached == AnyReached(p, |session|)
    requires forall r :: r in session ==> GoodRow(r) && r.currentRating <= TargetStopRating
    ensures Generated(plans, draws, progs + [p], sessions + [session], rows + session,
                      if reached then successful + 1 else successful)
  {
    assert (sessions + [session])[..|sessions|] == sessions;
    ReachedCountNext(progs, sessions, p, session);
    MarkedNext(plans, |progs|, draws(|progs|).steps, p, |session|);
    ProgressionsNext(plans, draws, progs, p);
    LengthsNext(progs, sessions, p, session);
  }

  lemma ProgressionsNext(plans: seq<Plan>, draws: nat -> PersonaDraws, progs: seq<seq<int>>, p: seq<int>)
    requires |progs| < |plans|
    requires forall i :: 0 <= i < |progs| ==> ProgressionFor(plans[i], draws(i).steps, progs[i])
    requires ProgressionFor(plans[|progs|], draws(|progs|).steps, p)
    ensures forall i :: 0 <= i < |progs + [p]| ==> ProgressionFor(plans[i], draws(i).steps, (progs + [p])[i])
  {
    forall i | 0 <= i < |progs + [p]|
      ensures ProgressionFor(plans[i], draws(i).steps, (progs + [p])[i])
    {
      if i < |progs| {
        assert (progs + [p])[i] == progs[i];
      }
    }
  }

  lemma LengthsNext(progs: seq<seq<int>>, sessions: seq<seq<Row>>, p: seq<int>, session: seq<Row>)
    requires |progs| == |sessions| && |session| <= |p|
    requires forall i :: 0 <= i < |sessions| ==> |sessions[i]| <= |progs[i]|
    ensures forall i :: 0 <= i < |sessions + [session]| ==> |(sessions + [session])[i]| <= |(progs + [p])[i]|
  {
    forall i | 0 <= i < |sessions + [session]|
      ensures |(sessions + [session])[i]| <= |(progs + [p])[i]|
    {
      if i < |sessions| {
        assert (sessions + [session])[i] == sessions[i] && (progs + [p])[i] == progs[i];
      }
    }
  }

  /** A shuffle of the fixed personas has seven entries. */
  lemma ShuffledCount(order: seq<FixedPersona>)
    requires multiset(order) == multiset(FixedPersonas())
    ensures |order| == NumPersonas
  {
    assert |order| == |multiset(order)|;
  }

  /** One pass of the persona loop of `generate_synthetic_data`: the next plan's session,
      logged within what is left of `NUM_ENTRIES`, appended to what came before. */
  method NextSession(plans: seq<Plan>, draws: nat -> PersonaDraws, progs: seq<seq<int>>,
                     sessions: seq<seq<Row>>, rows: seq<Row>, successful: nat)
    returns (progs': seq<seq<int>>, sessions': seq<seq<Row>>, rows': seq<Row>, successful': nat)
    requires Generated(plans, draws, progs, sessions, rows, successful)
    requires AllLogged(plans, draws, progs, sessions)
    requires |progs| < |plans| && |rows| < NumEntries
    requires GoodPlan(plans[|progs|]) && ValidPersonaDraws(draws(|progs|))
    ensures |progs'| == |sessions'| == |progs| + 1
    ensures progs'[..|progs|] == progs && sessions'[..|sessions|] == sessions
    ensures rows' == rows + sessions'[|sessions|]
    ensures SessionLogged(plans[|progs|], draws(|progs|), progs'[|progs|], NumEntries - |rows|, sessions'[|sessions|])
    ensures successful' == successful + if AnyReached(progs'[|progs|], |sessions'[|sessions|]|) then 1 else 0
    ensures Generated(plans, draws, progs', sessions', rows', successful')
    ensures AllLogged(plans, draws, progs', sessions')
  {
    var i := |progs|;
    var p, session, reached := PersonaSession(plans[i], draws(i), NumEntries - |rows|);
    GeneratedNext(plans, draws, progs, sessions, rows, successful, p, session, reached);
    SessionsNext(plans, draws, progs, sessions, p, session);
    progs' := progs + [p];
    sessions' := sessions + [session];
    rows' := rows + session;
    successful' := if reached then successful + 1 else successful;
    assert progs'[..i] == progs && sessions'[..i] == sessions;
  }

  /** `generate_synthetic_data`: one session per persona in the shuffled `order`, while
      fewer than `NUM_ENTRIES` rows are logged; `successful` counts the sessions whose
      logged ratings reached the target. */
  method GenerateSyntheticData(order: seq<FixedPersona>, draws: nat -> PersonaDraws)
    returns (plans: seq<Plan>, progressions: seq<seq<int>>, sessions: seq<seq<Row>>, rows: seq<Row>, successful: nat)
    requires |order| == NumPersonas
    requires forall i :: 0 <= i < |order| ==> ValidPersonaDraws(draws(i))
    ensures |plans| == NumPersonas
    ensures forall i :: 0 <= i < |plans| ==> plans[i].persona == order[i] && GoodPlan(plans[i])
    ensures Count(plans, ShouldReach) == NumSuccessPersonas
    ensures 1 <= |progressions| <= |plans| && |sessions| == |progressions|
    ensures forall i :: 0 <= i < |progressions| ==> ProgressionFor(plans[i], draws(i).steps, progressions[i])
    ensures AllLogged(plans, draws, progressions, sessions)
    ensures forall i :: 0 <= i < |sessions| ==> |sessions[i]| <= |progressions[i]|
    ensures rows == Concat(sessions)
    ensures |progressions| == |plans| || |rows| == NumEntries
    ensures successful == ReachedCount(progressions, sessions)
    ensures successful <= NumSuccessPersonas
    ensures forall r :: r in rows ==> GoodRow(r) && r.currentRating <= TargetStopRating
  {
    plans := PreparePersonas(order, draws);
    MarkedCount(plans);
    progressions := [];
    sessions := [];
    rows := [];
    successful := 0;
    while |progressions| < |plans| && |rows| < NumEntries
      invariant Generated(plans, draws, progressions, sessions, rows, successful)
      invariant AllLogged(plans, draws, progressions, sessions)
      decreases |plans| - |progressions|
    {
      progressions, sessions, rows, successful := NextSession(plans, draws, progressions, sessions, rows, successful);
    }
    MarkedPrefix(plans, |progressions|);
  }
}
