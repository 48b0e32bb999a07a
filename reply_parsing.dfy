/** Parsing of the language model's replies (`Agent.process_response` for the user and
    the editor role, `Agent.process_recommendation_response`). Both simulation scripts
    carry the same code. Every marker lookup is Python's `s.split(M)[1]`, which is the
    text between the first and the second `M`, and fails when `M` is absent; every
    failure, including an unparsable rating, falls back to fixed default values. */
module ReplyParsing {
  import opened Wrappers
  import opened Strings
  import opened Numeric
  import Seqs

  const ReactionMarker: string := "REACTION:"
  const RatingMarker: string := "RATING:"
  const ReasoningMarker: string := "REASONING:"
  const SummaryMarker: string := "CHANGES_SUMMARY:"
  const ArticleMarker: string := "ARTICLE:"
  const RecommendationMarker: string := "RECOMMENDATION_RATING:"

  const ErrorReaction: string := "Error processing response"
  const ErrorReasoning: string := "Error in response format"
  const ErrorSummary: string := "Error extracting changes summary"

  /** `(reaction, rating, reasoning)` of the user role. */
  datatype UserReply = UserReply(reaction: string, rating: real, reasoning: string)

  /** `(article, None, changes_summary)` of the editor role; the middle component is always `None`. */
  datatype EditorReply = EditorReply(article: string, changesSummary: string)

  /** `(rating, reasoning)` of the recommendation reply. */
  datatype Recommendation = Recommendation(rating: real, reasoning: string)

  /** `max(1, min(4, rating))`, applied when `not 1 <= rating <= 4`. */
  function ClampRating(r: real): (c: real)
    ensures 1.0 <= c <= 4.0
    ensures 1.0 <= r <= 4.0 ==> c == r
  {
    if 1.0 <= r <= 4.0 then r else Clamp(1.0, 4.0, r)
  }

  /** The rating in the text after a rating marker: the text before `REASONING:`,
      stripped, cut at the first `/` (so `"4/4"` reads as 4), then `float()`. */
  function ReadRating(segment: string): Option<real>
  {
    ParseFloat(SplitHead(Strip(SplitHead(segment, ReasoningMarker)), "/"))
  }

  function UserError(currentRating: real): UserReply
  {
    UserReply(ErrorReaction, currentRating, ErrorReasoning)
  }

  /** `process_response` in the user role. */
  function ProcessUserResponse(response: string, currentRating: real): UserReply
  {
    var reactionPart := SplitSecond(response, ReactionMarker);
    var ratingPart := SplitSecond(response, RatingMarker);
    var reasoningPart := SplitSecond(response, ReasoningMarker);
    if reactionPart.None? || ratingPart.None? || reasoningPart.None? then UserError(currentRating)
    else
      match ReadRating(ratingPart.value)
      case None => UserError(currentRating)
      case Some(v) =>
        UserReply(Strip(SplitHead(reactionPart.value, RatingMarker)), ClampRating(v), Strip(reasoningPart.value))
  }

  /** `process_response` in the editor role. */
  function ProcessEditorResponse(response: string): EditorReply
  {
    var summaryPart := SplitSecond(response, SummaryMarker);
    var articlePart := SplitSecond(response, ArticleMarker);
    if summaryPart.None? || articlePart.None? then EditorReply(Strip(response), ErrorSummary)
    else EditorReply(Strip(articlePart.value), Strip(SplitHead(summaryPart.value, ArticleMarker)))
  }

  /** `process_recommendation_response`. */
  function ProcessRecommendationResponse(response: string, currentRating: real): Recommendation
  {
    var ratingPart := SplitSecond(response, RecommendationMarker);
    var reasoningPart := SplitSecond(response, ReasoningMarker);
    if ratingPart.None? || reasoningPart.None? then Recommendation(currentRating, ErrorReasoning)
    else
      match ReadRating(ratingPart.value)
      case None => Recommendation(currentRating, ErrorReasoning)
      case Some(v) => Recommendation(ClampRating(v), Strip(reasoningPart.value))
  }

  /** A user reply either fails to parse, keeping the current rating, or carries a rating on
      the 1..4 scale. */
  lemma UserReplyRange(response: string, currentRating: real)
    ensures var r := ProcessUserResponse(response, currentRating);
      r == UserError(currentRating) || 1.0 <= r.rating <= 4.0
  {
  }

  /** A user reply missing any of its three markers is a parse error. */
  lemma UserMissingMarker(response: string, currentRating: real)
    requires NoOcc(response, ReactionMarker) || NoOcc(response, RatingMarker) || NoOcc(response, ReasoningMarker)
    ensures ProcessUserResponse(response, currentRating) == UserError(currentRating)
  {
  }

  /** An editor reply missing either marker is taken whole, stripped, as the article. */
  lemma EditorMissingMarker(response: string)
    requires NoOcc(response, SummaryMarker) || NoOcc(response, ArticleMarker)
    ensures ProcessEditorResponse(response) == EditorReply(Strip(response), ErrorSummary)
  {
  }

  /** A recommendation either fails to parse, keeping the current rating, or carries a
      rating on the 1..4 scale. */
  lemma RecommendationRange(response: string, currentRating: real)
    ensures var r := ProcessRecommendationResponse(response, currentRating);
      r == Recommendation(currentRating, ErrorReasoning) || 1.0 <= r.rating <= 4.0
  {
  }

  /** A recommendation missing either marker is a parse error. */
  lemma RecommendationMissingMarker(response: string, currentRating: real)
    requires NoOcc(response, RecommendationMarker) || NoOcc(response, ReasoningMarker)
    ensures ProcessRecommendationResponse(response, currentRating) == Recommendation(currentRating, ErrorReasoning)
  {
  }

  // ---------------------------------------------------------------------------
  // The reply formats the prompts ask for, and the round trips through the parsers

  /** `REACTION: ...` / `RATING: ...` / `REASONING: ...`, one per line. */
  function FormatUserReply(reaction: string, rating: string, reasoning: string): string
  {
    ReactionMarker + " " + reaction + "\n" + RatingMarker + " " + rating + "\n" + ReasoningMarker + " " + reasoning
  }

  /** `CHANGES_SUMMARY: ...`, a blank line, `ARTICLE: ...`. */
  function FormatEditorReply(summary: string, article: string): string
  {
    SummaryMarker + " " + summary + "\n\n" + ArticleMarker + " " + article
  }

  /** `RECOMMENDATION_RATING: ...` / `REASONING: ...`. */
  function FormatRecommendation(rating: string, reasoning: string): string
  {
    RecommendationMarker + " " + rating + "\n" + ReasoningMarker + " " + reasoning
  }

  /** A free-text field of a user reply: no surrounding whitespace and no user marker. */
  predicate UserField(s: string)
  {
    Trimmed(s) && NoOcc(s, ReactionMarker) && NoOcc(s, RatingMarker) && NoOcc(s, ReasoningMarker)
  }

  /** What may follow the number in a rating line: nothing, or `/` and a denominator. */
  predicate RatingSuffix(s: string)
  {
    (s == [] || s[0] == '/') && Trimmed(s)
    && NoOcc(s, ReactionMarker) && NoOcc(s, RatingMarker) && NoOcc(s, ReasoningMarker) && NoOcc(s, RecommendationMarker)
  }

  predicate EditorField(s: string)
  {
    Trimmed(s) && NoOcc(s, SummaryMarker) && NoOcc(s, ArticleMarker)
  }

  predicate RecommendationField(s: string)
  {
    Trimmed(s) && NoOcc(s, RecommendationMarker) && NoOcc(s, ReasoningMarker)
  }

  /** A rating as a reply writes it: no blank at either end, no `R` (every marker has
      one) and no `/`. */
  predicate RatingShape(w: string)
  {
    w != [] && !IsSpace(w[0]) && !IsSpace(w[|w| - 1]) && 'R' !in w && '/' !in w
  }

  /** A rating text that `float()` reads as `v`. */
  predicate RatingText(w: string, v: real)
  {
    RatingShape(w) && ParseFloat(w) == Some(v)
  }

  /** A well-formed user reply gives back its trimmed reaction, its rating clamped into
      [1, 4] with any `/` suffix dropped, and its trimmed reasoning. */
  lemma UserRoundTripText(reaction: string, w: string, v: real, suffix: string, reasoning: string, currentRating: real)
    requires UserField(reaction) && UserField(reasoning) && RatingText(w, v) && RatingSuffix(suffix)
    ensures ProcessUserResponse(FormatUserReply(reaction, w + suffix, reasoning), currentRating)
         == UserReply(reaction, ClampRating(v), reasoning)
  {
    var f := FormatUserReply(reaction, w + suffix, reasoning);
    UserSegments(reaction, w, suffix, reasoning);
    StripPadded(" ", reaction, "\n");
    StripPadded(" ", reasoning, "");
    assert " " + reasoning == " " + reasoning + "";
    ReadRatingText(w, v, suffix, SplitSecond(f, RatingMarker).value);
    UserAssembly(f, currentRating, " " + reaction + "\n", " " + reasoning, v);
  }

  /** The round trip for a rating written with one decimal, such as `"3.4"`. */
  lemma UserRoundTrip(reaction: string, t: int, suffix: string, reasoning: string, currentRating: real)
    requires UserField(reaction) && UserField(reasoning) && RatingSuffix(suffix)
    ensures ProcessUserResponse(FormatUserReply(reaction, ShowTenths(t) + suffix, reasoning), currentRating)
         == UserReply(reaction, ClampRating(Tenths(t)), reasoning)
  {
    ShowTenthsText(t);
    UserRoundTripText(reaction, ShowTenths(t), Tenths(t), suffix, reasoning, currentRating);
  }

  /** The round trip for a whole-number rating, such as `"3"` or `"3/4"`. */
  lemma UserWholeRoundTrip(reaction: string, n: nat, suffix: string, reasoning: string, currentRating: real)
    requires UserField(reaction) && UserField(reasoning) && RatingSuffix(suffix)
    ensures ProcessUserResponse(FormatUserReply(reaction, ShowNat(n) + suffix, reasoning), currentRating)
         == UserReply(reaction, ClampRating(n as real), reasoning)
  {
    ShowNatText(n);
    UserRoundTripText(reaction, ShowNat(n), n as real, suffix, reasoning, currentRating);
  }

  /** How `process_response` reads a user reply once its three segments are known. */
  lemma UserAssembly(f: string, currentRating: real, p1: string, p3: string, v: real)
    requires SplitSecond(f, ReactionMarker).Some? && SplitHead(SplitSecond(f, ReactionMarker).value, RatingMarker) == p1
    requires SplitSecond(f, RatingMarker).Some? && ReadRating(SplitSecond(f, RatingMarker).value) == Some(v)
    requires SplitSecond(f, ReasoningMarker) == Some(p3)
    ensures ProcessUserResponse(f, currentRating) == UserReply(Strip(p1), ClampRating(v), Strip(p3))
  {
  }

  /** The three segments of a well-formed user reply. */
  lemma UserSegments(reaction: string, w: string, suffix: string, reasoning: string)
    requires UserField(reaction) && UserField(reasoning) && RatingShape(w) && RatingSuffix(suffix)
    ensures SplitSecond(FormatUserReply(reaction, w + suffix, reasoning), ReactionMarker).Some?
    ensures SplitHead(SplitSecond(FormatUserReply(reaction, w + suffix, reasoning), ReactionMarker).value,
                      RatingMarker) == " " + reaction + "\n"
    ensures SplitSecond(FormatUserReply(reaction, w + suffix, reasoning), RatingMarker).Some?
    ensures SplitHead(SplitSecond(FormatUserReply(reaction, w + suffix, reasoning), RatingMarker).value,
                      ReasoningMarker) == " " + (w + suffix) + "\n"
    ensures SplitSecond(FormatUserReply(reaction, w + suffix, reasoning), ReasoningMarker)
         == Some(" " + reasoning)
  {
    var b := w + suffix;
    var p1 := " " + reaction + "\n";
    var p2 := " " + b + "\n";
    var p3 := " " + reasoning;
    assert FormatUserReply(reaction, b, reasoning) == ReactionMarker + p1 + RatingMarker + p2 + ReasoningMarker + p3;
    MarkersSpaced();
    UserMarkersApart();
    RatingTextFree(w, suffix);
    UserPieces(reaction, b, reasoning);
    ThreeFieldParts(ReactionMarker, p1, RatingMarker, p2, ReasoningMarker, p3);
  }

  /** The padded fields of a user reply hold no marker. */
  lemma UserPieces(reaction: string, b: string, reasoning: string)
    requires Spaced(ReactionMarker) && Spaced(RatingMarker) && Spaced(ReasoningMarker)
    requires UserField(reaction) && UserField(reasoning)
    requires NoOcc(b, ReactionMarker) && NoOcc(b, RatingMarker) && NoOcc(b, ReasoningMarker)
    ensures NoOcc(" " + reaction + "\n", ReactionMarker) && NoOcc(" " + reaction + "\n", RatingMarker)
    ensures NoOcc(" " + reaction + "\n", ReasoningMarker)
    ensures NoOcc(" " + b + "\n", ReactionMarker) && NoOcc(" " + b + "\n", RatingMarker)
    ensures NoOcc(" " + b + "\n", ReasoningMarker)
    ensures NoOcc(" " + reasoning, ReactionMarker) && NoOcc(" " + reasoning, RatingMarker)
    ensures NoOcc(" " + reasoning, ReasoningMarker)
  {
    PaddedNoOcc(reaction, ReactionMarker);
    PaddedNoOcc(reaction, RatingMarker);
    PaddedNoOcc(reaction, ReasoningMarker);
    PaddedNoOcc(b, ReactionMarker);
    PaddedNoOcc(b, RatingMarker);
    PaddedNoOcc(b, ReasoningMarker);
    LeftPaddedNoOcc(reasoning, ReactionMarker);
    LeftPaddedNoOcc(reasoning, RatingMarker);
    LeftPaddedNoOcc(reasoning, ReasoningMarker);
  }

  /** A well-formed editor reply gives back its trimmed article and trimmed change summary. */
  lemma EditorRoundTrip(summary: string, article: string)
    requires EditorField(summary) && EditorField(article)
    ensures ProcessEditorResponse(FormatEditorReply(summary, article)) == EditorReply(article, summary)
  {
    EditorSegments(summary, article);
    StripPadded(" ", summary, "\n\n");
    StripPadded(" ", article, "");
    assert " " + article == " " + article + "";
  }

  /** The two segments of a well-formed editor reply. */
  lemma EditorSegments(summary: string, article: string)
    requires EditorField(summary) && EditorField(article)
    ensures SplitSecond(FormatEditorReply(summary, article), SummaryMarker).Some?
    ensures SplitHead(SplitSecond(FormatEditorReply(summary, article), SummaryMarker).value, ArticleMarker)
         == " " + summary + "\n\n"
    ensures SplitSecond(FormatEditorReply(summary, article), ArticleMarker) == Some(" " + article)
  {
    var p1 := " " + summary + "\n\n";
    var p2 := " " + article;
    assert FormatEditorReply(summary, article) == SummaryMarker + p1 + ArticleMarker + p2;
    MarkersSpaced();
    EditorMarkersApart();
    PaddedNoOcc2(summary, SummaryMarker);
    PaddedNoOcc2(summary, ArticleMarker);
    LeftPaddedNoOcc(article, SummaryMarker);
    LeftPaddedNoOcc(article, ArticleMarker);
    TwoFieldParts(SummaryMarker, p1, ArticleMarker, p2);
  }

  /** A well-formed recommendation reply gives back its rating clamped into [1, 4] and its trimmed reasoning. */
  lemma RecommendationRoundTripText(w: string, v: real, suffix: string, reasoning: string, currentRating: real)
    requires RecommendationField(reasoning) && RatingText(w, v) && RatingSuffix(suffix)
    ensures ProcessRecommendationResponse(FormatRecommendation(w + suffix, reasoning), currentRating)
         == Recommendation(ClampRating(v), reasoning)
  {
    var f := FormatRecommendation(w + suffix, reasoning);
    RecommendationSegments(w, suffix, reasoning);
    StripPadded(" ", reasoning, "");
    assert " " + reasoning == " " + reasoning + "";
    ReadRatingText(w, v, suffix, SplitSecond(f, RecommendationMarker).value);
  }

  /** The round trip for a recommendation written with one decimal. */
  lemma RecommendationRoundTrip(t: int, suffix: string, reasoning: string, currentRating: real)
    requires RecommendationField(reasoning) && RatingSuffix(suffix)
    ensures ProcessRecommendationResponse(FormatRecommendation(ShowTenths(t) + suffix, reasoning), currentRating)
         == Recommendation(ClampRating(Tenths(t)), reasoning)
  {
    ShowTenthsText(t);
    RecommendationRoundTripText(ShowTenths(t), Tenths(t), suffix, reasoning, currentRating);
  }

  /** The round trip for a whole-number recommendation. */
  lemma RecommendationWholeRoundTrip(n: nat, suffix: string, reasoning: string, currentRating: real)
    requires RecommendationField(reasoning) && RatingSuffix(suffix)
    ensures ProcessRecommendationResponse(FormatRecommendation(ShowNat(n) + suffix, reasoning), currentRating)
         == Recommendation(ClampRating(n as real), reasoning)
  {
    ShowNatText(n);
    RecommendationRoundTripText(ShowNat(n), n as real, suffix, reasoning, currentRating);
  }

  /** The two segments of a well-formed recommendation reply. */
  lemma RecommendationSegments(w: string, suffix: string, reasoning: string)
    requires RecommendationField(reasoning) && RatingShape(w) && RatingSuffix(suffix)
    ensures var f := FormatRecommendation(w + suffix, reasoning);
      && SplitSecond(f, RecommendationMarker).Some?
      && SplitHead(SplitSecond(f, RecommendationMarker).value, ReasoningMarker) == " " + (w + suffix) + "\n"
      && SplitSecond(f, ReasoningMarker) == Some(" " + reasoning)
  {
    var b := w + suffix;
    var p1 := " " + b + "\n";
    var p2 := " " + reasoning;
    assert FormatRecommendation(b, reasoning) == RecommendationMarker + p1 + ReasoningMarker + p2;
    MarkersSpaced();
    RecommendationMarkersApart();
    RatingTextFree(w, suffix);
    PaddedNoOcc(b, RecommendationMarker);
    PaddedNoOcc(b, ReasoningMarker);
    LeftPaddedNoOcc(reasoning, RecommendationMarker);
    LeftPaddedNoOcc(reasoning, ReasoningMarker);
    TwoFieldParts(RecommendationMarker, p1, ReasoningMarker, p2);
  }

  // ---------------------------------------------------------------------------
  // Helpers for the round trips

  /** A marker of at least two characters holding no space and no newline. */
  predicate Spaced(m: string)
  {
    |m| > 1 && ' ' !in m && '\n' !in m
  }

  /** A piece that starts with a space and ends with a newline. */
  predicate Piece(p: string)
  {
    |p| >= 2 && p[0] == ' ' && p[|p| - 1] == '\n'
  }

  lemma MarkersSpaced()
    ensures Spaced(ReactionMarker) && Spaced(RatingMarker) && Spaced(ReasoningMarker)
    ensures Spaced(SummaryMarker) && Spaced(ArticleMarker) && Spaced(RecommendationMarker)
  {
  }

  /** The markers of a user reply do not occur in one another. */
  lemma UserMarkersApart()
    ensures NoOcc(RatingMarker, ReactionMarker) && NoOcc(ReasoningMarker, ReactionMarker)
    ensures NoOcc(ReactionMarker, RatingMarker) && NoOcc(ReasoningMarker, RatingMarker)
    ensures NoOcc(ReactionMarker, ReasoningMarker) && NoOcc(RatingMarker, ReasoningMarker)
  {
    CharAbsent(RatingMarker, ReactionMarker, 'C');
    CharAbsent(ReasoningMarker, ReactionMarker, 'C');
    CharAbsent(ReactionMarker, RatingMarker, 'G');
    CharAbsent(ReasoningMarker, RatingMarker, 'T');
    CharAbsent(ReactionMarker, ReasoningMarker, 'S');
    CharAbsent(RatingMarker, ReasoningMarker, 'S');
  }

  /** The markers of an editor reply do not occur in one another. */
  lemma EditorMarkersApart()
    ensures NoOcc(ArticleMarker, SummaryMarker) && NoOcc(SummaryMarker, ArticleMarker)
  {
    CharAbsent(ArticleMarker, SummaryMarker, 'S');
    CharAbsent(SummaryMarker, ArticleMarker, 'T');
  }

  /** The markers of a recommendation reply do not occur in one another. */
  lemma RecommendationMarkersApart()
    ensures NoOcc(ReasoningMarker, RecommendationMarker) && NoOcc(RecommendationMarker, ReasoningMarker)
  {
    CharAbsent(ReasoningMarker, RecommendationMarker, 'T');
    CharAbsent(RecommendationMarker, ReasoningMarker, 'S');
  }

  /** The three segments of `m1 + p1 + m2 + p2 + m3 + p3`. */
  lemma ThreeFieldParts(m1: string, p1: string, m2: string, p2: string, m3: string, p3: string)
    requires Spaced(m1) && Spaced(m2) && Spaced(m3)
    requires Piece(p1) && Piece(p2) && p3 != [] && p3[0] == ' '
    requires NoOcc(p1, m1) && NoOcc(p2, m1) && NoOcc(p3, m1)
    requires NoOcc(p1, m2) && NoOcc(p2, m2) && NoOcc(p3, m2)
    requires NoOcc(p1, m3) && NoOcc(p2, m3) && NoOcc(p3, m3)
    requires NoOcc(m2, m1) && NoOcc(m3, m1) && NoOcc(m1, m2) && NoOcc(m3, m2) && NoOcc(m1, m3) && NoOcc(m2, m3)
    ensures SplitSecond(m1 + p1 + m2 + p2 + m3 + p3, m1).Some?
    ensures SplitHead(SplitSecond(m1 + p1 + m2 + p2 + m3 + p3, m1).value, m2) == p1
    ensures SplitSecond(m1 + p1 + m2 + p2 + m3 + p3, m2).Some?
    ensures SplitHead(SplitSecond(m1 + p1 + m2 + p2 + m3 + p3, m2).value, m3) == p2
    ensures SplitSecond(m1 + p1 + m2 + p2 + m3 + p3, m3) == Some(p3)
  {
    FirstOfThree(m1, p1, m2, p2, m3, p3);
    SecondOfThree(m1, p1, m2, p2, m3, p3);
    ThirdOfThree(m1, p1, m2, p2, m3, p3);
  }

  lemma FirstOfThree(m1: string, p1: string, m2: string, p2: string, m3: string, p3: string)
    requires Spaced(m1) && Spaced(m2) && Spaced(m3)
    requires Piece(p1) && Piece(p2) && p3 != [] && p3[0] == ' '
    requires NoOcc(p1, m1) && NoOcc(p2, m1) && NoOcc(p3, m1) && NoOcc(p1, m2)
    requires NoOcc(m2, m1) && NoOcc(m3, m1)
    ensures SplitSecond(m1 + p1 + m2 + p2 + m3 + p3, m1).Some?
    ensures SplitHead(SplitSecond(m1 + p1 + m2 + p2 + m3 + p3, m1).value, m2) == p1
  {
    var a := p1 + m2;
    JoinNoOcc(p1, m2, m1);
    var b := a + p2;
    JoinNoOcc(a, p2, m1);
    var c := b + m3;
    JoinNoOcc(b, m3, m1);
    var y := c + p3;
    JoinNoOcc(c, p3, m1);
    assert "" + m1 + y == m1 + p1 + m2 + p2 + m3 + p3;
    SecondAfter("", m1, y);
    var w := p2 + m3 + p3;
    Seqs.ConcatAssoc(a, p2, m3);
    Seqs.ConcatAssoc(a, p2 + m3, p3);
    HeadBefore(p1, m2, w);
  }

  lemma SecondOfThree(m1: string, p1: string, m2: string, p2: string, m3: string, p3: string)
    requires Spaced(m1) && Spaced(m2) && Spaced(m3)
    requires Piece(p1) && Piece(p2) && p3 != [] && p3[0] == ' '
    requires NoOcc(p1, m2) && NoOcc(p2, m2) && NoOcc(p3, m2) && NoOcc(p2, m3)
    requires NoOcc(m1, m2) && NoOcc(m3, m2)
    ensures SplitSecond(m1 + p1 + m2 + p2 + m3 + p3, m2).Some?
    ensures SplitHead(SplitSecond(m1 + p1 + m2 + p2 + m3 + p3, m2).value, m3) == p2
  {
    JoinNoOcc(m1, p1, m2);
    JoinNoOcc(p2, m3, m2);
    JoinNoOcc(p2 + m3, p3, m2);
    assert m1 + p1 + m2 + p2 + m3 + p3 == (m1 + p1) + m2 + (p2 + m3 + p3);
    SecondAfter(m1 + p1, m2, p2 + m3 + p3);
    HeadBefore(p2, m3, p3);
  }

  lemma ThirdOfThree(m1: string, p1: string, m2: string, p2: string, m3: string, p3: string)
    requires Spaced(m1) && Spaced(m2) && Spaced(m3)
    requires Piece(p1) && Piece(p2)
    requires NoOcc(p1, m3) && NoOcc(p2, m3) && NoOcc(p3, m3)
    requires NoOcc(m1, m3) && NoOcc(m2, m3)
    ensures SplitSecond(m1 + p1 + m2 + p2 + m3 + p3, m3) == Some(p3)
  {
    JoinNoOcc(m1, p1, m3);
    JoinNoOcc(m1 + p1, m2, m3);
    JoinNoOcc(m1 + p1 + m2, p2, m3);
    SecondAfter(m1 + p1 + m2 + p2, m3, p3);
  }

  /** The two segments of `m1 + p1 + m2 + p2`. */
  lemma TwoFieldParts(m1: string, p1: string, m2: string, p2: string)
    requires Spaced(m1) && Spaced(m2)
    requires Piece(p1) && p2 != [] && p2[0] == ' '
    requires NoOcc(p1, m1) && NoOcc(p1, m2) && NoOcc(p2, m1) && NoOcc(p2, m2)
    requires NoOcc(m1, m2) && NoOcc(m2, m1)
    ensures SplitSecond(m1 + p1 + m2 + p2, m1).Some?
    ensures SplitHead(SplitSecond(m1 + p1 + m2 + p2, m1).value, m2) == p1
    ensures SplitSecond(m1 + p1 + m2 + p2, m2) == Some(p2)
  {
    FirstOfTwo(m1, p1, m2, p2);
    SecondOfTwo(m1, p1, m2, p2);
  }

  lemma FirstOfTwo(m1: string, p1: string, m2: string, p2: string)
    requires Spaced(m1) && Spaced(m2)
    requires Piece(p1) && p2 != [] && p2[0] == ' '
    requires NoOcc(p1, m1) && NoOcc(p1, m2) && NoOcc(p2, m1)
    requires NoOcc(m2, m1)
    ensures SplitSecond(m1 + p1 + m2 + p2, m1).Some?
    ensures SplitHead(SplitSecond(m1 + p1 + m2 + p2, m1).value, m2) == p1
  {
    JoinNoOcc(p1, m2, m1);
    JoinNoOcc(p1 + m2, p2, m1);
    assert "" + m1 + (p1 + m2 + p2) == m1 + p1 + m2 + p2;
    SecondAfter("", m1, p1 + m2 + p2);
    HeadBefore(p1, m2, p2);
  }

  lemma SecondOfTwo(m1: string, p1: string, m2: string, p2: string)
    requires Spaced(m1) && Spaced(m2)
    requires Piece(p1)
    requires NoOcc(p1, m2) && NoOcc(p2, m2) && NoOcc(m1, m2)
    ensures SplitSecond(m1 + p1 + m2 + p2, m2) == Some(p2)
  {
    JoinNoOcc(m1, p1, m2);
    SecondAfter(m1 + p1, m2, p2);
  }

  /** `ConcatNoOcc` for two non-empty strings, with the ends of the joined string. */
  lemma JoinNoOcc(x: string, y: string, m: string)
    requires |m| > 0 && x != [] && y != []
    requires NoOcc(x, m) && NoOcc(y, m)
    requires x[|x| - 1] !in m || y[0] !in m
    ensures NoOcc(x + y, m)
    ensures (x + y)[0] == x[0] && (x + y)[|x + y| - 1] == y[|y| - 1]
  {
    ConcatNoOcc(x, y, m);
  }

  /** `(x + m + y).split(m)[1] == y.split(m)[0]` when `m` first occurs after `x`. */
  lemma SecondAfter(x: string, m: string, y: string)
    requires |m| > 0
    requires NoOcc(x, m) && (x == [] || x[|x| - 1] !in m)
    ensures SplitSecond(x + m + y, m) == Some(SplitHead(y, m))
  {
    FindShift(x, m + y, m);
    FindAtStart(m, y);
    assert x + m + y == x + (m + y);
    assert (x + m + y)[|x| + |m|..] == y;
  }

  /** `(z + m + w).split(m)[0] == z` when `z` holds no `m`. */
  lemma HeadBefore(z: string, m: string, w: string)
    requires |m| > 0
    requires NoOcc(z, m) && (z == [] || z[|z| - 1] !in m)
    ensures SplitHead(z + m + w, m) == z
  {
    FindShift(z, m + w, m);
    FindAtStart(m, w);
    assert z + m + w == z + (m + w);
  }

  lemma PaddedNoOcc(s: string, m: string)
    requires Spaced(m) && NoOcc(s, m)
    ensures NoOcc(" " + s + "\n", m)
  {
    ShortNoOcc(" ", m);
    ShortNoOcc("\n", m);
    ConcatNoOcc(" ", s, m);
    ConcatNoOcc(" " + s, "\n", m);
  }

  lemma PaddedNoOcc2(s: string, m: string)
    requires Spaced(m) && |m| > 2 && NoOcc(s, m)
    ensures NoOcc(" " + s + "\n\n", m)
  {
    ShortNoOcc(" ", m);
    ShortNoOcc("\n\n", m);
    ConcatNoOcc(" ", s, m);
    ConcatNoOcc(" " + s, "\n\n", m);
  }

  lemma LeftPaddedNoOcc(s: string, m: string)
    requires Spaced(m) && NoOcc(s, m)
    ensures NoOcc(" " + s, m)
  {
    ShortNoOcc(" ", m);
    ConcatNoOcc(" ", s, m);
  }

  lemma RatingTextFree(w: string, suffix: string)
    requires RatingShape(w) && RatingSuffix(suffix)
    ensures NoOcc(w + suffix, ReactionMarker) && NoOcc(w + suffix, RatingMarker)
    ensures NoOcc(w + suffix, ReasoningMarker) && NoOcc(w + suffix, RecommendationMarker)
  {
    RatingFreeOf(w, suffix, ReactionMarker);
    RatingFreeOf(w, suffix, RatingMarker);
    RatingFreeOf(w, suffix, ReasoningMarker);
    RatingFreeOf(w, suffix, RecommendationMarker);
  }

  lemma RatingFreeOf(w: string, suffix: string, m: string)
    requires 'R' in m && '/' !in m && 'R' !in w
    requires (suffix == [] || suffix[0] == '/') && NoOcc(suffix, m)
    ensures NoOcc(w + suffix, m)
  {
    CharAbsent(w, m, 'R');
    ConcatNoOcc(w, suffix, m);
  }

  /** `ShowTenths` writes digits, a point and possibly a leading minus sign, ending in a
      digit, and `float()` reads it back. */
  lemma ShowTenthsText(t: int)
    ensures RatingText(ShowTenths(t), Tenths(t))
  {
    var w := ShowTenths(t);
    ShowTenthsChars(t);
    assert w[0] == '-' || IsDigit(w[0]);
    DigitNotSpace(w[|w| - 1]);
    ParseShowTenths(t);
  }

  /** `ShowNat` writes digits only, and `float()` reads them back. */
  lemma ShowNatText(n: nat)
    ensures RatingText(ShowNat(n), n as real)
  {
    var w := ShowNat(n);
    DigitNotSpace(w[0]);
    DigitNotSpace(w[|w| - 1]);
    ParseShowNat(n);
  }

  /** Cutting a written rating at its first `/` leaves the number. */
  lemma CutRating(w: string, suffix: string)
    requires RatingShape(w) && (suffix == [] || suffix[0] == '/')
    ensures SplitHead(w + suffix, "/") == w
    ensures Trimmed(suffix) ==> Trimmed(w + suffix)
  {
    if suffix == [] {
      assert w + suffix == w;
      assert SplitHead(w + suffix, "/") == w by {
        CharAbsent(w, "/", '/');
      }
    } else {
      assert w + suffix == w + "/" + suffix[1..];
      assert SplitHead(w + suffix, "/") == w by {
        CharAbsent(w, "/", '/');
        HeadBefore(w, "/", suffix[1..]);
      }
    }
  }

  /** The rating text written after a marker reads back as the number. */
  lemma ReadRatingText(w: string, v: real, suffix: string, segment: string)
    requires RatingText(w, v) && (suffix == [] || suffix[0] == '/') && Trimmed(suffix)
    requires SplitHead(segment, ReasoningMarker) == " " + (w + suffix) + "\n"
    ensures ReadRating(segment) == Some(v)
  {
    CutRating(w, suffix);
    StripPadded(" ", w + suffix, "\n");
    assert Strip(w) == w by {
      StripPadded("", w, "");
      assert "" + w + "" == w;
    }
  }
}
