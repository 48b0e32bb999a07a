/** The `Simulation` of agent/simulation.py: a user agent and an editor agent take turns on
    an article until the user's normalised rating reaches the target or the iteration limit
    is hit; each turn is logged as a table row (or, when the insert fails or no database is
    configured, as a CSV row); finally the user gives a recommendation rating, which is
    logged too. */
module AgentSimulation {
  import opened Wrappers
  import opened Strings
  import opened Numeric
  import opened ReplyParsing
  import opened Agents
  import opened Session


  const DefaultMaxIterations: int := 10
  const DefaultTargetRating: real := 0.8

  /** One row of the `persona_responses_duplicate` table. */
  datatype DbRow = DbRow(
    sessionId: string, personaId: int, personaName: string, iteration: int,
    currentRating: real, normalizedCurrentRating: real,
    recommendedRating: Option<real>, normalizedRecommendedRating: Option<real>,
    reaction: string, reason: string, article: string,
    isFact: bool, isReal: bool, editorChanges: string)

  /** One row of the CSV file under its eleven-column header; `None` stands for the
      empty cell, and a missing persona id for the text "unknown". */
  datatype CsvRow = CsvRow(
    sessionId: string, iteration: int, personaId: Option<int>, personaName: string,
    currentRating: real, normalizedCurrentRating: real, reaction: string, article: string,
    recommendationRating: Option<real>, normalizedRecommendationRating: Option<real>,
    recommendationReasoning: string)

  /** Where a logged row went. */
  datatype LogEntry = Inserted(dbRow: DbRow) | Appended(csvRow: CsvRow)

  /** What every logged row takes from the user agent, and whether a database is in use. */
  datatype Setting = Setting(sessionId: string, persona: Persona, useDb: bool)

  /** Python truthiness of an optional number: `None` and `0` are false. */
  predicate Truthy(x: Option<real>)
  {
    x.Some? && x.value != 0.0
  }

  /** Python `x or ""` on an optional string. */
  function TextOr(x: Option<string>): (r: string)
    ensures x.Some? ==> r == x.value
    ensures x.None? ==> r == ""
  {
    if x.Some? then x.value else ""
  }

  /** The table accepts only "Positive" and "Negative": a reaction counts as positive when it
      starts with "positive" in any letter case. */
  function CanonicalReaction(reaction: string): (r: string)
    ensures r == "Positive" || r == "Negative"
    ensures r == "Positive" <==> StartsWith(Lower(reaction), "positive")
  {
    if StartsWith(Lower(reaction), "positive") then "Positive" else "Negative"
  }

  /** The row `_log_to_supabase` inserts. */
  function SupabaseRow(s: Setting, iteration: int, reaction: string, rating: real, article: string,
                       recommended: Option<real>, reasoning: Option<string>): (row: DbRow)
    ensures 1 <= row.iteration <= 10
    ensures 1 <= iteration <= 10 ==> row.iteration == iteration
    ensures row.reaction == "Positive" || row.reaction == "Negative"
    ensures row.reaction == "Positive" <==> StartsWith(Lower(reaction), "positive")
    ensures row.currentRating == rating && row.recommendedRating == recommended
    ensures 1.0 <= rating <= 4.0 ==> 0.0 <= row.normalizedCurrentRating <= 1.0
    ensures row.normalizedRecommendedRating.Some? <==> Truthy(recommended)
    ensures Truthy(recommended) ==> row.normalizedRecommendedRating == Some(Normalize(recommended.value))
    ensures s.persona.id.None? ==> row.personaId == 0
    ensures row.reason == TextOr(reasoning) && row.article == article
    ensures row.isFact && row.isReal && row.editorChanges == ""
  {
    DbRow(s.sessionId, s.persona.id.GetOr(0), s.persona.name, ClampInt(1, 10, iteration),
          rating, Normalize(rating),
          recommended, if Truthy(recommended) then Some(Normalize(recommended.value)) else None,
          CanonicalReaction(reaction), TextOr(reasoning), article,
          true, true, "")
  }

  /** The row `_log_to_csv` appends: the iteration and reaction as given, and empty cells for
      falsy values, so that a recommendation of exactly 1 (normalised to 0) leaves the
      normalised cell empty. */
  function CsvRowOf(s: Setting, iteration: int, reaction: string, rating: real, article: string,
                    recommended: Option<real>, reasoning: Option<string>): (row: CsvRow)
    ensures row.iteration == iteration && row.reaction == reaction && row.article == article
    ensures row.personaId == s.persona.id
    ensures row.currentRating == rating
    ensures 1.0 <= rating <= 4.0 ==> 0.0 <= row.normalizedCurrentRating <= 1.0
    ensures row.recommendationRating.Some? <==> Truthy(recommended)
    ensures Truthy(recommended) ==> row.recommendationRating == recommended
    ensures row.normalizedRecommendationRating.Some? <==> Truthy(recommended) && recommended.value != 1.0
    ensures row.recommendationReasoning == (if reasoning.Some? && reasoning.value != "" then reasoning.value else "")
  {
    var normalized := if Truthy(recommended) then Some(Normalize(recommended.value)) else None;
    CsvRow(s.sessionId, iteration, s.persona.id, s.persona.name,
           rating, Normalize(rating), reaction, article,
           if Truthy(recommended) then recommended else None,
           if Truthy(normalized) then normalized else None,
           if reasoning.Some? && reasoning.value != "" then reasoning.value else "")
  }

  /** `_log_to_supabase`: the insert, or on failure the same values as a CSV row. */
  function LogToSupabase(s: Setting, iteration: int, reaction: string, rating: real, article: string,
                         recommended: Option<real>, reasoning: Option<string>, insertOk: bool): (e: LogEntry)
    ensures insertOk ==> e == Inserted(SupabaseRow(s, iteration, reaction, rating, article, recommended, reasoning))
    ensures !insertOk ==> e == Appended(CsvRowOf(s, iteration, reaction, rating, article, recommended, reasoning))
  {
    if insertOk then Inserted(SupabaseRow(s, iteration, reaction, rating, article, recommended, reasoning))
    else Appended(CsvRowOf(s, iteration, reaction, rating, article, recommended, reasoning))
  }

  /** The row logged for the turn at iteration `j`: numbered `j + 1` for the table, `j` for the file. */
  function TurnEntry(s: Setting, j: nat, r: UserReply, article: string, insertOk: bool): LogEntry
  {
    if s.useDb then LogToSupabase(s, j + 1, r.reaction, r.rating, article, None, None, insertOk)
    else Appended(CsvRowOf(s, j, r.reaction, r.rating, article, None, None))
  }

  /** The rows logged for the turns `h`; `insertOk(j)` is the outcome of the `j`-th insert. */
  function TurnEntries(s: Setting, h: seq<UserReply>, initial: string, edits: nat -> string,
                       insertOk: nat -> bool): (log: seq<LogEntry>)
    ensures |log| == |h|
  {
    if h == [] then []
    else
      var j := |h| - 1;
      TurnEntries(s, h[..j], initial, edits, insertOk)
        + [TurnEntry(s, j, h[j], ArticleAt(j, initial, edits), insertOk(j))]
  }

  /** A further turn adds its row. */
  lemma TurnEntriesAppend(s: Setting, h: seq<UserReply>, r: UserReply, initial: string, edits: nat -> string,
                          insertOk: nat -> bool)
    ensures TurnEntries(s, h + [r], initial, edits, insertOk)
      == TurnEntries(s, h, initial, edits, insertOk) + [TurnEntry(s, |h|, r, ArticleAt(|h|, initial, edits), insertOk(|h|))]
  {
    assert (h + [r])[..|h|] == h;
  }

  /** The row logged after the recommendation. */
  function FinalEntry(s: Setting, iteration: nat, rating: real, article: string, rec: Recommendation,
                      insertOk: bool): LogEntry
  {
    if s.useDb then
      LogToSupabase(s, iteration, if rating >= 2.5 then "Positive" else "Negative", rating, article,
                    Some(rec.rating), Some(rec.reasoning), insertOk)
    else Appended(CsvRowOf(s, iteration, "Final state", rating, article, Some(rec.rating), Some(rec.reasoning)))
  }

  /** What a run changes: the user's rating, history and memory, the editor's memory, the
      current article and the log. */
  datatype RunState = RunState(rating: real, history: seq<UserReply>, userMemory: seq<MemoryEntry>,
                               editorMemory: seq<MemoryEntry>, article: string, log: seq<LogEntry>)

  /** The user half of iteration `i` with parsed reply `r`. */
  function AfterUser(s: Setting, st: RunState, i: nat, r: UserReply, insertOk: bool): RunState
  {
    st.(rating := r.rating, history := st.history + [r],
        userMemory := st.userMemory + [MemoryEntry(st.article, Some(r.reaction), Some(r.rating))],
        log := st.log + [TurnEntry(s, i, r, st.article, insertOk)])
  }

  /** The editor half of iteration `i`, prompted by the user's reply `r`. */
  function AfterEditor(st: RunState, i: nat, r: UserReply, edits: nat -> string): RunState
  {
    st.(article := edits(i),
        editorMemory := st.editorMemory + [MemoryEntry(edits(i), Some(r.reaction), Some(r.rating))])
  }

  /** The `while` loop of `run` from iteration `i` in state `st`: the final `iteration` and state. */
  function Loop(s: Setting, i: nat, maxIterations: int, target: real, parse: (nat, real) -> UserReply,
                edits: nat -> string, insertOk: nat -> bool, st: RunState): (nat, RunState)
    decreases maxIterations - i
  {
    if i >= maxIterations then (i, st)
    else
      var r := parse(i, st.rating);
      var st' := AfterUser(s, st, i, r, insertOk(i));
      if Reached(target, r) then (i, st')
      else Loop(s, i + 1, maxIterations, target, parse, edits, insertOk, AfterEditor(st', i, r, edits))
  }

  /** The state after the turns `h` (none reaching the target) from `st0`. */
  predicate After(s: Setting, st0: RunState, h: seq<UserReply>, edits: nat -> string, insertOk: nat -> bool,
                  st: RunState)
  {
    && st.rating == RatingAfter(h, st0.rating)
    && st.history == st0.history + h
    && st.userMemory == st0.userMemory + UserMemory(h, st0.article, edits)
    && st.editorMemory == st0.editorMemory + EditorMemory(h, st0.article, edits)
    && st.article == ArticleAt(|h|, st0.article, edits)
    && st.log == st0.log + TurnEntries(s, h, st0.article, edits, insertOk)
  }

  /** The final `iteration` and state of a run whose turns are `t`, from `st0`: the user's
      fields record every turn, the editor's memory and the article every edit. */
  predicate Outcome(s: Setting, st0: RunState, t: seq<UserReply>, target: real, edits: nat -> string,
                    insertOk: nat -> bool, result: (nat, RunState))
  {
    var n := EditorSteps(target, t);
    var st := result.1;
    && n <= |t|
    && result.0 == n
    && st.rating == RatingAfter(t, st0.rating)
    && st.history == st0.history + t
    && st.userMemory == st0.userMemory + UserMemory(t, st0.article, edits)
    && st.editorMemory == st0.editorMemory + EditorMemory(t[..n], st0.article, edits)
    && st.article == ArticleAt(n, st0.article, edits)
    && st.log == st0.log + TurnEntries(s, t, st0.article, edits, insertOk)
  }

  /** The loop from iteration `|h|`, after the turns `h`, takes the remaining turns of `Turns`. */
  lemma {:induction false} LoopFrom(s: Setting, maxIterations: int, target: real, parse: (nat, real) -> UserReply,
                                    edits: nat -> string, insertOk: nat -> bool, st0: RunState,
                                    h: seq<UserReply>, st: RunState)
    requires After(s, st0, h, edits, insertOk, st)
    requires forall j :: 0 <= j < |h| ==> !Reached(target, h[j])
    ensures Outcome(s, st0, h + Turns(|h|, maxIterations, target, st.rating, parse), target, edits, insertOk,
                    Loop(s, |h|, maxIterations, target, parse, edits, insertOk, st))
    decreases maxIterations - |h|
  {
    var i := |h|;
    if i >= maxIterations {
      OutcomeDone(s, st0, h, target, edits, insertOk, st);
      LoopDone(s, maxIterations, target, parse, edits, insertOk, st0, h, st);
    } else {
      var r := parse(i, st.rating);
      if Reached(target, r) {
        OutcomeStop(s, st0, h, r, target, edits, insertOk, st);
        LoopStop(s, maxIterations, target, parse, edits, insertOk, st0, h, st);
      } else {
        var st' := AfterEditor(AfterUser(s, st, i, r, insertOk(i)), i, r, edits);
        AfterStep(s, st0, h, r, edits, insertOk, st);
        LoopFrom(s, maxIterations, target, parse, edits, insertOk, st0, h + [r], st');
        LoopNext(s, maxIterations, target, parse, edits, insertOk, st0, h, st);
      }
    }
  }

  /** At the limit the loop takes no further turn. */
  lemma LoopDone(s: Setting, maxIterations: int, target: real, parse: (nat, real) -> UserReply,
                 edits: nat -> string, insertOk: nat -> bool,
                 st0: RunState, h: seq<UserReply>, st: RunState)
    requires |h| >= maxIterations
    requires Outcome(s, st0, h, target, edits, insertOk, (|h|, st))
    ensures Outcome(s, st0, h + Turns(|h|, maxIterations, target, st.rating, parse), target, edits, insertOk,
                    Loop(s, |h|, maxIterations, target, parse, edits, insertOk, st))
  {
    assert h + Turns(|h|, maxIterations, target, st.rating, parse) == h;
  }

  /** A turn that reaches the target is the last one. */
  lemma LoopStop(s: Setting, maxIterations: int, target: real, parse: (nat, real) -> UserReply,
                 edits: nat -> string, insertOk: nat -> bool,
                 st0: RunState, h: seq<UserReply>, st: RunState)
    requires |h| < maxIterations && Reached(target, parse(|h|, st.rating))
    requires var r := parse(|h|, st.rating);
      Outcome(s, st0, h + [r], target, edits, insertOk, (|h|, AfterUser(s, st, |h|, r, insertOk(|h|))))
    ensures Outcome(s, st0, h + Turns(|h|, maxIterations, target, st.rating, parse), target, edits, insertOk,
                    Loop(s, |h|, maxIterations, target, parse, edits, insertOk, st))
  {
    assert h + Turns(|h|, maxIterations, target, st.rating, parse) == h + [parse(|h|, st.rating)];
  }

  /** A turn that does not reach the target is followed by an edit and the rest of the loop. */
  lemma LoopNext(s: Setting, maxIterations: int, target: real, parse: (nat, real) -> UserReply,
                 edits: nat -> string, insertOk: nat -> bool,
                 st0: RunState, h: seq<UserReply>, st: RunState)
    requires |h| < maxIterations && !Reached(target, parse(|h|, st.rating))
    requires var i := |h|;
      var r := parse(i, st.rating);
      var st' := AfterEditor(AfterUser(s, st, i, r, insertOk(i)), i, r, edits);
      Outcome(s, st0, (h + [r]) + Turns(|h + [r]|, maxIterations, target, st'.rating, parse), target, edits, insertOk,
              Loop(s, |h + [r]|, maxIterations, target, parse, edits, insertOk, st'))
    ensures Outcome(s, st0, h + Turns(|h|, maxIterations, target, st.rating, parse), target, edits, insertOk,
                    Loop(s, |h|, maxIterations, target, parse, edits, insertOk, st))
  {
    var i := |h|;
    var r := parse(i, st.rating);
    var st' := AfterEditor(AfterUser(s, st, i, r, insertOk(i)), i, r, edits);
    assert |h + [r]| == i + 1 && st'.rating == r.rating;
    TurnsNext(maxIterations, target, parse, h, st.rating);
    LoopUnfold(s, maxIterations, target, parse, edits, insertOk, |h|, st);
  }

  lemma LoopUnfold(s: Setting, maxIterations: int, target: real, parse: (nat, real) -> UserReply,
                 edits: nat -> string, insertOk: nat -> bool,
                   i: nat, st: RunState)
    requires i < maxIterations && !Reached(target, parse(i, st.rating))
    ensures var r := parse(i, st.rating);
      Loop(s, i, maxIterations, target, parse, edits, insertOk, st)
        == Loop(s, i + 1, maxIterations, target, parse, edits, insertOk,
                AfterEditor(AfterUser(s, st, i, r, insertOk(i)), i, r, edits))
  {
  }

  /** The loop ends at the limit: every turn was followed by an edit. */
  lemma OutcomeDone(s: Setting, st0: RunState, h: seq<UserReply>, target: real, edits: nat -> string,
                    insertOk: nat -> bool, st: RunState)
    requires After(s, st0, h, edits, insertOk, st)
    requires forall j :: 0 <= j < |h| ==> !Reached(target, h[j])
    ensures Outcome(s, st0, h, target, edits, insertOk, (|h|, st))
  {
    assert h[..|h|] == h;
  }

  /** The loop ends on a turn that reached the target: no edit follows it. */
  lemma OutcomeStop(s: Setting, st0: RunState, h: seq<UserReply>, r: UserReply, target: real, edits: nat -> string,
                    insertOk: nat -> bool, st: RunState)
    requires After(s, st0, h, edits, insertOk, st)
    requires Reached(target, r)
    ensures Outcome(s, st0, h + [r], target, edits, insertOk, (|h|, AfterUser(s, st, |h|, r, insertOk(|h|))))
  {
    UserMemoryAppend(h, r, st0.article, edits);
    TurnEntriesAppend(s, h, r, st0.article, edits, insertOk);
    assert (h + [r])[..|h|] == h;
  }

  /** A turn that did not reach the target, and the edit after it, extend the state by one turn. */
  lemma AfterStep(s: Setting, st0: RunState, h: seq<UserReply>, r: UserReply, edits: nat -> string,
                  insertOk: nat -> bool, st: RunState)
    requires After(s, st0, h, edits, insertOk, st)
    ensures After(s, st0, h + [r], edits, insertOk, AfterEditor(AfterUser(s, st, |h|, r, insertOk(|h|)), |h|, r, edits))
  {
    UserMemoryAppend(h, r, st0.article, edits);
    EditorMemoryAppend(h, r, st0.article, edits);
    TurnEntriesAppend(s, h, r, st0.article, edits, insertOk);
  }

  class Simulation {
    const userAgent: Agent
    const editorAgent: Agent
    const maxIterations: int
    const targetRating: real
    const useDb: bool
    var currentArticle: string
    /** The rows written so far, to the table or to the CSV file, in order. */
    var log: seq<LogEntry>

    predicate Valid()
      reads this
    {
      userAgent != editorAgent
    }

    function Context(): Setting
    {
      Setting(userAgent.sessionId, userAgent.persona, useDb)
    }

    /** The fields a run changes. */
    function State(): RunState
      reads this, userAgent, editorAgent
    {
      RunState(userAgent.currentRating, userAgent.history, userAgent.memory, editorAgent.memory,
               currentArticle, log)
    }

    /** `Simulation.__init__`; `connected` says whether the credentials were present and
        the client could be created, which decides whether the database stays in use. */
    constructor (persona: Persona, maxIterations: int, targetRating: real, useDb: bool, connected: bool,
                 userSession: string, editorSession: string)
      ensures Valid() && fresh(userAgent) && fresh(editorAgent)
      ensures userAgent.persona == persona && userAgent.role == User && userAgent.sessionId == userSession
      ensures editorAgent.persona == persona && editorAgent.role == Editor && editorAgent.sessionId == editorSession
      ensures userAgent.currentRating == StanceRating(persona.stance)
      ensures userAgent.history == [] && userAgent.memory == [] && editorAgent.memory == []
      ensures this.maxIterations == maxIterations && this.targetRating == targetRating
      ensures this.useDb == (useDb && connected)
      ensures currentArticle == InitialArticle && log == []
    {
      userAgent := new Agent(persona, User, userSession);
      editorAgent := new Agent(persona, Editor, editorSession);
      this.maxIterations := maxIterations;
      this.targetRating := targetRating;
      this.useDb := useDb && connected;
      currentArticle := InitialArticle;
      log := [];
    }

    /** The user half of an iteration: parse the reply, take over its rating, record it in
        the history and the memory, and log the turn. `parse(k, c)` is `process_response`
        applied to the model's reply at iteration `k` with current rating `c`. */
    method UserTurn(parse: (nat, real) -> UserReply, iteration: nat, insertOk: bool) returns (reply: UserReply)
      requires Valid()
      modifies this, userAgent
      ensures reply == parse(iteration, old(userAgent.currentRating))
      ensures userAgent.currentRating == reply.rating
      ensures userAgent.history == old(userAgent.history) + [reply]
      ensures userAgent.memory == old(userAgent.memory) + [MemoryEntry(currentArticle, Some(reply.reaction), Some(reply.rating))]
      ensures userAgent.recommendationRating == old(userAgent.recommendationRating)
      ensures log == old(log) + [TurnEntry(Context(), iteration, reply, currentArticle, insertOk)]
      ensures currentArticle == old(currentArticle)
      ensures State() == AfterUser(Context(), old(State()), iteration, reply, insertOk)
    {
      reply := parse(iteration, userAgent.currentRating);
      userAgent.currentRating := reply.rating;
      userAgent.history := userAgent.history + [reply];
      userAgent.AddToMemory(currentArticle, Some(reply.reaction), Some(reply.rating));
      if useDb {
        log := log + [LogToSupabase(Context(), iteration + 1, reply.reaction, reply.rating, currentArticle,
                                    None, None, insertOk)];
      } else {
        log := log + [Appended(CsvRowOf(Context(), iteration, reply.reaction, reply.rating, currentArticle,
                                        None, None))];
      }
    }

    /** The editor half of an iteration: the edited article replaces the current one and
        enters the editor's memory with the user's reaction and rating. `edits(k)` is the
        article `process_response` takes from the editor's reply at iteration `k`. */
    method EditorTurn(edits: nat -> string, iteration: nat, reply: UserReply)
      requires Valid()
      modifies this, editorAgent
      ensures currentArticle == edits(iteration)
      ensures editorAgent.memory == old(editorAgent.memory) + [MemoryEntry(currentArticle, Some(reply.reaction), Some(reply.rating))]
      ensures editorAgent.currentRating == old(editorAgent.currentRating)
      ensures editorAgent.history == old(editorAgent.history)
      ensures log == old(log)
      ensures State() == AfterEditor(old(State()), iteration, reply, edits)
    {
      currentArticle := edits(iteration);
      editorAgent.AddToMemory(currentArticle, Some(reply.reaction), Some(reply.rating));
    }

    /** The end of a run: ask for the recommendation, keep its rating and log the final state. */
    method Recommend(recommendationReply: string, iteration: nat, insertOk: bool) returns (rec: Recommendation)
      requires Valid()
      modifies userAgent, this
      ensures rec == ProcessRecommendationResponse(recommendationReply, userAgent.currentRating)
      ensures userAgent.recommendationRating == Some(rec.rating)
      ensures userAgent.currentRating == old(userAgent.currentRating)
      ensures userAgent.history == old(userAgent.history) && userAgent.memory == old(userAgent.memory)
      ensures log == old(log) + [FinalEntry(Context(), iteration, userAgent.currentRating, currentArticle, rec, insertOk)]
      ensures currentArticle == old(currentArticle)
    {
      rec := ProcessRecommendationResponse(recommendationReply, userAgent.currentRating);
      userAgent.recommendationRating := Some(rec.rating);
      if useDb {
        log := log + [LogToSupabase(Context(), iteration,
                                    if userAgent.currentRating >= 2.5 then "Positive" else "Negative",
                                    userAgent.currentRating, currentArticle,
                                    Some(rec.rating), Some(rec.reasoning), insertOk)];
      } else {
        log := log + [Appended(CsvRowOf(Context(), iteration, "Final state", userAgent.currentRating,
                                        currentArticle, Some(rec.rating), Some(rec.reasoning)))];
      }
    }

    /** `run`: `userReplies(k)` and `editorReplies(k)` are the model's replies at iteration
        `k`, `recommendationReply` its reply to the recommendation prompt, `insertOk(k)`
        the outcome of the insert at iteration `k` and `finalInsertOk` that of the last one. */
    method Run(userReplies: nat -> string, editorReplies: nat -> string, recommendationReply: string,
               insertOk: nat -> bool, finalInsertOk: bool)
      returns (history: seq<UserReply>, recommendationRating: real, recommendationReasoning: string)
      requires Valid()
      modifies this, userAgent, editorAgent
      ensures var h := Turns(0, maxIterations, targetRating, old(userAgent.currentRating), Parsed(userReplies));
        && userAgent.history == old(userAgent.history) + h
        && userAgent.currentRating == RatingAfter(h, old(userAgent.currentRating))
        && userAgent.memory == old(userAgent.memory) + UserMemory(h, old(currentArticle), Edits(editorReplies))
        && editorAgent.memory == old(editorAgent.memory)
             + EditorMemory(h[..EditorSteps(targetRating, h)], old(currentArticle), Edits(editorReplies))
        && currentArticle == ArticleAt(EditorSteps(targetRating, h), old(currentArticle), Edits(editorReplies))
        && var rec := ProcessRecommendationResponse(recommendationReply, userAgent.currentRating);
        && recommendationRating == rec.rating && recommendationReasoning == rec.reasoning
        && userAgent.recommendationRating == Some(rec.rating)
        && log == old(log) + TurnEntries(Context(), h, old(currentArticle), Edits(editorReplies), insertOk)
             + [FinalEntry(Context(), EditorSteps(targetRating, h), userAgent.currentRating, currentArticle,
                           rec, finalInsertOk)]
      ensures history == userAgent.history
      ensures editorAgent.currentRating == old(editorAgent.currentRating)
      ensures editorAgent.history == old(editorAgent.history)
    {
      ghost var st0 := State();
      var iteration := Iterate(Parsed(userReplies), Edits(editorReplies), insertOk);
      assert After(Context(), st0, [], Edits(editorReplies), insertOk, st0) by {
        assert st0.history + [] == st0.history;
        assert st0.userMemory + [] == st0.userMemory;
        assert st0.editorMemory + [] == st0.editorMemory;
        assert st0.log + [] == st0.log;
      }
      LoopFrom(Context(), maxIterations, targetRating, Parsed(userReplies), Edits(editorReplies), insertOk, st0, [], st0);
      ghost var t := Turns(0, maxIterations, targetRating, st0.rating, Parsed(userReplies));
      assert [] + t == t;
      var rec := Recommend(recommendationReply, iteration, finalInsertOk);
      history := userAgent.history;
      recommendationRating := rec.rating;
      recommendationReasoning := rec.reasoning;
    }

    /** The `while` loop of `run`; it returns the final value of `iteration`. */
    method Iterate(parse: (nat, real) -> UserReply, edits: nat -> string, insertOk: nat -> bool)
      returns (iteration: nat)
      requires Valid()
      modifies this, userAgent, editorAgent
      ensures (iteration, State()) == Loop(Context(), 0, maxIterations, targetRating, parse, edits, insertOk, old(State()))
      ensures userAgent.recommendationRating == old(userAgent.recommendationRating)
      ensures editorAgent.currentRating == old(editorAgent.currentRating)
      ensures editorAgent.history == old(editorAgent.history)
    {
      ghost var result := Loop(Context(), 0, maxIterations, targetRating, parse, edits, insertOk, State());
      iteration := 0;
      while iteration < maxIterations
        invariant result == Loop(Context(), iteration, maxIterations, targetRating, parse, edits, insertOk, State())
        invariant userAgent.recommendationRating == old(userAgent.recommendationRating)
        invariant editorAgent.currentRating == old(editorAgent.currentRating)
        invariant editorAgent.history == old(editorAgent.history)
      {
        var reply := UserTurn(parse, iteration, insertOk(iteration));
        if Normalize(reply.rating) >= targetRating {
          break;
        }
        EditorTurn(edits, iteration, reply);
        iteration := iteration + 1;
      }
    }
  }
}
