# Persona simulation and dashboard metrics, in Dafny

This project models two parts of a vaccine-persuasion experiment.
It proves properties of both.

- **Simulation agents (Python).** A *user* agent plays a persona. It reads an article, reacts, and rates its vaccine acceptance on a 1–4 scale. An *editor* agent rewrites the article to raise that rating. The run stops at an iteration limit or when the normalised rating `(r-1)/3` reaches a target. Every turn is logged as a row. A generator writes synthetic sessions of the same shape.
- **Dashboard metrics (TypeScript).** These are functions over the logged response records:
  - averages and counts grouped by persona;
  - Negative→Positive shift detection;
  - per-iteration chart rows, with a persona's last value carried forward;
  - first-to-last rating changes;
  - the most and least persuadable persona;
  - the conversion rate;
  - reaction percentages per iteration;
  - the line chart with its persona selection;
  - the pie chart of initial sentiment.

The language model, the database, files, clocks and random draws are not modelled. Each becomes a parameter:
- the model's replies at each iteration;
- the outcome of each database insert;
- the CSV file, as a sequence of rows;
- the random draws, within their documented ranges.

Floating-point numbers are modelled as Dafny `real`. The generator's ratings are whole numbers of tenths, which makes its rounding exact. Library sorts become a stable insertion sort, `Seqs.SortByKey`.

Modules follow the program's files:
- **Shared helpers:**
  - `Wrappers`: `Option`;
  - `Seqs`: counting, filtering, de-duplication and the stable sort;
  - `Strings`: Python's `split`, `strip`, `lower` and `float`;
  - `Numeric`: clamping, rounding as `toFixed` and `Math.round` do it, and JavaScript's `%`;
  - `Grouping`: `reduce`-style group-by and JavaScript's object key order.
- **`agent/simulation.py`:** `Agents`, `ReplyParsing`, `DiffSummary`, `Session` and `AgentSimulation`.
- **`simulation.py`:** `RootSimulation`. It shares `ReplyParsing`, `DiffSummary` and `Session`.
- **`agent/generate_synthetic_data.py`:** `Synthetic`.
- **`dashboard/src/lib/mock-data.ts`:** `Records`.
- **`DashboardBento.tsx`:** `Bento`.
- **`PersonaResponseCharts.tsx`:** `Responses`.
- **`reactation-shift.tsx`:** `ReactionShift`.
- **All the other files:** `FillForward`, `NewsImpactChart`, `NewsImpactAnalysis`, `ConversionTrajectory`, `ChartColors`, `QuickInsights`, `AreaChart`, `LineChart` and `PieChart`.

Where the source updates state step by step, the model does too. A Dafny class stands for the object, and methods with loops stand for the code. Each method's contract ties its result or new state to a specification function, and lemmas prove what that function promises.

## Model

| member | source | states |
|---|---|---|
| Agents.StanceRating | agent/simulation.py:60-73 | a numeric stance is the starting rating as is; a label goes through the five-entry table, and an unknown label gives 2.5 |
| Agents.StanceScale | agent/simulation.py:64-71 | the table ranks the labels strictly from "Strongly opposed" to "Strongly supportive", and every unknown label rates like "Hesitant" |
| Agents.LastN | agent/simulation.py:93 | `s[-n:]` keeps the last `min(n, len(s))` entries, as a suffix of `s` |
| Agents.FirstN | agent/simulation.py:100 | `s[:n]` keeps the first `min(n, len(s))` entries, as a prefix of `s` |
| Agents.LastNAppend | agent/simulation.py:93 | appending an entry moves the window of the last `n` entries on by one |
| Agents.Agent.constructor | agent/simulation.py:47-77 | a new agent has empty history and memory, no recommendation, and the rating of its stance |
| Agents.Agent.WithRating | simulation.py:31-37 | the root simulation's agent takes the stance unchanged as its rating, with empty history and memory |
| Agents.Agent.AddToMemory | agent/simulation.py:214-222 | exactly one triple is appended at the end; rating, history and recommendation are unchanged |
| Agents.Agent.MemoryWindow | agent/simulation.py:91-94 | a prompt shows at most the three newest memory entries, in order |
| Agents.Agent.ArticlesWindow | agent/simulation.py:98-101 | a user prompt shows at most the first two known articles, in order |
| Agents.WindowAfterAdd | agent/simulation.py:93 | after `add_to_memory` the prompt window is the two newest earlier entries followed by the new one |
| ReplyParsing.ClampRating | agent/simulation.py:192-194 | an out-of-range rating is clamped into [1, 4]; a rating in range is left alone |
| ReplyParsing.UserReplyRange | agent/simulation.py:178-201 | a user reply either fails and keeps the current rating with the fixed error texts, or yields a rating in [1, 4] |
| ReplyParsing.UserMissingMarker | agent/simulation.py:181-201 | a user reply lacking `REACTION:`, `RATING:` or `REASONING:` gives ("Error processing response", current rating, "Error in response format") |
| ReplyParsing.EditorMissingMarker | agent/simulation.py:203-212 | an editor reply lacking `CHANGES_SUMMARY:` or `ARTICLE:` gives the stripped reply as the article and "Error extracting changes summary" |
| ReplyParsing.RecommendationRange | agent/simulation.py:258-279 | a recommendation either fails and keeps the current rating, or yields a rating in [1, 4] |
| ReplyParsing.RecommendationMissingMarker | agent/simulation.py:260-279 | a recommendation lacking either marker gives (current rating, "Error in response format") |
| ReplyParsing.UserRoundTripText | agent/simulation.py:178-196 | a well-formed user reply whose rating text reads as `v` gives back its reaction and reasoning, trimmed, and `v` with any `/` suffix dropped, clamped into [1, 4] |
| ReplyParsing.UserRoundTrip | agent/simulation.py:178-196 | the same for a rating written with one decimal, such as "3.4" |
| ReplyParsing.UserWholeRoundTrip | agent/simulation.py:178-196 | the same for a whole-number rating, such as "3" or "3/4" |
| ReplyParsing.UserAssembly | simulation.py:114-132 | once its three `split` segments are known, a user reply reads as the stripped reaction, the clamped rating and the stripped reasoning |
| ReplyParsing.UserSegments | agent/simulation.py:181-189 | the `split(M)[1]` segments of a formatted user reply are exactly its padded fields |
| ReplyParsing.EditorRoundTrip | agent/simulation.py:203-207 | a well-formed editor reply gives back its article and its change summary, trimmed |
| ReplyParsing.EditorSegments | simulation.py:141-142 | the `split` segments of a formatted editor reply are its padded summary and article |
| ReplyParsing.RecommendationRoundTripText | agent/simulation.py:258-274 | a well-formed recommendation whose rating text reads as `v` gives back `v` clamped into [1, 4] and its trimmed reasoning |
| ReplyParsing.RecommendationRoundTrip | agent/simulation.py:258-274 | the same for a rating written with one decimal |
| ReplyParsing.RecommendationWholeRoundTrip | agent/simulation.py:258-274 | the same for a whole-number rating |
| ReplyParsing.RecommendationSegments | agent/simulation.py:262-267 | the `split` segments of a formatted recommendation are its padded rating text and reasoning |
| ReplyParsing.ThreeFieldParts | agent/simulation.py:181-189 | `split(m)[1]` reads the field between the first and the second occurrence of a marker, for three markers that do not occur in one another or in the fields |
| ReplyParsing.TwoFieldParts | agent/simulation.py:205-206 | the same for two markers |
| ReplyParsing.SecondAfter | agent/simulation.py:181 | `(x + m + y).split(m)[1]` is `y.split(m)[0]` when `x` holds no `m` |
| ReplyParsing.HeadBefore | agent/simulation.py:181 | `(z + m + w).split(m)[0]` is `z` when `z` holds no `m` |
| ReplyParsing.CutRating | agent/simulation.py:186 | cutting a written rating at its first `/` leaves the number |
| ReplyParsing.ShowTenthsText | agent/simulation.py:184-186 | a rating written with one decimal has no blank at either end, no marker letter and no `/`, and `float` reads it back |
| ReplyParsing.ShowNatText | agent/simulation.py:184-186 | a whole-number rating has no blank at either end, no marker letter and no `/`, and `float` reads it back |
| ReplyParsing.ReadRatingText | agent/simulation.py:184-186 | the stripped rating text, cut at `/` and parsed with `float`, gives back the rating written |
| Strings.SplitSecond | agent/simulation.py:181 | `s.split(m)[1]` is missing (Python's `IndexError`) exactly when `m` does not occur in `s` |
| Strings.SplitHead | agent/simulation.py:181 | `s.split(m)[0]` is a prefix of `s` |
| Strings.Find | agent/simulation.py:181 | the first occurrence of a marker, or none exactly when it does not occur |
| Strings.Strip | agent/simulation.py:181 | `strip()` leaves a text with no surrounding whitespace |
| Strings.StripPadded | agent/simulation.py:181 | stripping removes exactly the whitespace around a trimmed text |
| Strings.Lower | agent/simulation.py:355 | `lower()` maps every character on its own and keeps the length |
| Strings.ParseShowTenths | agent/simulation.py:186 | `float` applied to a rating written in tenths gives back its value |
| Strings.ParseShowNat | agent/simulation.py:186 | `float` applied to a whole number's decimal digits gives back the number |
| DiffSummary.GenerateDiffSummary | agent/simulation.py:281-292 | the loop collects the descriptions of the change lines, and the result is the summary of those changes |
| DiffSummary.ChangesFaithful | agent/simulation.py:286-290 | one description per `- ` or `+ ` line, in diff order, and no other line is described |
| DiffSummary.ChangesTagged | agent/simulation.py:287-290 | every description starts with "Removed: " or "Added: " |
| DiffSummary.NoChangesEmpty | agent/simulation.py:292 | a diff without change lines gives the empty summary |
| DiffSummary.ShortSummary | agent/simulation.py:292 | with at most five changes the summary joins all of them with newlines |
| DiffSummary.EllipsisIff | simulation.py:164 | the summary ends in "\n..." exactly when there are more than five changes |
| DiffSummary.ChangesShape | agent/simulation.py:288-290 | every description has at least four characters and no newline |
| DiffSummary.NoTailEllipsis | agent/simulation.py:292 | a join of such descriptions never ends in "\n..." by itself |
| Session.TurnsLength | agent/simulation.py:429-491 | a run takes at most `max_iterations` turns, and at least one when it may take any |
| Session.TurnsStop | agent/simulation.py:462-467 | no turn but the last reaches the target, and a run that ends early ends on a turn that reached it |
| Session.TurnsChain | agent/simulation.py:443-445 | each turn parses its own reply against the rating the previous turn left |
| Session.TurnsNext | agent/simulation.py:430-491 | a turn that misses the target is followed by the run from the next iteration |
| Session.ParsedInRange | agent/simulation.py:178-201 | a parsed turn's rating stays in [1, 4] when the current one is |
| Session.TurnsInRange | agent/simulation.py:443-444 | every rating of a run stays in [1, 4] when the starting rating does |
| Session.UserMemoryContents | agent/simulation.py:448 | one user memory triple per turn, with the article read at that turn, its reaction and its rating |
| Session.EditorMemoryContents | agent/simulation.py:484 | one editor memory triple per edit, with the article the edit produced |
| Session.UserMemoryAppend | simulation.py:218 | a further turn adds one user memory triple |
| Session.EditorMemoryAppend | simulation.py:261 | a further edit adds one editor memory triple |
| Session.MemoriesAgree | agent/simulation.py:448-484 | the user reads at each turn the article the editor wrote after the turn before, and both memories record the same reaction and rating |
| Session.EditorStepsRun | simulation.py:231-261 | the editor acts after every turn except a last one that reaches the target |
| AgentSimulation.TextOr | agent/simulation.py:369-370 | `x or ""` is the text, or "" when there is none |
| AgentSimulation.CanonicalReaction | agent/simulation.py:355 | the logged reaction is "Positive" exactly when the lowercased reaction starts with "positive", and otherwise "Negative" |
| AgentSimulation.SupabaseRow | agent/simulation.py:350-373 | the inserted row clamps the iteration into 1..10, canonicalises the reaction and normalises ratings in [1, 4] into [0, 1]; a falsy recommendation has no normalised value |
| AgentSimulation.CsvRowOf | agent/simulation.py:402-419 | the CSV row keeps iteration and reaction as given and leaves the cells of falsy values empty |
| AgentSimulation.LogToSupabase | agent/simulation.py:341-397 | a successful insert logs the database row; a failed one appends the same values as a CSV row |
| AgentSimulation.TurnEntriesAppend | agent/simulation.py:450-455 | each further turn adds its own log entry |
| AgentSimulation.LoopFrom | agent/simulation.py:429-491 | the loop from any iteration takes exactly the remaining turns of the run specification, with their memories and log |
| AgentSimulation.OutcomeStop | agent/simulation.py:464-467 | the loop ends on a turn that reached the target, with no edit after it |
| AgentSimulation.AfterStep | agent/simulation.py:469-491 | a turn that missed the target, and the edit after it, extend every part of the state by one turn |
| AgentSimulation.Simulation.constructor | agent/simulation.py:294-330 | both agents start from the persona; the database stays in use only when requested and connected; the article is the fixed initial one |
| AgentSimulation.Simulation.UserTurn | agent/simulation.py:443-455 | the user half of an iteration parses the reply, takes its rating, and appends to history, memory and log |
| AgentSimulation.Simulation.EditorTurn | agent/simulation.py:476-484 | the editor half replaces the article and records it in the editor's memory; nothing else changes |
| AgentSimulation.Simulation.Recommend | agent/simulation.py:500-530 | the recommendation's rating is kept and the final state is logged once |
| AgentSimulation.Simulation.Iterate | agent/simulation.py:429-491 | the `while` loop leaves the state that the loop specification gives |
| AgentSimulation.Simulation.Run | agent/simulation.py:421-532 | the history gains exactly the turns of the run specification, the rating is the one the last turn left, and the memories and log match those turns |
| RootSimulation.LogRowCells | simulation.py:184-196 | a logged row fills every header column: iteration, rating, the article read, and the changes last |
| RootSimulation.WithLastCell | simulation.py:253-254 | `rows[-1][-1] = editor_changes` keeps the number of rows |
| RootSimulation.LastCellOnly | simulation.py:250-258 | the rewrite changes only the last cell of the last row; with only the header present nothing changes |
| RootSimulation.TurnRowsContents | simulation.py:221-254 | row `j` records turn `j`, the article it read, and the summary of the edit after it, if one followed |
| RootSimulation.TurnRowsEdited | simulation.py:253-254 | only whether each turn was edited decides its last cell |
| RootSimulation.LoopFrom | simulation.py:198-268 | the loop from any iteration takes exactly the remaining turns of the run specification, with their rows and memories |
| RootSimulation.OutcomeStop | simulation.py:231-233 | a turn that reaches the target ends the loop, and its row keeps empty changes |
| RootSimulation.AfterStep | simulation.py:235-268 | a turn that missed the target, and the edit after it, extend the state by one turn |
| RootSimulation.Simulation.constructor | simulation.py:166-182 | both agents take the numeric stance as their rating, and the file holds only the header |
| RootSimulation.Simulation.LogIteration | simulation.py:184-196 | one row is appended at the end of the file |
| RootSimulation.Simulation.RewriteLastCell | simulation.py:250-258 | the file becomes the old rows with only the last cell rewritten |
| RootSimulation.Simulation.UserTurn | simulation.py:213-221 | the user half of an iteration parses, records and logs the turn |
| RootSimulation.Simulation.EditorTurn | simulation.py:242-261 | the editor half replaces the article, writes the changes into the last row and records the new article |
| RootSimulation.Simulation.Iterate | simulation.py:199-268 | the `while` loop leaves the state that the loop specification gives |
| RootSimulation.Simulation.Run | simulation.py:198-270 | the returned history is the run's turns, one per user turn; editor memory gains one entry per turn that missed the target |
| Synthetic.ReachesIff | agent/generate_synthetic_data.py:255-256 | a rating normalises to at least 0.8 exactly from 3.4 on |
| Synthetic.NormalizedNearest | agent/generate_synthetic_data.py:381 | the logged normalised rating, in hundredths, is within half a hundredth of `(r-1)/3` |
| Synthetic.NormalizedReachesIff | agent/generate_synthetic_data.py:381-385 | the rounded normalised rating reaches 0.8 exactly when the rating reaches 3.4 |
| Synthetic.RoundTenthsExact | agent/generate_synthetic_data.py:251 | rounding a value already in tenths gives it back |
| Synthetic.ReachingProgression | agent/generate_synthetic_data.py:234-264 | the successful branch has 2 to 7 ratings, starts at the initial rating, never passes 3.4, and every rating before the last is below the target; from an initial rating in [1.0, 2.5] each of the `k` planned steps adds exactly 0.1 (the step size is 0.1 and each change lies in [0.09, 0.1]), the loop never breaks, and 3.4 is appended, giving `k + 2` ratings, exactly when `k <= 5`; with `k == 6` the seven ratings all stay below 3.4 |
| Synthetic.MissingProgression | agent/generate_synthetic_data.py:265-295 | the unsuccessful branch has exactly 7 ratings; each added one lies in [1.0, 3.3] and so stays below the target; from an initial rating in [1.0, 2.5] each step rises by at most 0.1 and never falls, because a change of at least -0.05 rounds back to the same tenth |
| Synthetic.Progression | agent/generate_synthetic_data.py:205-297 | the progression starts at the initial rating, has 2 to 7 entries (exactly 7 when unsuccessful), and never passes 3.4; a successful one ends at 3.4 or at full length; from an initial rating in [1.0, 2.5] it has the exact course of the chosen branch (`ProgressionShape`) |
| Synthetic.MarkedReachesIff | agent/generate_synthetic_data.py:236-262 | a marked persona's progression reaches the target exactly when `randint(4, 6)` drew at most 5; with 6, every rating is at most the initial rating plus 0.6, below 3.4 |
| Synthetic.StepsWithinTenth | agent/generate_synthetic_data.py:216-286 | every step of a progression changes the rating by at most 0.1, except a marked persona's forced final step to 3.4, which is at least 0.4; no rating is below 1.0 |
| Synthetic.ReplaceLast | agent/generate_synthetic_data.py:295 | `progression[-1] = x` keeps the length |
| Synthetic.ChangesSummaryNonEmpty | agent/generate_synthetic_data.py:181-203 | a changes summary of one to three picks is never empty, and one pick is shown as is |
| Synthetic.FillTemplate | agent/generate_synthetic_data.py:144-150 | the placeholder loop gives the template with each present placeholder replaced in turn |
| Synthetic.GuardRedundant | agent/generate_synthetic_data.py:148 | the `in` guard before each `replace` changes nothing |
| Synthetic.FillNothing | agent/generate_synthetic_data.py:147-150 | a template without placeholders comes back unchanged |
| Synthetic.Recommendation | agent/generate_synthetic_data.py:395-397 | the recommendation rating is clamped into [1.0, 3.43] and rounded, so it lies in [1.0, 3.4] |
| Synthetic.RowFacts | agent/generate_synthetic_data.py:379-427 | a row's reaction is "Positive" iff the rating is at least 2.5, iteration 1 has no editor changes, and the final iteration carries a recommendation |
| Synthetic.RowEditorChanges | agent/generate_synthetic_data.py:409 | the editor changes are empty exactly at iteration 1 |
| Synthetic.AnyReachedIff | agent/generate_synthetic_data.py:373-385 | a session counts as having reached the target exactly when one of its logged ratings is at least 3.4 |
| Synthetic.SessionRows | agent/generate_synthetic_data.py:379-439 | a session logs one row per progression entry until the entry budget runs out, and it counts as successful iff a logged rating reached the target |
| Synthetic.LogEntry | agent/generate_synthetic_data.py:380-431 | one pass of the loop extends the logged rows by the row of the entry, notes whether the entry normalises to the target, and moves to the next article |
| Synthetic.PlanFor | agent/generate_synthetic_data.py:319-328 | a persona's initial rating lies in [1.0, 2.5]; a marked persona's target, drawn from [3.4, 3.43] and rounded, is 3.4; an unmarked one's lies between its initial rating and 3.3 |
| Synthetic.PreparePersonas | agent/generate_synthetic_data.py:311-328 | the first five of the shuffled order are marked to reach the target, and each gets an initial rating in [1.0, 2.5] |
| Synthetic.MarkedCount | agent/generate_synthetic_data.py:308-316 | exactly five of the seven personas are marked to reach the target |
| Synthetic.PersonaSession | agent/generate_synthetic_data.py:359-439 | one persona's session draws a progression meeting the generator's promise for its planned step count, writes the rows of its first entries, as many as the budget allows (at least one), and counts as reached exactly when one of the logged entries normalises to the target; every row is well formed, at most 3.4 and carries the session's and persona's ids |
| Synthetic.UnmarkedNeverReaches | agent/generate_synthetic_data.py:265-297 | a persona not marked to reach the target never logs a rating that normalises to it |
| Synthetic.MarkedNext | agent/generate_synthetic_data.py:433-435 | a session that reached the target belongs to a marked persona, so successes never outrun the marked personas seen so far |
| Synthetic.GeneratedNext | agent/generate_synthetic_data.py:359-439 | appending one more session keeps the rows equal to the sessions' concatenation, the size at most 550, the success count exact and bounded by the marked count, and every row well formed |
| Synthetic.NextSession | agent/generate_synthetic_data.py:359-439 | one pass of the persona loop appends the next plan's session, logged within what is left of 550 rows, to the sessions and the rows, and adds one success exactly when that session reached the target |
| Synthetic.ShuffledCount | agent/generate_synthetic_data.py:311-312 | a shuffle of the fixed personas has seven entries |
| Synthetic.GenerateSyntheticData | agent/generate_synthetic_data.py:299-443 | five of seven personas are marked; the rows are the personas' sessions concatenated in the shuffled order, each session the rows of its progression's first entries within the budget the earlier sessions left; the loop stops after the last persona or at exactly 550 rows; `successful` is the number of sessions that reached the target, at most five; every row is well formed |
| Records.Names | dashboard/src/lib/mock-data.ts:439-445 | one name per record, in record order |
| Records.GetPersonaDataExact | dashboard/src/lib/mock-data.ts:435-437 | `getPersonaData(name)` returns exactly the records carrying that name, every copy of each, in their original order |
| Records.GetPersonaDataUnknown | dashboard/src/lib/mock-data.ts:435-437 | a name that no record carries selects nothing |
| Records.OwnRecords | dashboard/src/lib/mock-data.ts:435-437 | a persona that occurs in the data has at least one record |
| Records.GetAvailablePersonas | dashboard/src/lib/mock-data.ts:439-445 | the `Set` loop yields the distinct names in order of first occurrence |
| Records.AvailablePersonasFacts | dashboard/src/lib/mock-data.ts:439-445 | the available names are distinct, are exactly the names that some record carries, and come in order of first occurrence |
| Records.BlocksNames | dashboard/src/lib/mock-data.ts:23-433 | a fixture laid out as one non-empty block per persona, with distinct names, lists those names in block order |
| Records.BlocksSelect | dashboard/src/lib/mock-data.ts:435-437 | with distinct names, a name selects exactly its own block, and an unlisted name selects nothing |
| Records.BlocksBlock | dashboard/src/lib/mock-data.ts:435-437 | block `k`'s name occurs and selects exactly block `k` |
| Records.MockNames | dashboard/src/lib/mock-data.ts:23-433 | the fixture's personas come out as Brian, Sarah, Michael, Linda, David |
| Records.MockAllReal | dashboard/src/lib/mock-data.ts:23-433 | every fixture record is real news, and none is fake |
| Records.MockConsecutive | dashboard/src/lib/mock-data.ts:23-433 | within each persona the fixture's iterations run 1, 2, ..., n in file order |
| Records.MockBlock | dashboard/src/lib/mock-data.ts:23-433 | persona `k` of the fixture selects exactly its own block, with ids 1 to 5 in order |
| Grouping.Tally | dashboard/src/components/PersonaResponseCharts.tsx:80-102 | counting by key gives one bucket per distinct key, in order of first occurrence, with the key's number of occurrences, and the counts add up to the number of keys |
| Grouping.TallyBound | dashboard/src/components/PersonaResponseCharts.tsx:81-88 | with keys drawn from a set there are at most as many buckets as the set has members |
| Grouping.Bump | dashboard/src/components/DashboardBento.tsx:89-90 | `if (!acc[key]) acc[key] = 0; acc[key] += 1` creates a missing key at the end of the key order and raises the total by one |
| Grouping.GroupFold | dashboard/src/components/DashboardBento.tsx:117-135 | the `reduce` over an object creates one accumulator per distinct key, in order of first occurrence, each the fold of that key's own items in order |
| Grouping.FoldPush | dashboard/src/components/charts/news-impact-chart.tsx:52-58 | pushing each item onto its key's list leaves that key's items in their original order |
| Grouping.IntegerKeyOrderFacts | dashboard/src/components/DashboardBento.tsx:168 | `Object.values` on number keys lists every created key once per creation: the array indices first, ascending, then the others in creation order |
| Grouping.StringKeyOrderFacts | dashboard/src/components/insights/quick-insights.tsx:33 | `Object.entries` on string keys lists the index-like keys first, ascending, then the others in creation order; with no index-like key it is the creation order itself |
| Responses.Find | dashboard/src/components/PersonaResponseCharts.tsx:56 | `acc.find` gives an entry of that persona, or none exactly when the persona has no entry |
| Responses.Accumulate | dashboard/src/components/PersonaResponseCharts.tsx:55-70 | one `reduce` step joins the persona's entry or starts a new one, and raises the total count by one |
| Responses.OthersUnchanged | dashboard/src/components/PersonaResponseCharts.tsx:57-61 | a response leaves the entries of every other persona as they were |
| Responses.AttitudeByPersona | dashboard/src/components/DashboardBento.tsx:61-76 | one entry per distinct persona id, in order of first appearance, with that persona's response count (never 0), the sum of its attitude scores (a missing score as 0) and their mean; the counts add up to the number of responses |
| Responses.ScatterData | dashboard/src/components/DashboardBento.tsx:79-83 | one point per response, in order, with missing scores read as 0 |
| Responses.RealityFactNamesDiffer | dashboard/src/components/DashboardBento.tsx:88 | different (real, fact) pairs give different key strings, so grouping by string is grouping by pair |
| Responses.RealityFactGroups | dashboard/src/components/DashboardBento.tsx:86-96 | at most four groups, distinct, in order of first occurrence, holding the number of responses with that pair; the counts add up to the number of responses |
| Responses.VaccineData | dashboard/src/components/DashboardBento.tsx:101-108 | at most two groups, in order of first occurrence, with their counts adding up to the number of responses |
| Responses.PersonaResponseCharts | dashboard/src/components/PersonaResponseCharts.tsx:50-102 | the loading, error and empty states return first, in that order; otherwise the view holds one attitude entry per persona in order of first appearance, each with that persona's count, total and mean, the scatter points of the responses, and the reality/fact (at most four) and vaccination (at most two) tallies, one bucket per key in order of first occurrence with its number of responses |
| Bento.RecentFacts | dashboard/src/components/DashboardBento.tsx:112-114 | at most three responses, latest first, drawn from the input without repeats; no response left out is later than one kept |
| Bento.PrefixLatest | dashboard/src/components/DashboardBento.tsx:113-114 | the first `k` responses sorted latest first are no earlier than any other response |
| Bento.DayTotalsFold | dashboard/src/components/DashboardBento.tsx:117-135 | the `reduce` leaves each day's entry holding that day's sums and count |
| Bento.DayTotalsLast | dashboard/src/components/DashboardBento.tsx:128-130 | a further response adds to its own day's totals only |
| Bento.DayPresent | dashboard/src/components/DashboardBento.tsx:121-127 | a day that occurs has at least one response, so its averages do not divide by 0 |
| Bento.LineChartData | dashboard/src/components/DashboardBento.tsx:117-144 | one point per day on which a response was given, in strictly ascending date order, each holding that day's average attitude and recommendation |
| Bento.DayPoints | dashboard/src/components/DashboardBento.tsx:138-143 | each listed day's totals become its averages, in the order the days are listed |
| Bento.GroupFoldCounts | dashboard/src/components/DashboardBento.tsx:149-165 | the `reduce` leaves each persona's entry with its response and vaccinated counts |
| Bento.GroupBound | dashboard/src/components/DashboardBento.tsx:158-162 | a group never has more vaccinated responses than responses |
| Bento.ProbabilityFacts | dashboard/src/components/DashboardBento.tsx:169 | the probability is a percentage, 0 exactly when nobody in the group was vaccinated and 100 exactly when everybody was |
| Bento.FillByQuarter | dashboard/src/components/DashboardBento.tsx:172-176 | the fill is the colour of the probability's quarter, from orange to blue |
| Bento.TreemapData | dashboard/src/components/DashboardBento.tsx:147-188 | one cell per persona, in the order `Object.values` gives number keys; each cell's size is the persona's response count and its probability is the vaccinated share in percent |
| Bento.CellsOf | dashboard/src/components/DashboardBento.tsx:167-187 | one cell per listed persona, in the order given |
| Bento.SummaryFacts | dashboard/src/components/DashboardBento.tsx:339-354 | the real and factual counts never exceed the total, and the average shown is within half a hundredth of a mean that lies between the least and the greatest score |
| Bento.DashboardBento | dashboard/src/components/DashboardBento.tsx:56-188 | the loading, error and empty states return first; otherwise the view holds the same attitude entries, scatter points and tallies, the three latest responses, one line point per answer day in date order holding that day's averages with no day left out, one treemap cell per persona in `Object.values` order summarising that persona, and the summary figures |
| FillForward.SortedExtremes | dashboard/src/components/insights/reactation-shift.tsx:42-43 | sorted by iteration, a persona's records start at one of least iteration and end at one of greatest |
| FillForward.RowCount | dashboard/src/components/insights/reactation-shift.tsx:82-87 | `Math.max` of the iterations gives the number of rows, and no iterations (`-Infinity`) give none |
| FillForward.RowCountCovers | dashboard/src/components/insights/reactation-shift.tsx:82-87 | every iteration from 1 on that occurs gets a row |
| FillForward.FirstAt | dashboard/src/components/insights/reactation-shift.tsx:96 | `find` gives the first record of that iteration, or none exactly when there is none |
| FillForward.CellsAtFacts | dashboard/src/components/insights/reactation-shift.tsx:89-108 | with distinct series keys, a row holds a key exactly when that series has a value there, and then it holds that value |
| FillForward.FillRows | dashboard/src/components/insights/reactation-shift.tsx:84-108 | one row per iteration 1 to the maximum; each series in turn writes its value into every row where it has one |
| FillForward.FillSeries | dashboard/src/components/insights/reactation-shift.tsx:94-107 | the inner loop writes one more series into every row |
| FillForward.RowsInOrder | dashboard/src/components/insights/reactation-shift.tsx:110 | the final sort leaves the rows as they are, because they are already in iteration order |
| FillForward.ValueAtOwn | dashboard/src/components/insights/reactation-shift.tsx:98-101 | a series with a record at an iteration shows its first such record there |
| FillForward.ValueAfterLast | dashboard/src/components/insights/reactation-shift.tsx:102-105 | past the last record of a sorted series, that record is carried forward flat |
| FillForward.ValueInGap | dashboard/src/components/insights/reactation-shift.tsx:98-106 | within a series' span, an iteration without a record stays empty: the fill never interpolates |
| FillForward.ValueOfConsecutive | dashboard/src/components/insights/reactation-shift.tsx:94-107 | a series with records 1 to n shows record i up to n and record n after that |
| ChartColors.PersonaColorFacts | dashboard/src/components/charts/news-impact-chart.tsx:147-150 | a listed persona gets the palette entry at its position modulo five, and an unlisted one (index -1, JavaScript remainder -1) gets none |
| ChartColors.PositionColor | dashboard/src/components/charts/line-chart.tsx:63-65 | with distinct names the persona at position `k` gets colour `k mod 5`, so the palette repeats every five personas |
| ReactionShift.ShiftsExactly | dashboard/src/components/insights/reactation-shift.tsx:46-58 | a point is a shift point exactly when it is the record of a Negative-to-Positive step; the first record never is one |
| ReactionShift.ShiftPoints | dashboard/src/components/insights/reactation-shift.tsx:48-58 | the loop collects exactly the shift points |
| ReactionShift.ShiftsExist | dashboard/src/components/insights/reactation-shift.tsx:72 | `hasShift` holds exactly when some Negative record is directly followed by a Positive one |
| ReactionShift.ShiftEntryFacts | dashboard/src/components/insights/reactation-shift.tsx:36-75 | the entry holds all the persona's records, and only them, in iteration order; its initial and final reactions are those of its records of least and greatest iteration |
| ReactionShift.SortedIterations | dashboard/src/components/insights/reactation-shift.tsx:43 | in sorted records the first has the least iteration and the last the greatest |
| ReactionShift.PersonaShiftOf | dashboard/src/components/insights/reactation-shift.tsx:36-75 | one persona's entry, with its loop, is the entry specification |
| ReactionShift.ReactionShiftData | dashboard/src/components/insights/reactation-shift.tsx:33-77 | one entry per available persona, in order of first appearance |
| ReactionShift.CombinedChartData | dashboard/src/components/insights/reactation-shift.tsx:80-111 | one row per iteration up to the largest of any persona, holding each persona's own record there or its last one once its line has ended |
| ReactionShift.ShiftAnnotations | dashboard/src/components/insights/reactation-shift.tsx:114-141 | the nested loops collect exactly the markers of every persona, in persona order |
| ReactionShift.MarkersOf | dashboard/src/components/insights/reactation-shift.tsx:123-138 | every marker sits at a shift point that has a row, with the persona's name, colour and value in that row; every such shift point gets a marker |
| ReactionShift.MarkerOnLine | dashboard/src/components/insights/reactation-shift.tsx:127-131 | a marker reads the rating of the persona's own first record of that iteration, so it sits on the persona's line |
| ReactionShift.RowsCoverCharts | dashboard/src/components/insights/reactation-shift.tsx:82-87 | every record of every persona, from iteration 1 on, has a row |
| ReactionShift.BlockShifts | dashboard/src/components/insights/reactation-shift.tsx:48-58 | a block of consecutive records shifts exactly where its readings turn positive |
| ReactionShift.EntryShifts | dashboard/src/components/insights/reactation-shift.tsx:36-58 | a persona whose records form one block shifts where its readings turn positive |
| ReactionShift.RisingStep | dashboard/src/components/insights/reactation-shift.tsx:48-52 | one more flag adds its position exactly when it turns the run from false to true |
| ReactionShift.NoRisingEdges | dashboard/src/components/insights/reactation-shift.tsx:48-52 | a run that never turns from false to true has no rising edges |
| ReactionShift.MockShifts | dashboard/src/lib/mock-data.ts:23-433 | on the fixture Michael shifts at iteration 3 and David at iteration 2; Brian, Sarah and Linda never shift |
| NewsImpactChart.FilteredExact | dashboard/src/components/charts/news-impact-chart.tsx:33-37 | the news filter keeps every copy of each record of the selected type, in order, and nothing else |
| NewsImpactChart.GroupKeyInjective | dashboard/src/components/charts/news-impact-chart.tsx:53 | two records share a line exactly when they have the same persona name and news type |
| NewsImpactChart.GroupRecords | dashboard/src/components/charts/news-impact-chart.tsx:52-58 | `groupedData` holds, for each key that occurs, the records of that key in order |
| NewsImpactChart.GroupMembers | dashboard/src/components/charts/news-impact-chart.tsx:52-58 | each record lies on its own key's line, and every record on a line has that line's persona and type |
| NewsImpactChart.GroupNonEmpty | dashboard/src/components/charts/news-impact-chart.tsx:61-63 | a listed key has records, so its last record exists |
| NewsImpactChart.Lines | dashboard/src/components/charts/news-impact-chart.tsx:61-63 | one line per group key, in key order, each non-empty |
| NewsImpactChart.NewsChartData | dashboard/src/components/charts/news-impact-chart.tsx:31-94 | one row per iteration up to the largest selected iteration, filled with each line's normalised rating by the line-extension rule |
| NewsImpactChart.NewsCells | dashboard/src/components/charts/news-impact-chart.tsx:66-90 | a line shows a value at a row exactly when the fill gives it a record there: that record's normalised rating, with the same record's reaction, article and reason beside it |
| NewsImpactChart.RowsCover | dashboard/src/components/charts/news-impact-chart.tsx:40-49 | every selected iteration from 1 on gets a row, and an empty selection gets none |
| NewsImpactChart.MockViews | dashboard/src/components/charts/news-impact-chart.tsx:33-37 | the fixture holds only real news, so the 'fake' view has no rows and the 'real' view keeps every record |
| NewsImpactAnalysis.ProgressExact | dashboard/src/components/charts/news-impact-analysis.tsx:35-41 | every record goes into exactly one of its persona's two lists, with every copy |
| NewsImpactAnalysis.ProgressStep | dashboard/src/components/charts/news-impact-analysis.tsx:36-40 | one more record extends its own persona's list of its type and nothing else |
| NewsImpactAnalysis.GroupProgress | dashboard/src/components/charts/news-impact-analysis.tsx:27-41 | the two `forEach` loops leave one entry per available persona, holding that persona's fake and real lists |
| NewsImpactAnalysis.ChangesCount | dashboard/src/components/charts/news-impact-analysis.tsx:79-80 | there is one change per persona with at least two records of the type |
| NewsImpactAnalysis.ChangeEnds | dashboard/src/components/charts/news-impact-analysis.tsx:62-75 | a persona's change runs from one of its records of least iteration to one of greatest, both of that persona and type |
| NewsImpactAnalysis.AverageChangeBounds | dashboard/src/components/charts/news-impact-analysis.tsx:79-88 | with ratings in [0, 1] the average change lies in [-1, 1], and with no persona that moved it stays 0 |
| NewsImpactAnalysis.TotalChanges | dashboard/src/components/charts/news-impact-analysis.tsx:56-76 | the per-persona loop leaves the sums of the changes of both types |
| NewsImpactAnalysis.CumulativeRatings | dashboard/src/components/charts/news-impact-analysis.tsx:91-129 | the loop writes one row per iteration 1 to the maximum, each row being the row specification for its iteration |
| NewsImpactAnalysis.IterationRow | dashboard/src/components/charts/news-impact-analysis.tsx:93-127 | one pass of the loop body reads the row before to give the row specification for its iteration |
| NewsImpactAnalysis.CumulativeTelescopes | dashboard/src/components/charts/news-impact-analysis.tsx:117-126 | while every iteration up to `i` has items, the running change telescopes to the mean of iteration `i` |
| NewsImpactAnalysis.CumulativeGap | dashboard/src/components/charts/news-impact-analysis.tsx:122-126 | an iteration without items carries the running change over, and the next one with items adds its whole mean |
| NewsImpactAnalysis.MeanRatingBounds | dashboard/src/components/charts/news-impact-analysis.tsx:107-115 | an iteration's mean lies within the range of its items' ratings |
| NewsImpactAnalysis.ImpactData | dashboard/src/components/charts/news-impact-analysis.tsx:25-132 | the exposure counts, the average change of each type and the per-iteration rows are those the specification gives, for the available personas |
| NewsImpactAnalysis.ExposuresPartition | dashboard/src/components/charts/news-impact-analysis.tsx:52-53 | the two exposure counts add up to the number of records |
| NewsImpactAnalysis.MockNoFakeChange | dashboard/src/components/charts/news-impact-analysis.tsx:52-88 | on the fixture, which has no fake news, the fake average change and exposure are 0 |
| ConversionTrajectory.BarFacts | dashboard/src/components/insights/converstion-trajectory.tsx:52-70 | the change is end minus start and its size is non-negative; the direction is positive exactly when the change is not negative |
| ConversionTrajectory.TrajectoryEnds | dashboard/src/components/insights/converstion-trajectory.tsx:40-56 | a persona's bar runs from one of its records of least iteration to one of greatest |
| ConversionTrajectory.Trajectories | dashboard/src/components/insights/converstion-trajectory.tsx:38-71 | one bar per available persona, in order of first appearance |
| ConversionTrajectory.BarNonNegative | dashboard/src/components/insights/converstion-trajectory.tsx:53 | every bar's change size is non-negative |
| ConversionTrajectory.TrajectoryDataFacts | dashboard/src/components/insights/converstion-trajectory.tsx:73-74 | the bars are a rearrangement of the per-persona bars, one per persona, with the size of the change never increasing |
| ConversionTrajectory.MaxChange | dashboard/src/components/insights/converstion-trajectory.tsx:80 | `?.absoluteRatingChange \|\| 1` is never 0 |
| ConversionTrajectory.ColorIndexBounds | dashboard/src/components/insights/converstion-trajectory.tsx:78-85 | a value between 0 and the maximum gets one of the nine shades |
| ConversionTrajectory.BarColors | dashboard/src/components/insights/converstion-trajectory.tsx:146 | every bar gets one of the nine shades, and a largest change other than 0 gets the darkest |
| QuickInsights.ImprovementEnds | dashboard/src/components/insights/quick-insights.tsx:16-25 | a persona's improvement runs from one of its records of earliest iteration to one of latest |
| QuickInsights.ImprovementBounds | dashboard/src/components/insights/quick-insights.tsx:24-25 | with normalised ratings in [0, 1] an improvement lies in [-1, 1] |
| QuickInsights.Improvements | dashboard/src/components/insights/quick-insights.tsx:12-27 | the `forEach` writes every persona's improvement, and only those |
| QuickInsights.Entries | dashboard/src/components/insights/quick-insights.tsx:33 | `Object.entries` lists each persona once; with no index-like name, in order of first appearance |
| QuickInsights.LeaderFacts | dashboard/src/components/insights/quick-insights.tsx:30-38 | the loop keeps the greatest value seen, never below 0, and the first position holding it, or none while no value is positive |
| QuickInsights.MostPersuadable | dashboard/src/components/insights/quick-insights.tsx:9-44 | with no positive improvement the result is ("", 0); otherwise a persona of greatest improvement, in percent rounded to one decimal |
| QuickInsights.Highest | dashboard/src/components/insights/quick-insights.tsx:30-43 | the loop over the entries gives the leader of the specification |
| QuickInsights.TrailerFacts | dashboard/src/components/insights/quick-insights.tsx:68-76 | the loop from `Infinity` keeps the least value seen and the first position holding it |
| QuickInsights.LeastPersuadable | dashboard/src/components/insights/quick-insights.tsx:46-82 | a persona of least improvement, in percent rounded to one decimal; with no records no persona, and the improvement is `Infinity` (written None) |
| QuickInsights.Lowest | dashboard/src/components/insights/quick-insights.tsx:68-81 | the loop over the entries gives the trailer of the specification |
| QuickInsights.ImprovementMapEmpty | dashboard/src/components/insights/quick-insights.tsx:12-27 | there are improvements exactly when there are records |
| QuickInsights.MostAtLeastLeast | dashboard/src/components/insights/quick-insights.tsx:29-81 | the most persuadable persona's figure is never below the least persuadable one's |
| QuickInsights.ConversionRate | dashboard/src/components/insights/quick-insights.tsx:84-102 | the rounded percentage of personas whose last entry reaches 0.8; with no persona, `0 / 0` gives NaN, written None |
| QuickInsights.RateBounds | dashboard/src/components/insights/quick-insights.tsx:101 | the rate is a percentage: 0 when nobody converted and 100 when everybody did |
| QuickInsights.RateWhole | dashboard/src/components/insights/quick-insights.tsx:101 | `toFixed(0)` makes the rate a whole number |
| QuickInsights.ConversionRateBounds | dashboard/src/components/insights/quick-insights.tsx:84-102 | for data with a persona the rate is a whole percentage in [0, 100] |
| AreaChart.Buckets | dashboard/src/components/charts/area-chart.tsx:29-48 | ten buckets in creation order, iterations 1 to 10, each holding the tally of its own records |
| AreaChart.PrepareChartData | dashboard/src/components/charts/area-chart.tsx:27-59 | the two passes, the sort and the percentages give the row specification |
| AreaChart.BucketStep | dashboard/src/components/charts/area-chart.tsx:42-47 | a further record changes only its own iteration's bucket |
| AreaChart.TallyCounts | dashboard/src/components/charts/area-chart.tsx:45-46 | `obj[reaction] += 1` counts "Positive" and "Negative"; a reaction named "total" or "iteration" lands on those fields |
| AreaChart.BucketTotal | dashboard/src/components/charts/area-chart.tsx:42-47 | a bucket's counters are the numbers of its records and of its Positive and Negative reactions |
| AreaChart.TwoReactions | dashboard/src/components/charts/area-chart.tsx:42-47 | when every reaction is Positive or Negative, a bucket keeps its iteration, counts its records, and Positive plus Negative is the total |
| AreaChart.PercentagesFacts | dashboard/src/components/charts/area-chart.tsx:54-58 | an empty bucket has shares 0 and 0; otherwise each share is in [0, 100], and they sum to 100 when Positive and Negative make up the total |
| AreaChart.OutOfRangeIgnored | dashboard/src/components/charts/area-chart.tsx:43-44 | a record outside iterations 1 to 10 changes nothing |
| AreaChart.ChartRowsFacts | dashboard/src/components/charts/area-chart.tsx:51-58 | exactly ten rows; with no reaction named "iteration" they are the buckets of iterations 1 to 10, in order |
| AreaChart.BucketsInOrder | dashboard/src/components/charts/area-chart.tsx:51-52 | without a reaction named "iteration" the sort leaves the buckets as they are |
| LineChart.PrepareChartData | dashboard/src/components/charts/line-chart.tsx:29-50 | the two passes and the sort give the row specification for the selection |
| LineChart.CreateRows | dashboard/src/components/charts/line-chart.tsx:34-38 | the first pass creates an empty row for every iteration, in order of first occurrence |
| LineChart.WriteRatings | dashboard/src/components/charts/line-chart.tsx:41-46 | the second pass leaves every row holding the last rating each selected persona wrote at that iteration |
| LineChart.RatingsStep | dashboard/src/components/charts/line-chart.tsx:42-45 | a further record changes only the ratings of its own iteration, and only when its persona is selected |
| LineChart.OrderMembers | dashboard/src/components/charts/line-chart.tsx:34-38 | every iteration of the data, and nothing else, is a key of the map, once |
| LineChart.ChartRowsFacts | dashboard/src/components/charts/line-chart.tsx:49 | one row per distinct iteration, strictly ascending, each holding the ratings of its iteration |
| LineChart.EveryIterationHasRow | dashboard/src/components/charts/line-chart.tsx:34-38 | every iteration of the data has a row |
| LineChart.RatingsFacts | dashboard/src/components/charts/line-chart.tsx:41-46 | only selected personas get ratings; a selected one has a rating at an iteration exactly when it has a record there, and the rating is that of its last such record |
| LineChart.Toggle | dashboard/src/components/charts/line-chart.tsx:54-60 | a selected persona is removed, keeping the order of the others; any other is appended at the end |
| LineChart.ToggleTwice | dashboard/src/components/charts/line-chart.tsx:54-60 | toggling the same persona twice restores the selected set, and the selection itself when the persona was absent |
| LineChart.ToggleNoDup | dashboard/src/components/charts/line-chart.tsx:54-60 | toggling keeps the selection free of repeats |
| LineChart.PersonaTrajectories.constructor | dashboard/src/components/charts/line-chart.tsx:25-26 | every available persona starts selected |
| LineChart.PersonaTrajectories.TogglePersona | dashboard/src/components/charts/line-chart.tsx:54-60 | the selection becomes its toggle, and stays duplicate-free and drawn from the available personas |
| LineChart.PersonaTrajectories.ChartData | dashboard/src/components/charts/line-chart.tsx:52 | the chart data is the row specification for the current selection |
| LineChart.PersonaTrajectories.LineColor | dashboard/src/components/charts/line-chart.tsx:105-142 | an available persona's button and line get its palette colour; any other persona gets none |
| PieChart.Selected | dashboard/src/components/charts/pie-chart.tsx:22-31 | "all" concatenates the mixed, fake and real datasets in that order; any other source selects its own dataset |
| PieChart.InitialPointsFacts | dashboard/src/components/charts/pie-chart.tsx:33-41 | grouping by persona id reorders the iteration-1 records without losing or repeating any: one point per iteration-1 record |
| PieChart.RecordsForCounts | dashboard/src/components/charts/pie-chart.tsx:37-41 | with distinct ids, a record occurs as often as in the data when it is of iteration 1 and its id is listed, and otherwise not at all |
| PieChart.CountsPartition | dashboard/src/components/charts/pie-chart.tsx:44-46 | every point falls in exactly one of the three categories |
| PieChart.CategoriesFacts | dashboard/src/components/charts/pie-chart.tsx:44-52 | the slices shown are exactly the non-empty categories in the fixed order No, Neutral, Yes, and their values add up to the number of points |
| PieChart.EdgeRatings | dashboard/src/components/charts/pie-chart.tsx:44-46 | 0.0 counts as No, 0.5 as Neutral and 1.0 as Yes, all three shown |
| PieChart.ChartDataTotal | dashboard/src/components/charts/pie-chart.tsx:20-53 | the chart counts each iteration-1 record of the selected data once |

## Left out

- **Foreign calls and I/O.** None of these is modelled; each becomes a parameter:
  - OpenAI chat calls: each model reply is an input string;
  - the Supabase client: each insert's success is a boolean input;
  - the CSV files: each file is a sequence of rows;
  - `uuid`, `datetime`, `os.getenv` and `dotenv`: session ids and timestamps are inputs.
- **Not modelled at all:** debug `print`s, `load_personas`, both `main` functions, and the `__main__` blocks. They only do file and console I/O.
- **Prompt text.** `get_prompt` and `get_recommendation_prompt` are template prose. Only the memory and article windows they read are modelled.
- **Random draws.** Each draw of `random` is an input:
  - `uniform`, `randint` and `choice` within their documented ranges;
  - `sample` as a selection of one to three picks;
  - `shuffle` as an order.
- Synthetic.ReachingProgression: modelled as written. When `randint(4, 6)` draws 6, the loop already leaves seven ratings, at most 3.1, so the forced 3.4 is not appended and a persona marked to reach the target does not reach it (`Synthetic.MarkedReachesIff`). The model does not capture the intent, stated by `SUCCESS_PERCENTAGE = 73` and by the comment of the successful branch, that every marked persona reach the target; the constant is never read.
- Synthetic.MissingProgression: a change of exactly -0.05 leaves a value halfway between two tenths, which the model rounds up, so the rating stays. Python's `round` works on the binary value and may round it down, a fall of 0.1. A change above -0.05 keeps the rating in both.
- **`difflib.ndiff`.** Its output lines are the input of `DiffSummary.GenerateDiffSummary`.
- DiffSummary.EllipsisIff and DiffSummary.ChangesShape: require only that the `- ` and `+ ` lines hold no newline. Those lines come from `splitlines()`, which removes every line break; the `? ` hint lines that `ndiff` emits for similar lines end in a newline, and the lemmas allow them.
- ReactionShift.CombinedChartData: the model keeps each persona's rating and reaction cells apart from each other and from the row's `iteration` field. The program writes `persona.name` and `` `${persona.name}Reaction` `` into the same object (dashboard/src/components/insights/reactation-shift.tsx:86 and :100-105), so a persona named "iteration" would overwrite the row's iteration before the sort at :110 reads it, and personas named "X" and "XReaction" would overwrite each other's cells. Those cases are not modelled.
- **Floating point.** Python and JavaScript numbers are exact Dafny `real`s, and so not every rounding effect is captured. The generator's ratings are whole numbers of tenths: `round(x, 1)` rounds halves up, where Python's `round` works on the binary value.
- Session.TurnsStop: the stop test `(rating - 1) / 3 >= target_rating` is evaluated on exact reals. In binary floating point a reply of 3.4 gives 0.7999999999999999, so with the target 0.8 the program asks for another turn where the model stops; a reply above 3.4 stops both.
- AgentSimulation.Simulation.Iterate: inherits the exact-real stop test of `Session.TurnsStop` (agent/simulation.py:462-465), so a reply of 3.4 ends the model's loop but not the program's.
- RootSimulation.Simulation.Iterate: inherits the same exact-real stop test (simulation.py:228-231).
- Synthetic.ReachesIff: the exact model reads `(3.4 - 1) / 3` as 0.8, where binary floating point gives just below it. In the generator this does not show: the successful branch's in-loop test only sees ratings up to about 3.1 (an initial rating of at most 2.5 and at most six steps of at most 0.1), and the forced final step stores `0.8 * 3 + 1`, slightly above 3.4, whose normalised value passes. The model stores that value as exactly 3.4.
- Strings.ParseFloat: accepts plain decimal notation only: optional sign, digits and one point. Python's `float` also takes exponents, `inf`, `nan` and underscores, and the model reads those as failures.
- Strings.Lower: lowercases ASCII letters only. Python's `lower` also maps other Unicode letters.
- Numeric.RoundFixed: rounds halves away from zero on the exact value. JavaScript's `toFixed` works on the binary value, so it can differ at apparent halves.
- **Infinity and NaN.** Where the source produces them, the model writes `None` instead:
  - QuickInsights.LeastPersuadable: with no personas the improvement stays `Infinity`;
  - QuickInsights.ConversionRate: with no personas the rate is `0 / 0`;
  - ConversionTrajectory.BarFacts: a final iteration of 0 makes `changePerIteration` infinite or NaN.
- **Dates.** `answer_time` is given as its millisecond value and its UTC day number; `new Date(...)` and `toISOString()` are not modelled.
- AreaChart.TallyCounts: a reaction other than "Positive", "Negative", "total" or "iteration" makes `undefined + 1` a NaN property of the row. The model does not keep such extra properties; it only proves that they leave the four counters alone.
- LineChart.PrepareChartData: the model keeps ratings apart from the row's `iteration` field. A persona named "iteration" would overwrite that field in the program, and that case is not modelled.
- ReactionShift.ShiftEntryFacts: the colour lookup covers the five names of `PERSONA_COLORS` and the fallback `#94a3b8`. Names inherited from `Object.prototype` (such as "constructor") would read a function, and the model does not cover them.
- RootSimulation.Simulation.constructor: requires a numeric stance. `Agent` stores any stance value as the rating (simulation.py:35), and a string stance would reach `(rating - 1) / 3` as a string; that case is not modelled. `main` passes the number 2 (simulation.py:290).
- Synthetic.GenerateSyntheticData: requires only that the shuffled order have seven entries, not that it be a permutation of the seven personas. `Synthetic.ShuffledCount` shows that a shuffle has seven entries.
- **The fixture.** The fixture's ids and prose fields (reason, editor changes, article) are not reproduced; every metric here reads only its numbers, names and reactions.
- **Real versus fake news.** `news-impact-analysis.tsx` splits records by `is_fake`, while `news-impact-chart.tsx` filters by `is_real`. Each file is modelled as written, so a record with both flags false counts as real in the first and as fake in the second.
- **Iteration offset.** The database row of `agent/simulation.py` logs `iteration + 1`, while its CSV fallback logs `iteration`. Both are modelled as written.
- Synthetic.FillTemplate: also stands for the identical placeholder loop of `generate_reasoning` (agent/generate_synthetic_data.py:165-179).
- **Not modelled at all:** rendering, tooltips, legends, colour legends and chart-library callbacks in the dashboard files. They are presentation only.
- **Context files.** The data modules that `pie-chart.tsx` imports (`mixedNewsPersonaData`, `fakeNewsPersonaData`, `realNewsPersonaData`) are not part of this model; `PieChart` takes the three datasets as parameters.
