/** The `Simulation` of the top-level simulation.py: the same user/editor loop as the agent
    package's, without a database or a recommendation. Every user turn appends a row to a CSV
    file whose first row is a header, and after each edit the file is read back, the last
    cell of its last row (the editor's changes) is rewritten in place, and it is written out
    again. */
module RootSimulation {
  import opened Wrappers
  import opened ReplyParsing
  import opened Numeric
  import opened Agents
  import opened Session

  /** A CSV cell as written: the text cells, the iteration and the rating. */
  datatype Cell = Text(text: string) | Whole(n: int) | Number(r: real)

  type Row = seq<Cell>

  const Header: Row := [Text("session_id"), Text("iteration"), Text("persona_name"), Text("current_rating"),
                        Text("reaction"), Text("reasoning"), Text("article"), Text("editor_changes")]

  /** Every row, the header included, has one cell per column. */
  predicate WellFormed(rows: seq<Row>)
  {
    forall i :: 0 <= i < |rows| ==> |rows[i]| == |Header|
  }

  /** The row `_log_iteration` appends; `editor_changes` defaults to the empty string. */
  function LogRow(sessionId: string, personaName: string, iteration: int, r: UserReply, article: string,
                  changes: string): Row
  {
    [Text(sessionId), Whole(iteration), Text(personaName), Number(r.rating),
     Text(r.reaction), Text(r.reasoning), Text(article), Text(changes)]
  }

  /** A logged row fills every column: the iteration as given, the new rating, the article
      the user read, and the changes last. */
  lemma LogRowCells(sessionId: string, personaName: string, iteration: int, r: UserReply, article: string,
                    changes: string)
    ensures var row := LogRow(sessionId, personaName, iteration, r, article, changes);
      && |row| == |Header|
      && row[0] == Text(sessionId) && row[1] == Whole(iteration) && row[2] == Text(personaName)
      && row[3] == Number(r.rating) && row[4] == Text(r.reaction) && row[5] == Text(r.reasoning)
      && row[6] == Text(article) && row[|row| - 1] == Text(changes)
  {
  }

  /** `rows[-1][-1] = editor_changes`, done only when there is a row besides the header (the
      rows the simulation writes are never empty). */
  function WithLastCell(rows: seq<Row>, changes: string): (r: seq<Row>)
    ensures |r| == |rows|
  {
    if |rows| > 1 && rows[|rows| - 1] != [] then
      var n := |rows| - 1;
      rows[n := rows[n][|rows[n]| - 1 := Text(changes)]]
    else rows
  }

  /** The rewrite changes only the last cell of the last row, and nothing at all when the
      file holds only the header. */
  lemma LastCellOnly(rows: seq<Row>, changes: string)
    ensures |rows| <= 1 ==> WithLastCell(rows, changes) == rows
    ensures forall i :: 0 <= i < |rows| - 1 ==> WithLastCell(rows, changes)[i] == rows[i]
    ensures |rows| > 1 && rows[|rows| - 1] != [] ==>
      var r := WithLastCell(rows, changes);
      var n := |rows| - 1;
      var k := |rows[n]| - 1;
      |r[n]| == |rows[n]| && r[n][..k] == rows[n][..k] && r[n][k] == Text(changes)
  {
  }

  /** The edited article and the changes summary the editor returns at iteration `k`. */
  function Summaries(editorReplies: nat -> string): nat -> string
  {
    (k: nat) => ProcessEditorResponse(editorReplies(k)).changesSummary
  }

  /** The rows logged for the turns `h`: the turn at iteration `j` read `ArticleAt(j)`, and
      carries the summary of the edit after it when one followed (`j < edited`). */
  function TurnRows(sessionId: string, personaName: string, h: seq<UserReply>, initial: string,
                    edits: nat -> string, summaries: nat -> string, edited: nat): (rows: seq<Row>)
    ensures |rows| == |h|
  {
    if h == [] then []
    else
      var j := |h| - 1;
      TurnRows(sessionId, personaName, h[..j], initial, edits, summaries, edited)
        + [LogRow(sessionId, personaName, j, h[j], ArticleAt(j, initial, edits),
                  if j < edited then summaries(j) else "")]
  }

  /** Row `j` records turn `j`, the article it read, and the summary of the edit after it, if any. */
  lemma {:induction false} TurnRowsContents(sessionId: string, personaName: string, h: seq<UserReply>,
                                            initial: string, edits: nat -> string, summaries: nat -> string,
                                            edited: nat)
    ensures forall j :: 0 <= j < |h| ==>
      TurnRows(sessionId, personaName, h, initial, edits, summaries, edited)[j]
        == LogRow(sessionId, personaName, j, h[j], ArticleAt(j, initial, edits),
                  if j < edited then summaries(j) else "")
  {
    if h != [] {
      TurnRowsContents(sessionId, personaName, h[..|h| - 1], initial, edits, summaries, edited);
    }
  }

  /** Only whether each turn was edited matters. */
  lemma {:induction false} TurnRowsEdited(sessionId: string, personaName: string, h: seq<UserReply>,
                                          initial: string, edits: nat -> string, summaries: nat -> string,
                                          edited: nat, edited': nat)
    requires |h| <= edited && |h| <= edited'
    ensures TurnRows(sessionId, personaName, h, initial, edits, summaries, edited)
      == TurnRows(sessionId, personaName, h, initial, edits, summaries, edited')
  {
    if h != [] {
      TurnRowsEdited(sessionId, personaName, h[..|h| - 1], initial, edits, summaries, edited, edited');
    }
  }

  /** What a run changes: the user's rating, history and memory, the editor's memory, the
      current article and the rows of the CSV file. */
  datatype RunState = RunState(rating: real, history: seq<UserReply>, userMemory: seq<MemoryEntry>,
                               editorMemory: seq<MemoryEntry>, article: string, rows: seq<Row>)

  /** The user half of iteration `i` with parsed reply `r`: its row has no changes yet. */
  function AfterUser(sessionId: string, personaName: string, st: RunState, i: nat, r: UserReply): RunState
  {
    st.(rating := r.rating, history := st.history + [r],
        userMemory := st.userMemory + [MemoryEntry(st.article, Some(r.reaction), Some(r.rating))],
        rows := st.rows + [LogRow(sessionId, personaName, i, r, st.article, "")])
  }

  /** The editor half of iteration `i`: the new article, the rewritten last cell, the memory entry. */
  function AfterEditor(st: RunState, i: nat, r: UserReply, edits: nat -> string, summaries: nat -> string): RunState
  {
    st.(article := edits(i), rows := WithLastCell(st.rows, summaries(i)),
        editorMemory := st.editorMemory + [MemoryEntry(edits(i), Some(r.reaction), Some(r.rating))])
  }

  /** The `while` loop of `run` from iteration `i` in state `st`. */
  function Loop(sessionId: string, personaName: string, i: nat, maxIterations: int, target: real,
                parse: (nat, real) -> UserReply, edits: nat -> string, summaries: nat -> string,
                st: RunState): RunState
    decreases maxIterations - i
  {
    if i >= maxIterations then st
    else
      var r := parse(i, st.rating);
      var st' := AfterUser(sessionId, personaName, st, i, r);
      if Reached(target, r) then st'
      else Loop(sessionId, personaName, i + 1, maxIterations, target, parse, edits, summaries,
                AfterEditor(st', i, r, edits, summaries))
  }

  /** The state after the turns `h` (none reaching the target, each followed by an edit) from
      `st0`, whose rows hold at least the header. */
  predicate After(sessionId: string, personaName: string, st0: RunState, h: seq<UserReply>,
                  edits: nat -> string, summaries: nat -> string, st: RunState)
  {
    && |st0.rows| >= 1
    && st.rating == RatingAfter(h, st0.rating)
    && st.history == st0.history + h
    && st.userMemory == st0.userMemory + UserMemory(h, st0.article, edits)
    && st.editorMemory == st0.editorMemory + EditorMemory(h, st0.article, edits)
    && st.article == ArticleAt(|h|, st0.article, edits)
    && st.rows == st0.rows + TurnRows(sessionId, personaName, h, st0.article, edits, summaries, |h|)
  }

  /** The state after a run whose turns are `t`, from `st0`. */
  predicate Outcome(sessionId: string, personaName: string, st0: RunState, t: seq<UserReply>, target: real,
                    edits: nat -> string, summaries: nat -> string, st: RunState)
  {
    var n := EditorSteps(target, t);
    && n <= |t|
    && st.rating == RatingAfter(t, st0.rating)
    && st.history == st0.history + t
    && st.userMemory == st0.userMemory + UserMemory(t, st0.article, edits)
    && st.editorMemory == st0.editorMemory + EditorMemory(t[..n], st0.article, edits)
    && st.article == ArticleAt(n, st0.article, edits)
    && st.rows == st0.rows + TurnRows(sessionId, personaName, t, st0.article, edits, summaries, n)
  }

  /** The loop from iteration `|h|`, after the turns `h`, takes the remaining turns of `Turns`. */
  lemma {:induction false} LoopFrom(sessionId: string, personaName: string, maxIterations: int, target: real,
                                    parse: (nat, real) -> UserReply, edits: nat -> string, summaries: nat -> string,
                                    st0: RunState, h: seq<UserReply>, st: RunState)
    requires After(sessionId, personaName, st0, h, edits, summaries, st)
    requires forall j :: 0 <= j < |h| ==> !Reached(target, h[j])
    ensures Outcome(sessionId, personaName, st0, h + Turns(|h|, maxIterations, target, st.rating, parse), target,
                    edits, summaries, Loop(sessionId, personaName, |h|, maxIterations, target, parse, edits, summaries, st))
    decreases maxIterations - |h|
  {
    var i := |h|;
    if i >= maxIterations {
      OutcomeDone(sessionId, personaName, st0, h, target, edits, summaries, st);
      LoopDone(sessionId, personaName, maxIterations, target, parse, edits, summaries, st0, h, st);
    } else {
      var r := parse(i, st.rating);
      if Reached(target, r) {
        OutcomeStop(sessionId, personaName, st0, h, r, target, edits, summaries, st);
        LoopStop(sessionId, personaName, maxIterations, target, parse, edits, summaries, st0, h, st);
      } else {
        var st' := AfterEditor(AfterUser(sessionId, personaName, st, i, r), i, r, edits, summaries);
        AfterStep(sessionId, personaName, st0, h, r, edits, summaries, st);
        LoopFrom(sessionId, personaName, maxIterations, target, parse, edits, summaries, st0, h + [r], st');
        LoopNext(sessionId, personaName, maxIterations, target, parse, edits, summaries, st0, h, st);
      }
    }
  }

  /** At the limit the loop takes no further turn. */
  lemma LoopDone(sessionId: string, personaName: string, maxIterations: int, target: real,
                 parse: (nat, real) -> UserReply, edits: nat -> string, summaries: nat -> string,
                 st0: RunState, h: seq<UserReply>, st: RunState)
    requires |h| >= maxIterations
    requires Outcome(sessionId, personaName, st0, h, target, edits, summaries, st)
    ensures Outcome(sessionId, personaName, st0, h + Turns(|h|, maxIterations, target, st.rating, parse), target,
                    edits, summaries, Loop(sessionId, personaName, |h|, maxIterations, target, parse, edits, summaries, st))
  {
    assert h + Turns(|h|, maxIterations, target, st.rating, parse) == h;
  }

  /** A turn that reaches the target is the last one. */
  lemma LoopStop(sessionId: string, personaName: string, maxIterations: int, target: real,
                 parse: (nat, real) -> UserReply, edits: nat -> string, summaries: nat -> string,
                 st0: RunState, h: seq<UserReply>, st: RunState)
    requires |h| < maxIterations && Reached(target, parse(|h|, st.rating))
    requires var r := parse(|h|, st.rating);
      Outcome(sessionId, personaName, st0, h + [r], target, edits, summaries, AfterUser(sessionId, personaName, st, |h|, r))
    ensures Outcome(sessionId, personaName, st0, h + Turns(|h|, maxIterations, target, st.rating, parse), target,
                    edits, summaries, Loop(sessionId, personaName, |h|, maxIterations, target, parse, edits, summaries, st))
  {
    assert h + Turns(|h|, maxIterations, target, st.rating, parse) == h + [parse(|h|, st.rating)];
  }

  /** A turn that does not reach the target is followed by an edit and the rest of the loop. */
  lemma LoopNext(sessionId: string, personaName: string, maxIterations: int, target: real,
                 parse: (nat, real) -> UserReply, edits: nat -> string, summaries: nat -> string,
                 st0: RunState, h: seq<UserReply>, st: RunState)
    requires |h| < maxIterations && !Reached(target, parse(|h|, st.rating))
    requires var i := |h|;
      var r := parse(i, st.rating);
      var st' := AfterEditor(AfterUser(sessionId, personaName, st, i, r), i, r, edits, summaries);
      Outcome(sessionId, personaName, st0, (h + [r]) + Turns(|h + [r]|, maxIterations, target, st'.rating, parse), target,
              edits, summaries, Loop(sessionId, personaName, |h + [r]|, maxIterations, target, parse, edits, summaries, st'))
    ensures Outcome(sessionId, personaName, st0, h + Turns(|h|, maxIterations, target, st.rating, parse), target,
                    edits, summaries, Loop(sessionId, personaName, |h|, maxIterations, target, parse, edits, summaries, st))
  {
    var i := |h|;
    var r := parse(i, st.rating);
    var st' := AfterEditor(AfterUser(sessionId, personaName, st, i, r), i, r, edits, summaries);
    assert |h + [r]| == i + 1 && st'.rating == r.rating;
    TurnsNext(maxIterations, target, parse, h, st.rating);
    LoopUnfold(sessionId, personaName, maxIterations, target, parse, edits, summaries, i, st);
  }

  lemma LoopUnfold(sessionId: string, personaName: string, maxIterations: int, target: real,
                   parse: (nat, real) -> UserReply, edits: nat -> string, summaries: nat -> string,
                   i: nat, st: RunState)
    requires i < maxIterations && !Reached(target, parse(i, st.rating))
    ensures var r := parse(i, st.rating);
      Loop(sessionId, personaName, i, maxIterations, target, parse, edits, summaries, st)
        == Loop(sessionId, personaName, i + 1, maxIterations, target, parse, edits, summaries,
                AfterEditor(AfterUser(sessionId, personaName, st, i, r), i, r, edits, summaries))
  {
  }

  /** The loop ends at the limit: every turn was followed by an edit. */
  lemma OutcomeDone(sessionId: string, personaName: string, st0: RunState, h: seq<UserReply>, target: real,
                    edits: nat -> string, summaries: nat -> string, st: RunState)
    requires After(sessionId, personaName, st0, h, edits, summaries, st)
    requires forall j :: 0 <= j < |h| ==> !Reached(target, h[j])
    ensures Outcome(sessionId, personaName, st0, h, target, edits, summaries, st)
  {
    assert h[..|h|] == h;
  }

  /** The loop ends on a turn that reached the target: its row keeps empty changes. */
  lemma OutcomeStop(sessionId: string, personaName: string, st0: RunState, h: seq<UserReply>, r: UserReply,
                    target: real, edits: nat -> string, summaries: nat -> string, st: RunState)
    requires After(sessionId, personaName, st0, h, edits, summaries, st)
    requires Reached(target, r)
    ensures Outcome(sessionId, personaName, st0, h + [r], target, edits, summaries,
                    AfterUser(sessionId, personaName, st, |h|, r))
  {
    UserMemoryAppend(h, r, st0.article, edits);
    assert (h + [r])[..|h|] == h;
  }

  /** A turn that did not reach the target, and the edit after it, extend the state by one turn. */
  lemma AfterStep(sessionId: string, personaName: string, st0: RunState, h: seq<UserReply>, r: UserReply,
                  edits: nat -> string, summaries: nat -> string, st: RunState)
    requires After(sessionId, personaName, st0, h, edits, summaries, st)
    ensures After(sessionId, personaName, st0, h + [r], edits, summaries,
                  AfterEditor(AfterUser(sessionId, personaName, st, |h|, r), |h|, r, edits, summaries))
  {
    var i := |h|;
    UserMemoryAppend(h, r, st0.article, edits);
    EditorMemoryAppend(h, r, st0.article, edits);
    var before := st0.rows + TurnRows(sessionId, personaName, h, st0.article, edits, summaries, i);
    var row := LogRow(sessionId, personaName, i, r, st.article, "");
    var row' := LogRow(sessionId, personaName, i, r, st.article, summaries(i));
    assert WithLastCell(before + [row], summaries(i)) == before + [row'] by {
      var w := WithLastCell(before + [row], summaries(i));
      assert w[|before|] == row';
    }
    TurnRowsEdited(sessionId, personaName, h, st0.article, edits, summaries, i, i + 1);
    assert (h + [r])[..i] == h;
  }

  class Simulation {
    const userAgent: Agent
    const editorAgent: Agent
    const maxIterations: int
    const targetRating: real
    var currentArticle: string
    /** The contents of the output CSV file, header first. */
    var rows: seq<Row>

    predicate Valid()
      reads this
    {
      userAgent != editorAgent && WellFormed(rows) && |rows| >= 1
    }

    /** The fields a run changes. */
    function State(): RunState
      reads this, userAgent, editorAgent
    {
      RunState(userAgent.currentRating, userAgent.history, userAgent.memory, editorAgent.memory,
               currentArticle, rows)
    }

    /** `Simulation.__init__` and `_initialize_csv`: both agents take the numeric stance as
        their rating, and the file holds only the header. */
    constructor (persona: Persona, maxIterations: int, targetRating: real, userSession: string, editorSession: string)
      requires persona.stance.Numeric?
      ensures Valid() && fresh(userAgent) && fresh(editorAgent)
      ensures userAgent.persona == persona && userAgent.role == User && userAgent.sessionId == userSession
      ensures editorAgent.persona == persona && editorAgent.role == Editor && editorAgent.sessionId == editorSession
      ensures userAgent.currentRating == persona.stance.value
      ensures userAgent.history == [] && userAgent.memory == [] && editorAgent.memory == []
      ensures this.maxIterations == maxIterations && this.targetRating == targetRating
      ensures currentArticle == InitialArticle && rows == [Header]
    {
      userAgent := new Agent.WithRating(persona, User, userSession, persona.stance.value);
      editorAgent := new Agent.WithRating(persona, Editor, editorSession, persona.stance.value);
      this.maxIterations := maxIterations;
      this.targetRating := targetRating;
      currentArticle := InitialArticle;
      rows := [Header];
    }

    /** `_log_iteration`: one row at the end of the file. */
    method LogIteration(iteration: int, reply: UserReply)
      requires Valid()
      modifies this
      ensures Valid()
      ensures rows == old(rows) + [LogRow(userAgent.sessionId, userAgent.persona.name, iteration, reply, currentArticle, "")]
      ensures currentArticle == old(currentArticle)
    {
      rows := rows + [LogRow(userAgent.sessionId, userAgent.persona.name, iteration, reply, currentArticle, "")];
    }

    /** Read the file back, set the last cell of the last row, write it out again. */
    method RewriteLastCell(changes: string)
      requires Valid()
      modifies this
      ensures Valid()
      ensures rows == WithLastCell(old(rows), changes)
      ensures currentArticle == old(currentArticle)
    {
      var contents := rows;
      if |contents| > 1 {
        var last := contents[|contents| - 1];
        last := last[|last| - 1 := Text(changes)];
        contents := contents[|contents| - 1 := last];
        rows := contents;
      }
    }

    /** The user half of an iteration. */
    method UserTurn(parse: (nat, real) -> UserReply, iteration: nat) returns (reply: UserReply)
      requires Valid()
      modifies this, userAgent
      ensures Valid()
      ensures reply == parse(iteration, old(userAgent.currentRating))
      ensures State() == AfterUser(userAgent.sessionId, userAgent.persona.name, old(State()), iteration, reply)
    {
      reply := parse(iteration, userAgent.currentRating);
      userAgent.currentRating := reply.rating;
      userAgent.history := userAgent.history + [reply];
      userAgent.AddToMemory(currentArticle, Some(reply.reaction), Some(reply.rating));
      LogIteration(iteration, reply);
    }

    /** The editor half of an iteration: the new article, the changes written into the last
        row, and the editor's memory entry for the new article. */
    method EditorTurn(edits: nat -> string, summaries: nat -> string, iteration: nat, reply: UserReply)
      requires Valid()
      modifies this, editorAgent
      ensures Valid()
      ensures State() == AfterEditor(old(State()), iteration, reply, edits, summaries)
    {
      currentArticle := edits(iteration);
      RewriteLastCell(summaries(iteration));
      editorAgent.AddToMemory(currentArticle, Some(reply.reaction), Some(reply.rating));
    }

    /** The `while` loop of `run`. */
    method Iterate(parse: (nat, real) -> UserReply, edits: nat -> string, summaries: nat -> string)
      requires Valid()
      modifies this, userAgent, editorAgent
      ensures Valid()
      ensures State() == Loop(userAgent.sessionId, userAgent.persona.name, 0, maxIterations, targetRating,
                              parse, edits, summaries, old(State()))
    {
      ghost var result := Loop(userAgent.sessionId, userAgent.persona.name, 0, maxIterations, targetRating,
                               parse, edits, summaries, State());
      var iteration: nat := 0;
      while iteration < maxIterations
        invariant Valid()
        invariant result == Loop(userAgent.sessionId, userAgent.persona.name, iteration, maxIterations, targetRating,
                                 parse, edits, summaries, State())
      {
        var reply := UserTurn(parse, iteration);
        if Normalize(reply.rating) >= targetRating {
          break;
        }
        EditorTurn(edits, summaries, iteration, reply);
        iteration := iteration + 1;
      }
    }

    /** `run`: `userReplies(k)` and `editorReplies(k)` are the model's replies at iteration
        `k`; the result is the user's history. */
    method Run(userReplies: nat -> string, editorReplies: nat -> string) returns (history: seq<UserReply>)
      requires Valid()
      modifies this, userAgent, editorAgent
      ensures Valid()
      ensures var h := Turns(0, maxIterations, targetRating, old(userAgent.currentRating), Parsed(userReplies));
        var n := EditorSteps(targetRating, h);
        && history == userAgent.history == old(userAgent.history) + h
        && userAgent.currentRating == RatingAfter(h, old(userAgent.currentRating))
        && userAgent.memory == old(userAgent.memory) + UserMemory(h, old(currentArticle), Edits(editorReplies))
        && editorAgent.memory == old(editorAgent.memory) + EditorMemory(h[..n], old(currentArticle), Edits(editorReplies))
        && currentArticle == ArticleAt(n, old(currentArticle), Edits(editorReplies))
        && rows == old(rows) + TurnRows(userAgent.sessionId, userAgent.persona.name, h, old(currentArticle),
                                        Edits(editorReplies), Summaries(editorReplies), n)
    {
      ghost var st0 := State();
      Iterate(Parsed(userReplies), Edits(editorReplies), Summaries(editorReplies));
      assert After(userAgent.sessionId, userAgent.persona.name, st0, [], Edits(editorReplies),
                   Summaries(editorReplies), st0) by {
        assert st0.history + [] == st0.history;
        assert st0.userMemory + [] == st0.userMemory;
        assert st0.editorMemory + [] == st0.editorMemory;
        assert st0.rows + [] == st0.rows;
      }
      LoopFrom(userAgent.sessionId, userAgent.persona.name, maxIterations, targetRating, Parsed(userReplies),
               Edits(editorReplies), Summaries(editorReplies), st0, [], st0);
      ghost var t := Turns(0, maxIterations, targetRating, st0.rating, Parsed(userReplies));
      assert [] + t == t;
      history := userAgent.history;
    }
  }
}
