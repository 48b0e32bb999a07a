/** What one simulation run computes, as functions of the model replies it receives: the
    user turns (each reply parsed against the rating before it, stopping after the first
    turn whose normalised rating reaches the target or after `maxIterations` turns), the
    article the user reads at each turn, and the memory triples both agents record.
    Both run loops (agent/simulation.py and simulation.py) are proved against these. */
module Session {
  import opened Wrappers
  import opened ReplyParsing
  import opened Numeric
  import opened Agents

  /** The article both simulations start from. */
  const InitialArticle: string := "Recent studies have shown that COVID-19 vaccines continue to provide strong protection against severe illness and hospitalization. The latest data from health authorities indicates that vaccinated individuals are significantly less likely to experience severe symptoms or require hospitalization compared to unvaccinated individuals. This protection is particularly important for older adults and those with underlying health conditions."

  /** The stopping test of the loop: `(rating - 1) / 3 >= target_rating`. */
  predicate Reached(target: real, r: UserReply)
  {
    Normalize(r.rating) >= target
  }

  /** The user's parsed reply at each iteration, given the rating before it, from the
      model's replies `userReplies(k)`. */
  function Parsed(userReplies: nat -> string): (nat, real) -> UserReply
  {
    (k: nat, rating: real) => ProcessUserResponse(userReplies(k), rating)
  }

  /** The user turns from iteration `i` on, with `rating` the user's rating before turn `i`
      and `parse(k, c)` the parsed reply at iteration `k` against rating `c`. */
  function Turns(i: nat, maxIterations: int, target: real, rating: real, parse: (nat, real) -> UserReply): seq<UserReply>
    decreases maxIterations - i
  {
    if i >= maxIterations then []
    else
      var r := parse(i, rating);
      if Reached(target, r) then [r]
      else [r] + Turns(i + 1, maxIterations, target, r.rating, parse)
  }

  /** After a turn that does not reach the target the run goes on from the next iteration. */
  lemma TurnsNext(maxIterations: int, target: real, parse: (nat, real) -> UserReply, h: seq<UserReply>, rating: real)
    requires |h| < maxIterations && !Reached(target, parse(|h|, rating))
    ensures var r := parse(|h|, rating);
      h + Turns(|h|, maxIterations, target, rating, parse)
        == (h + [r]) + Turns(|h| + 1, maxIterations, target, r.rating, parse)
  {
    var r := parse(|h|, rating);
    var t := Turns(|h| + 1, maxIterations, target, r.rating, parse);
    assert Turns(|h|, maxIterations, target, rating, parse) == [r] + t;
    assert h + ([r] + t) == (h + [r]) + t;
  }

  /** The user's rating after the turns `h`. */
  function RatingAfter(h: seq<UserReply>, initial: real): real
  {
    if h == [] then initial else h[|h| - 1].rating
  }

  /** The article the editor returns at each iteration, from its replies. */
  function Edits(editorReplies: nat -> string): nat -> string
  {
    (k: nat) => ProcessEditorResponse(editorReplies(k)).article
  }

  lemma EditsAt(editorReplies: nat -> string, k: nat)
    ensures Edits(editorReplies)(k) == ProcessEditorResponse(editorReplies(k)).article
  {
  }

  /** The article at the start of iteration `j`: the initial one, or the article the editor
      returned at iteration `j - 1` (`edits(j - 1)`). */
  function ArticleAt(j: nat, initial: string, edits: nat -> string): string
  {
    if j == 0 then initial else edits(j - 1)
  }

  /** The number of editor steps (and the final value of `iteration`): every turn but a
      final one that reached the target. */
  function EditorSteps(target: real, h: seq<UserReply>): nat
  {
    if h != [] && Reached(target, h[|h| - 1]) then |h| - 1 else |h|
  }

  /** The user's memory triples for the turns `h`: the article read, the reaction, the rating. */
  function UserMemory(h: seq<UserReply>, initial: string, edits: nat -> string): (m: seq<MemoryEntry>)
    ensures |m| == |h|
  {
    if h == [] then []
    else
      var j := |h| - 1;
      UserMemory(h[..j], initial, edits)
        + [MemoryEntry(ArticleAt(j, initial, edits), Some(h[j].reaction), Some(h[j].rating))]
  }

  /** The editor's memory triples for edits after the turns `h`: the edited article with the
      reaction and rating that prompted it. */
  function EditorMemory(h: seq<UserReply>, initial: string, edits: nat -> string): (m: seq<MemoryEntry>)
    ensures |m| == |h|
  {
    if h == [] then []
    else
      var j := |h| - 1;
      EditorMemory(h[..j], initial, edits)
        + [MemoryEntry(ArticleAt(j + 1, initial, edits), Some(h[j].reaction), Some(h[j].rating))]
  }

  /** A run takes at least one turn when it may take any, and never more than it may. */
  lemma {:induction false} TurnsLength(i: nat, maxIterations: int, target: real, rating: real, parse: (nat, real) -> UserReply)
    ensures i >= maxIterations ==> Turns(i, maxIterations, target, rating, parse) == []
    ensures i < maxIterations ==> 0 < |Turns(i, maxIterations, target, rating, parse)| <= maxIterations - i
    decreases maxIterations - i
  {
    if i < maxIterations {
      var r := parse(i, rating);
      if !Reached(target, r) {
        TurnsLength(i + 1, maxIterations, target, r.rating, parse);
      }
    }
  }

  /** Only the last turn may reach the target, and a run that stops before its limit stops
      because the last turn reached it. */
  lemma {:induction false} TurnsStop(i: nat, maxIterations: int, target: real, rating: real, parse: (nat, real) -> UserReply)
    ensures var h := Turns(i, maxIterations, target, rating, parse);
      forall j :: 0 <= j < |h| - 1 ==> !Reached(target, h[j])
    ensures var h := Turns(i, maxIterations, target, rating, parse);
      i + |h| < maxIterations ==> h != [] && Reached(target, h[|h| - 1])
    decreases maxIterations - i
  {
    if i < maxIterations {
      var r := parse(i, rating);
      if !Reached(target, r) {
        TurnsStop(i + 1, maxIterations, target, r.rating, parse);
        var t := Turns(i + 1, maxIterations, target, r.rating, parse);
        assert Turns(i, maxIterations, target, rating, parse) == [r] + t;
        TurnsLength(i + 1, maxIterations, target, r.rating, parse);
      }
    }
  }

  /** Each turn parses its own reply against the rating the previous turn left. */
  lemma TurnsChain(i: nat, maxIterations: int, target: real, rating: real, parse: (nat, real) -> UserReply)
    ensures var h := Turns(i, maxIterations, target, rating, parse);
      forall j :: 0 <= j < |h| ==> h[j] == parse(i + j, RatingAfter(h[..j], rating))
  {
    var h := Turns(i, maxIterations, target, rating, parse);
    forall j | 0 <= j < |h|
      ensures h[j] == parse(i + j, RatingAfter(h[..j], rating))
    {
      TurnAt(i, maxIterations, target, rating, parse, j);
    }
  }

  lemma {:induction false} TurnAt(i: nat, maxIterations: int, target: real, rating: real, parse: (nat, real) -> UserReply, j: nat)
    requires j < |Turns(i, maxIterations, target, rating, parse)|
    ensures var h := Turns(i, maxIterations, target, rating, parse);
      h[j] == parse(i + j, RatingAfter(h[..j], rating))
    decreases j
  {
    var h := Turns(i, maxIterations, target, rating, parse);
    var r := parse(i, rating);
    if j > 0 {
      var t := Turns(i + 1, maxIterations, target, r.rating, parse);
      assert h == [r] + t;
      TurnAt(i + 1, maxIterations, target, r.rating, parse, j - 1);
      assert h[j] == t[j - 1];
      if j > 1 {
        assert h[..j][j - 1] == t[..j - 1][j - 2];
      }
      assert RatingAfter(h[..j], rating) == RatingAfter(t[..j - 1], r.rating);
    }
  }

  /** A parsed rating is clamped to the 1..4 scale and an unparsable reply keeps the
      rating before it. */
  lemma ParsedInRange(userReplies: nat -> string, k: nat, rating: real)
    requires 1.0 <= rating <= 4.0
    ensures 1.0 <= Parsed(userReplies)(k, rating).rating <= 4.0
  {
    UserReplyRange(userReplies(k), rating);
    var r := ProcessUserResponse(userReplies(k), rating);
    assert Parsed(userReplies)(k, rating) == r;
  }

  /** Ratings stay on the 1..4 scale once they start there, for any reply parser that keeps them there. */
  lemma {:induction false} TurnsInRange(i: nat, maxIterations: int, target: real, rating: real, parse: (nat, real) -> UserReply)
    requires 1.0 <= rating <= 4.0
    requires forall k: nat, c: real :: 1.0 <= c <= 4.0 ==> 1.0 <= parse(k, c).rating <= 4.0
    ensures forall r :: r in Turns(i, maxIterations, target, rating, parse) ==> 1.0 <= r.rating <= 4.0
    decreases maxIterations - i
  {
    if i < maxIterations {
      var r := parse(i, rating);
      if !Reached(target, r) {
        TurnsInRange(i + 1, maxIterations, target, r.rating, parse);
      }
    }
  }

  /** A further turn adds one triple, for the article read at it. */
  lemma UserMemoryAppend(h: seq<UserReply>, r: UserReply, initial: string, edits: nat -> string)
    ensures UserMemory(h + [r], initial, edits)
      == UserMemory(h, initial, edits) + [MemoryEntry(ArticleAt(|h|, initial, edits), Some(r.reaction), Some(r.rating))]
  {
    assert (h + [r])[..|h|] == h;
  }

  /** A further edit adds one triple, for the article it produced. */
  lemma EditorMemoryAppend(h: seq<UserReply>, r: UserReply, initial: string, edits: nat -> string)
    ensures EditorMemory(h + [r], initial, edits)
      == EditorMemory(h, initial, edits) + [MemoryEntry(ArticleAt(|h| + 1, initial, edits), Some(r.reaction), Some(r.rating))]
  {
    assert (h + [r])[..|h|] == h;
  }

  /** One memory triple per turn, recording the article read at that turn. */
  lemma {:induction false} UserMemoryContents(h: seq<UserReply>, initial: string, edits: nat -> string)
    ensures forall j :: 0 <= j < |h| ==>
      UserMemory(h, initial, edits)[j] == MemoryEntry(ArticleAt(j, initial, edits), Some(h[j].reaction), Some(h[j].rating))
  {
    if h != [] {
      var k := |h| - 1;
      UserMemoryContents(h[..k], initial, edits);
    }
  }

  /** One memory triple per edit, recording the article the edit produced. */
  lemma {:induction false} EditorMemoryContents(h: seq<UserReply>, initial: string, edits: nat -> string)
    ensures forall j :: 0 <= j < |h| ==>
      EditorMemory(h, initial, edits)[j] == MemoryEntry(ArticleAt(j + 1, initial, edits), Some(h[j].reaction), Some(h[j].rating))
  {
    if h != [] {
      var k := |h| - 1;
      EditorMemoryContents(h[..k], initial, edits);
    }
  }

  /** The user reads at each turn the article the editor wrote after the turn before, and the
      two memories record the same reaction and rating for a turn. */
  lemma MemoriesAgree(h: seq<UserReply>, initial: string, edits: nat -> string, j: nat)
    requires j + 1 < |h|
    ensures UserMemory(h, initial, edits)[j + 1].article == EditorMemory(h, initial, edits)[j].article
    ensures UserMemory(h, initial, edits)[j].reaction == EditorMemory(h, initial, edits)[j].reaction
    ensures UserMemory(h, initial, edits)[j].rating == EditorMemory(h, initial, edits)[j].rating
  {
    UserMemoryContents(h, initial, edits);
    EditorMemoryContents(h, initial, edits);
  }

  /** The editor acts after every turn but a final one that reaches the target. */
  lemma EditorStepsRun(maxIterations: int, target: real, rating: real, parse: (nat, real) -> UserReply)
    ensures var h := Turns(0, maxIterations, target, rating, parse);
      EditorSteps(target, h) <= |h| <= EditorSteps(target, h) + 1
    ensures var h := Turns(0, maxIterations, target, rating, parse);
      (EditorSteps(target, h) == |h| <==> |h| == 0 || !Reached(target, h[|h| - 1]))
    ensures var h := Turns(0, maxIterations, target, rating, parse);
      EditorSteps(target, h) < |h| ==> Reached(target, h[|h| - 1])
  {
  }
}
