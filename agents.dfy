/** The simulation's `Agent`: a persona in the user or the editor role, its current
    rating, the history of its parsed replies and its append-only memory, of which the
    prompts show only a fixed window. */
module Agents {
  import opened Wrappers
  import opened ReplyParsing

  /** `initial_vaccine_stance` is either one of the descriptive labels or a number. */
  datatype Stance = Named(text: string) | Numeric(value: real)

  datatype Role = User | Editor

  datatype Persona = Persona(name: string, id: Option<int>, stance: Stance, articlesRead: seq<string>)

  /** One `(article, reaction, rating)` triple of an agent's memory. */
  datatype MemoryEntry = MemoryEntry(article: string, reaction: Option<string>, rating: Option<real>)

  /** The labels the constructor knows, with their ratings on the 1..4 scale. */
  const StanceTable: map<string, real> := map[
    "Strongly supportive" := 4.0,
    "Supportive but data-focused" := 3.5,
    "Hesitant" := 2.5,
    "Skeptical but open" := 2.0,
    "Strongly opposed" := 1.0
  ]

  /** The starting rating: a label goes through the table (2.5 when unknown), a number is used as is. */
  function StanceRating(s: Stance): (r: real)
    ensures s.Numeric? ==> r == s.value
    ensures s.Named? ==> 1.0 <= r <= 4.0
    ensures s.Named? && s.text !in StanceTable ==> r == 2.5
    ensures s.Named? && s.text in StanceTable ==> r == StanceTable[s.text]
  {
    match s
    case Named(t) => if t in StanceTable then StanceTable[t] else 2.5
    case Numeric(v) => v
  }

  /** The table orders the labels from most opposed to most supportive, and an unknown
      label reads as "Hesitant". */
  lemma StanceScale()
    ensures StanceRating(Named("Strongly opposed")) < StanceRating(Named("Skeptical but open"))
    ensures StanceRating(Named("Skeptical but open")) < StanceRating(Named("Hesitant"))
    ensures StanceRating(Named("Hesitant")) < StanceRating(Named("Supportive but data-focused"))
    ensures StanceRating(Named("Supportive but data-focused")) < StanceRating(Named("Strongly supportive"))
    ensures forall l :: l !in StanceTable ==> StanceRating(Named(l)) == StanceRating(Named("Hesitant"))
  {
  }

  /** Python's `s[-n:]`. */
  function LastN<T>(s: seq<T>, n: nat): (r: seq<T>)
    ensures |r| == if |s| < n then |s| else n
    ensures r == s[|s| - |r|..]
  {
    if |s| < n then s else s[|s| - n..]
  }

  /** Python's `s[:n]`. */
  function FirstN<T>(s: seq<T>, n: nat): (r: seq<T>)
    ensures |r| == if |s| < n then |s| else n
    ensures r == s[..|r|]
  {
    if |s| < n then s else s[..n]
  }

  /** Appending one entry shifts the window of the last `n` by one. */
  lemma LastNAppend<T>(s: seq<T>, e: T, n: nat)
    requires n > 0
    ensures LastN(s + [e], n) == LastN(s, n - 1) + [e]
  {
    var t := s + [e];
    assert t[|t| - |LastN(t, n)|..] == t[|t| - |LastN(t, n)|..|t| - 1] + [e];
    assert t[..|t| - 1] == s;
  }

  class Agent {
    const persona: Persona
    const role: Role
    const sessionId: string
    var currentRating: real
    var history: seq<UserReply>
    var memory: seq<MemoryEntry>
    var recommendationRating: Option<real>

    /** `Agent.__init__` of agent/simulation.py: the rating comes from the stance. */
    constructor (persona: Persona, role: Role, sessionId: string)
      ensures this.persona == persona && this.role == role && this.sessionId == sessionId
      ensures currentRating == StanceRating(persona.stance)
      ensures history == [] && memory == [] && recommendationRating == None
    {
      this.persona := persona;
      this.role := role;
      this.sessionId := sessionId;
      currentRating := StanceRating(persona.stance);
      history := [];
      memory := [];
      recommendationRating := None;
    }

    /** `Agent.__init__` of simulation.py: the stance is taken as the rating unchanged. */
    constructor WithRating(persona: Persona, role: Role, sessionId: string, rating: real)
      ensures this.persona == persona && this.role == role && this.sessionId == sessionId
      ensures currentRating == rating
      ensures history == [] && memory == [] && recommendationRating == None
    {
      this.persona := persona;
      this.role := role;
      this.sessionId := sessionId;
      currentRating := rating;
      history := [];
      memory := [];
      recommendationRating := None;
    }

    /** `add_to_memory`: one triple at the end, nothing else changes. */
    method AddToMemory(article: string, reaction: Option<string>, rating: Option<real>)
      modifies this
      ensures memory == old(memory) + [MemoryEntry(article, reaction, rating)]
      ensures currentRating == old(currentRating) && history == old(history)
      ensures recommendationRating == old(recommendationRating)
    {
      memory := memory + [MemoryEntry(article, reaction, rating)];
    }

    /** The interactions a prompt shows: `memory[-3:]`. */
    function MemoryWindow(): (r: seq<MemoryEntry>)
      reads this
      ensures |r| <= 3 && |r| == (if |memory| < 3 then |memory| else 3)
      ensures r == memory[|memory| - |r|..]
    {
      LastN(memory, 3)
    }

    /** The known articles a user prompt shows: `articles_read[:2]`. */
    function ArticlesWindow(): (r: seq<string>)
      ensures |r| <= 2 && |r| == (if |persona.articlesRead| < 2 then |persona.articlesRead| else 2)
      ensures r == persona.articlesRead[..|r|]
    {
      FirstN(persona.articlesRead, 2)
    }
  }

  /** After `add_to_memory` the prompt window holds the two newest earlier entries and the new one. */
  lemma WindowAfterAdd(before: seq<MemoryEntry>, e: MemoryEntry)
    ensures LastN(before + [e], 3) == LastN(before, 2) + [e]
  {
    LastNAppend(before, e, 3);
  }
}
