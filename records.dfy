/** The dashboard's response record (`PersonaData`), the mock data set, and its two
    queries `getPersonaData` and `getAvailablePersonas`. */
module Records {
  import opened Seqs

  /** One logged response: the fields of a CSV row of the simulation. */
  datatype PersonaData = PersonaData(
    id: string, personaId: int, personaName: string, iteration: int,
    currentRating: real, normalizedCurrentRating: real,
    recommendedRating: real, normalizedRecommendedRating: real,
    reaction: string, reason: string, editorChanges: string, article: string,
    isFake: bool, isReal: bool)

  const Positive := "Positive"
  const Negative := "Negative"

  function Names(data: seq<PersonaData>): (r: seq<string>)
    ensures |r| == |data|
    ensures forall i :: 0 <= i < |data| ==> r[i] == data[i].personaName
  {
    Map(data, (x: PersonaData) => x.personaName)
  }

  predicate Named(name: string, x: PersonaData)
  {
    x.personaName == name
  }

  /** `getPersonaData(name)`: `data.filter(item => item.persona_name === name)`. */
  function GetPersonaData(data: seq<PersonaData>, name: string): seq<PersonaData>
  {
    Filter(data, (x: PersonaData) => Named(name, x))
  }

  /** The records returned are exactly those carrying `name`, every copy of each, in
      their original order. */
  lemma GetPersonaDataExact(data: seq<PersonaData>, name: string)
    ensures forall x :: x in GetPersonaData(data, name) <==> x in data && x.personaName == name
    ensures forall x ::
      multiset(GetPersonaData(data, name))[x] == if x.personaName == name then multiset(data)[x] else 0
    ensures Subsequence(GetPersonaData(data, name), data)
  {
    var p := (x: PersonaData) => Named(name, x);
    forall x
      ensures multiset(GetPersonaData(data, name))[x] == if x.personaName == name then multiset(data)[x] else 0
    {
      FilterMultiset(data, p, x);
    }
    forall x | x in data && x.personaName == name
      ensures x in GetPersonaData(data, name)
    {
      FilterMultiset(data, p, x);
      assert x in multiset(data);
    }
    FilterSubsequence(data, p);
  }

  /** A name no record carries selects nothing. */
  lemma GetPersonaDataUnknown(data: seq<PersonaData>, name: string)
    requires name !in Names(data)
    ensures GetPersonaData(data, name) == []
  {
    forall x | x in data
      ensures !Named(name, x)
    {
      var i :| 0 <= i < |data| && data[i] == x;
      assert Names(data)[i] == x.personaName;
    }
    FilterNone(data, (x: PersonaData) => Named(name, x));
  }

  /** `getAvailablePersonas`: each record's name is added to a `Set` in turn, which is
      then read out in insertion order. */
  method GetAvailablePersonas(data: seq<PersonaData>) returns (names: seq<string>)
    ensures names == Dedup(Names(data))
  {
    names := [];
    var seen: set<string> := {};
    for i := 0 to |data|
      invariant names == Dedup(Names(data[..i]))
      invariant forall n :: n in seen <==> n in names
    {
      var name := data[i].personaName;
      assert Names(data[..i + 1]) == Names(data[..i]) + [name];
      if name !in seen {
        names := names + [name];
        seen := seen + {name};
      }
    }
    assert data[..|data|] == data;
  }

  /** The available names are distinct, are exactly the names some record carries, and
      come in order of first occurrence. */
  lemma AvailablePersonasFacts(data: seq<PersonaData>)
    ensures NoDup(Dedup(Names(data)))
    ensures forall n :: n in Dedup(Names(data)) <==> exists i :: 0 <= i < |data| && data[i].personaName == n
    ensures forall i, j :: 0 <= i < j < |Dedup(Names(data))| ==>
      IndexOf(Names(data), Dedup(Names(data))[i]) < IndexOf(Names(data), Dedup(Names(data))[j])
  {
    DedupNoDup(Names(data));
    DedupMembers(Names(data));
    DedupOrder(Names(data));
    forall n | n in Names(data)
      ensures exists i :: 0 <= i < |data| && data[i].personaName == n
    {
      var i :| 0 <= i < |data| && Names(data)[i] == n;
    }
    forall n | exists i :: 0 <= i < |data| && data[i].personaName == n
      ensures n in Names(data)
    {
      var i :| 0 <= i < |data| && data[i].personaName == n;
      assert Names(data)[i] == n;
    }
  }
  /** A persona that occurs in the data has records. */
  lemma OwnRecords(data: seq<PersonaData>, name: string)
    requires name in Names(data)
    ensures |GetPersonaData(data, name)| > 0
  {
    GetPersonaDataExact(data, name);
    var i := IndexOf(Names(data), name);
    assert data[i] in GetPersonaData(data, name);
  }

  // ---------------------------------------------------------------------------
  // The mock data set

  /** The numeric part of a mock record and whether its reaction is "Positive". */
  datatype Reading = Reading(rating: real, normalized: real, recommended: real,
    normalizedRecommended: real, positive: bool)

  /** One persona's consecutive mock records, iterations 1, 2, ... in order. The id and
      the prose fields (reason, editor changes, article) are not reproduced, and every
      mock record is real news. */
  function Block(personaId: int, name: string, readings: seq<Reading>): seq<PersonaData>
  {
    seq(|readings|, i requires 0 <= i < |readings| =>
      var g := readings[i];
      PersonaData("", personaId, name, i + 1, g.rating, g.normalized, g.recommended,
        g.normalizedRecommended, if g.positive then Positive else Negative, "", "", "", false, true))
  }

  function BrianReadings(): seq<Reading>
  {
    [Reading(1.0, 0.0, 1.5, 0.166667, false),
     Reading(1.2, 0.066667, 1.7, 0.233333, false),
     Reading(1.4, 0.133333, 1.8, 0.266667, false),
     Reading(1.6, 0.2, 2.0, 0.333333, false),
     Reading(1.8, 0.266667, 2.2, 0.4, false),
     Reading(2.0, 0.333333, 2.4, 0.466667, false),
     Reading(2.2, 0.4, 2.6, 0.533333, false),
     Reading(2.3, 0.433333, 2.8, 0.6, false),
     Reading(2.5, 0.5, 3.0, 0.666667, false)]
  }

  function SarahReadings(): seq<Reading>
  {
    [Reading(3.2, 0.733333, 3.5, 0.833333, true),
     Reading(3.5, 0.833333, 3.8, 0.933333, true),
     Reading(3.8, 0.933333, 4.0, 1.0, true)]
  }

  function MichaelReadings(): seq<Reading>
  {
    [Reading(2.0, 0.333333, 2.0, 0.333333, false),
     Reading(2.5, 0.5, 2.4, 0.466667, false),
     Reading(2.8, 0.6, 2.9, 0.633333, true),
     Reading(3.0, 0.666667, 3.2, 0.733333, true),
     Reading(3.3, 0.766667, 3.5, 0.833333, true)]
  }

  function LindaReadings(): seq<Reading>
  {
    [Reading(1.5, 0.166667, 1.0, 0.0, false),
     Reading(1.6, 0.2, 1.2, 0.066667, false),
     Reading(1.8, 0.266667, 1.5, 0.166667, false),
     Reading(2.0, 0.333333, 1.8, 0.266667, false),
     Reading(2.2, 0.4, 2.0, 0.333333, false)]
  }

  function DavidReadings(): seq<Reading>
  {
    [Reading(2.5, 0.5, 2.0, 0.333333, false),
     Reading(2.8, 0.6, 2.5, 0.5, true),
     Reading(3.2, 0.733333, 3.0, 0.666667, true)]
  }

  /** Persona blocks one after another; block `k` has persona id `ids[k]`, name
      `names[k]` and readings `readings[k]`. */
  function Blocks(ids: seq<int>, names: seq<string>, readings: seq<seq<Reading>>): seq<PersonaData>
    requires |ids| == |names| == |readings|
  {
    if |ids| == 0 then []
    else
      var k := |ids| - 1;
      Blocks(ids[..k], names[..k], readings[..k]) + Block(ids[k], names[k], readings[k])
  }

  function MockNameList(): seq<string>
  {
    ["Brian", "Sarah", "Michael", "Linda", "David"]
  }

  /** `mockData`: the five personas' sessions, one after another, in file order. */
  function MockData(): seq<PersonaData>
  {
    Blocks([1, 2, 3, 4, 5], MockNameList(), MockReadingList())
  }

  function MockReadingList(): seq<seq<Reading>>
  {
    [BrianReadings(), SarahReadings(), MichaelReadings(), LindaReadings(), DavidReadings()]
  }

  lemma NamesAppend(a: seq<PersonaData>, b: seq<PersonaData>)
    ensures Names(a + b) == Names(a) + Names(b)
  {
  }

  /** Non-empty blocks with distinct names list those names, in block order. */
  lemma {:induction false} BlocksNames(ids: seq<int>, names: seq<string>, readings: seq<seq<Reading>>)
    requires |ids| == |names| == |readings| && NoDup(names)
    requires forall k :: 0 <= k < |readings| ==> |readings[k]| > 0
    ensures Dedup(Names(Blocks(ids, names, readings))) == names
  {
    if |ids| > 0 {
      var k := |ids| - 1;
      var front := Blocks(ids[..k], names[..k], readings[..k]);
      var block := Block(ids[k], names[k], readings[k]);
      assert Blocks(ids, names, readings) == front + block;
      BlocksNames(ids[..k], names[..k], readings[..k]);
      NamesAppend(front, block);
      DedupAppendRun(Names(front), Names(block), names[k]);
      assert names[k] !in Dedup(Names(front));
      assert Dedup(Names(front)) + [names[k]] == names;
    } else {
      assert Names([]) == [];
    }
  }

  /** A block's records for name `n`: all of it when `n` is its name, none otherwise. */
  lemma BlockSelect(personaId: int, name: string, readings: seq<Reading>, n: string)
    ensures GetPersonaData(Block(personaId, name, readings), n)
      == if n == name then Block(personaId, name, readings) else []
  {
    var p := (x: PersonaData) => Named(n, x);
    if n == name {
      FilterAll(Block(personaId, name, readings), p);
    } else {
      FilterNone(Block(personaId, name, readings), p);
    }
  }

  lemma SelectAppend(a: seq<PersonaData>, b: seq<PersonaData>, n: string)
    ensures GetPersonaData(a + b, n) == GetPersonaData(a, n) + GetPersonaData(b, n)
  {
    FilterAppend(a, b, (x: PersonaData) => Named(n, x));
  }

  /** With distinct names, a name's records are exactly its own block. */
  lemma {:induction false} BlocksSelect(ids: seq<int>, names: seq<string>, readings: seq<seq<Reading>>, n: string)
    requires |ids| == |names| == |readings| && NoDup(names)
    ensures var k := IndexOf(names, n);
      GetPersonaData(Blocks(ids, names, readings), n) == if k < 0 then [] else Block(ids[k], n, readings[k])
  {
    if |ids| > 0 {
      var k := |ids| - 1;
      var front := Blocks(ids[..k], names[..k], readings[..k]);
      var block := Block(ids[k], names[k], readings[k]);
      assert Blocks(ids, names, readings) == front + block;
      assert NoDup(names[..k]);
      BlocksSelect(ids[..k], names[..k], readings[..k], n);
      SelectAppend(front, block, n);
      BlockSelect(ids[k], names[k], readings[k], n);
      if n in names[..k] {
        IndexOfPrefix(names[..k], names, n);
        var j := IndexOf(names[..k], n);
        assert names[..k][j] == names[j];
        assert n != names[k];
        assert ids[..k][j] == ids[j] && readings[..k][j] == readings[j];
      } else if n == names[k] {
        assert IndexOf(names[..k], n) < 0;
        assert IndexOf(names, n) == k;
      } else {
        assert n !in names;
      }
    }
  }

  /** Every record of the blocks is real news, none fake. */
  lemma {:induction false} BlocksAllReal(ids: seq<int>, names: seq<string>, readings: seq<seq<Reading>>)
    requires |ids| == |names| == |readings|
    ensures forall x :: x in Blocks(ids, names, readings) ==> !x.isFake && x.isReal
  {
    if |ids| > 0 {
      var k := |ids| - 1;
      BlocksAllReal(ids[..k], names[..k], readings[..k]);
    }
  }

  /** The names come out as Brian, Sarah, Michael, Linda, David. */
  lemma MockNames()
    ensures Dedup(Names(MockData())) == ["Brian", "Sarah", "Michael", "Linda", "David"]
  {
    BlocksNames([1, 2, 3, 4, 5], MockNameList(), MockReadingList());
  }

  /** Every mock record is real news, none fake. */
  lemma MockAllReal()
    ensures forall x :: x in MockData() ==> !x.isFake && x.isReal
  {
    BlocksAllReal([1, 2, 3, 4, 5], MockNameList(), MockReadingList());
  }

  /** Within each persona the mock iterations run 1, 2, ..., n in file order. */
  lemma MockConsecutive(n: string)
    ensures forall i :: 0 <= i < |GetPersonaData(MockData(), n)| ==> GetPersonaData(MockData(), n)[i].iteration == i + 1
  {
    BlocksSelect([1, 2, 3, 4, 5], MockNameList(), MockReadingList(), n);
  }

  /** With distinct names, block `k`'s name occurs and selects exactly that block. */
  lemma BlocksBlock(ids: seq<int>, names: seq<string>, readings: seq<seq<Reading>>, k: nat)
    requires |ids| == |names| == |readings| && NoDup(names) && k < |ids| && |readings[k]| > 0
    ensures names[k] in Names(Blocks(ids, names, readings))
    ensures GetPersonaData(Blocks(ids, names, readings), names[k]) == Block(ids[k], names[k], readings[k])
  {
    var data := Blocks(ids, names, readings);
    assert IndexOf(names, names[k]) == k;
    BlocksSelect(ids, names, readings, names[k]);
    var b := Block(ids[k], names[k], readings[k]);
    assert b[0] in GetPersonaData(data, names[k]);
    GetPersonaDataExact(data, names[k]);
    var i :| 0 <= i < |data| && data[i] == b[0];
    assert Names(data)[i] == names[k];
  }

  /** Persona `k` of the fixture selects exactly its own block: ids 1 to 5 in order. */
  lemma MockBlock(k: nat)
    requires k < 5
    ensures MockNameList()[k] in Names(MockData())
    ensures GetPersonaData(MockData(), MockNameList()[k]) == Block(k + 1, MockNameList()[k], MockReadingList()[k])
  {
    var ids := [1, 2, 3, 4, 5];
    var rs := MockReadingList();
    assert forall j :: 0 <= j < |rs| ==> |rs[j]| > 0;
    assert ids[k] == k + 1;
    BlocksBlock(ids, MockNameList(), rs, k);
  }
}
