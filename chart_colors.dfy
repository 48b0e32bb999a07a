/** The five-colour palette that the news-impact chart (news-impact-chart.tsx) and the
    persona-trajectory chart (line-chart.tsx) each declare, and the colour each gives a
    persona: the palette entry at its position among the available personas, cycling
    through the five. */
module ChartColors {
  import opened Wrappers
  import opened Seqs
  import opened Numeric

  function Colors(): seq<string>
  {
    ["#8884d8", "#82ca9d", "#ffc658", "#ff8042", "#0088fe"]
  }

  /** `COLORS[index % COLORS.length]`: with JavaScript's remainder a negative index stays
      negative and reads `undefined`. */
  function ColorAt(index: int): Option<string>
  {
    var i := TruncRem(index, |Colors()|);
    if i >= 0 then Some(Colors()[i]) else None
  }

  /** The colour of a persona, looked up by `availablePersonas.indexOf(name)`. */
  function PersonaColor(available: seq<string>, name: string): Option<string>
  {
    ColorAt(IndexOf(available, name))
  }

  /** A listed persona gets the palette entry at its position modulo five; a persona that
      is not listed gets no colour. */
  lemma PersonaColorFacts(available: seq<string>, name: string)
    ensures PersonaColor(available, name).Some? <==> name in available
    ensures name in available ==> PersonaColor(available, name) == Some(Colors()[IndexOf(available, name) % 5])
  {
  }

  /** With distinct names the persona at position `k` gets colour `k mod 5`, so the
      palette repeats every five personas. */
  lemma PositionColor(available: seq<string>, k: nat)
    requires NoDup(available) && k < |available|
    ensures PersonaColor(available, available[k]) == Some(Colors()[k % 5])
  {
    assert IndexOf(available, available[k]) == k;
  }
}
