/**
  Helpers shared by the project and experience cards: tech colours with a
  fallback, the text contribution bar, the tech chip borders and the link
  buttons.
 */
module Cards {
  import opened Options

  /** The accent colour an unmapped tech falls back to. */
  const DefaultColor: string := "#C778DD"

  /** The neutral chip border greys for dark and light mode. */
  function Grey(dark: bool): string {
    if dark then "#4B5563" else "#E5E7EB"
  }

  /** A colour table from tech name to CSS colour. */
  type Palette = map<string, string>

  /** `colors[tech] || default`: a mapped non-empty colour, else the
      accent colour. */
  function TechColor(palette: Palette, tech: string): (r: string)
    ensures r != ""
    ensures r == DefaultColor || (tech in palette && r == palette[tech])
    ensures tech !in palette ==> r == DefaultColor
    ensures tech in palette && palette[tech] != "" ==> r == palette[tech]
    ensures tech in palette && palette[tech] == "" ==> r == DefaultColor
  {
    if tech in palette && palette[tech] != "" then palette[tech] else DefaultColor
  }

  /** No colour of the palette, nor the fallback, is one of the greys. */
  predicate AvoidsGreys(palette: Palette) {
    forall t :: t in palette ==> palette[t] != Grey(true) && palette[t] != Grey(false)
  }

  /** The top, right and bottom border colour of a chip: the tech colour on
      the active chip, the mode's grey on the others. */
  function BorderColor(palette: Palette, active: Option<string>, tech: string, dark: bool): (r: string)
    ensures active == Some(tech) ==> r == TechColor(palette, tech)
    ensures active != Some(tech) ==> r == Grey(dark)
  {
    if active == Some(tech) then TechColor(palette, tech) else Grey(dark)
  }

  // ----- the contribution bar ---------------------------------------------

  const Full: char := '█'
  const Empty: char := '░'

  /** `c.repeat(n)` for a non-negative count. */
  function Repeat(c: char, n: nat): (r: string)
    ensures |r| == n && forall i :: 0 <= i < n ==> r[i] == c
  {
    seq(n, _ => c)
  }

  /** Filled cells for a proficiency: `Math.floor(p / 10)`. Dafny's
      division rounds down for a positive divisor, as `floor` does. */
  function Filled(p: int): int {
    p / 10
  }

  /** The ten-cell bar `[███░░…]`. `String.prototype.repeat` throws on a
      negative count, so the bar exists only while both counts are
      non-negative, that is for 0 <= p < 110. */
  function Bar(p: int): (r: Option<string>)
    ensures r.Some? <==> 0 <= p < 110
    ensures r.Some? ==> |r.value| == 12 && r.value[0] == '[' && r.value[11] == ']'
    ensures r.Some? ==> forall i :: 1 <= i <= 10 ==> (r.value[i] == Full <==> i <= Filled(p))
    ensures r.Some? ==> forall i :: 1 <= i <= 10 ==> (r.value[i] == Full || r.value[i] == Empty)
  {
    var f := Filled(p);
    if 0 <= f && 10 - f >= 0 then
      var s := "[" + Repeat(Full, f) + Repeat(Empty, 10 - f) + "]";
      assert forall i :: 1 <= i <= 10 ==> s[i] == (if i <= f then Full else Empty);
      Some(s)
    else None
  }

  // ----- buttons -----------------------------------------------------------

  datatype Button = Code(url: string) | LiveDemo(url: string)

  /** The link buttons, each present exactly when its field is truthy; the
      home cards put the code button first, the projects page the demo. */
  function Buttons(github: Option<string>, liveDemo: Option<string>, demoFirst: bool): (r: seq<Button>)
    ensures Code(github.GetOr("")) in r <==> Truthy(github)
    ensures LiveDemo(liveDemo.GetOr("")) in r <==> Truthy(liveDemo)
    ensures forall b :: b in r ==>
              || (b.Code? && Truthy(github) && b.url == github.value)
              || (b.LiveDemo? && Truthy(liveDemo) && b.url == liveDemo.value)
    ensures |r| == (if Truthy(github) then 1 else 0) + (if Truthy(liveDemo) then 1 else 0)
    ensures |r| == 2 ==> (r[0].LiveDemo? <==> demoFirst)
  {
    var code := if Truthy(github) then [Code(github.value)] else [];
    var demo := if Truthy(liveDemo) then [LiveDemo(liveDemo.value)] else [];
    if demoFirst then demo + code else code + demo
  }

  // ----- lemmas ------------------------------------------------------------

  /** On a palette that avoids the greys, a chip shows its tech colour on
      all borders exactly when it is the active one. */
  lemma HighlightIffActive(palette: Palette, active: Option<string>, tech: string, dark: bool)
    requires AvoidsGreys(palette)
    ensures BorderColor(palette, active, tech, dark) == TechColor(palette, tech) <==> active == Some(tech)
  {
    assert DefaultColor != Grey(true) && DefaultColor != Grey(false);
  }

  /** More proficiency never empties a cell. */
  lemma BarMonotone(p: int, q: int)
    requires 0 <= p <= q < 110
    ensures Filled(p) <= Filled(q)
    ensures forall i :: 1 <= i <= 10 && Bar(p).value[i] == Full ==> Bar(q).value[i] == Full
  {
    FilledMonotone(p, q);
  }

  lemma FilledMonotone(p: int, q: int)
    requires 0 <= p <= q
    ensures p / 10 <= q / 10
  {
  }

  /** The ends of the range: 0 gives ten empty cells, 100 ten full ones,
      and the first values either side of the defined range give no bar. */
  lemma BarEnds()
    ensures Bar(0).Some? && Bar(0).value[1..11] == Repeat(Empty, 10)
    ensures Bar(100).Some? && Bar(100).value[1..11] == Repeat(Full, 10)
    ensures Bar(109).Some? && Bar(-1) == None && Bar(110) == None
  {
    assert Bar(0).value[1..11] == Repeat(Empty, 10);
    assert Bar(100).value[1..11] == Repeat(Full, 10);
  }
}
