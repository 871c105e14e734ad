/**
  The experience cards: the two positions, the status label, the icon
  lookup that every technology chip relies on, and the chip colours.
 */
module Experience {
  import opened Text
  import opened Cards

  datatype Position = Position(title: string, company: string, status: string, technologies: seq<string>)

  const Positions: seq<Position> := [
    Position("Frontend Intern", "Dodo Softec", "completed", ["React.js", "JavaScript", "CSS", "HTML5"]),
    Position("Frontend Developer", "Dodo Softec", "current", ["React.js", "Tailwind CSS", "JavaScript", "Node.js"])
  ]

  /** The keys of the `icons` object. The chip renders
      `icons[tech]` without a guard, so a missing key would break it. */
  const Icons: set<string> := {"React.js", "JavaScript", "CSS", "HTML5", "Tailwind CSS", "Node.js"}

  const Palette: Palette := map[
    "React.js" := "#61DAFB", "JavaScript" := "#F7DF1E", "Node.js" := "#339933",
    "CSS" := "#1572B6", "HTML5" := "#E34F26", "Tailwind CSS" := "#06B6D4"]

  /** The label beside the status dot. */
  function StatusLabel(status: string): (r: string)
    ensures r == "Active" <==> status == "current"
    ensures r == "Completed" <==> status != "current"
  {
    if status == "current" then "Active" else "Completed"
  }

  /** Every technology chip finds its icon and its own colour. */
  lemma ChipsCovered(k: nat, t: string)
    requires k < |Positions| && t in Positions[k].technologies
    ensures t in Icons
    ensures TechColor(Palette, t) == Palette[t] && TechColor(Palette, t) != DefaultColor
  {
  }

  /** Techs outside the table, such as "Express", fall back to the accent
      colour. */
  lemma UnmappedFallsBack(t: string)
    requires t !in Palette
    ensures TechColor(Palette, t) == DefaultColor
  {
  }

  /** The intern position reads "Completed", the developer one "Active". */
  lemma PositionLabels()
    ensures StatusLabel(Positions[0].status) == "Completed"
    ensures StatusLabel(Positions[1].status) == "Active"
  {
  }

  /** The first card's header reads `frontend-intern`. */
  lemma InternSlug(title: string)
    requires title == "Frontend Intern"
    ensures Slug(title) == "frontend-intern"
  {
    assert title == "Frontend" + " " + "Intern";
    SlugWords("Frontend", " ", "Intern");
    LowerWords("Frontend", "Intern");
  }

  lemma LowerWords(a: string, b: string)
    requires a == "Frontend" && b == "Intern"
    ensures Lower(a) == "frontend" && Lower(b) == "intern"
  {
  }
}
