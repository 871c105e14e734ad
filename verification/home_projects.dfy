/**
  The home page's project cards: the three featured projects, the chip
  selection state of each card and what it shows (contribution label, bar,
  chip borders, buttons).
 */
module HomeProjects {
  import opened Options
  import opened Text
  import opened Cards

  /** A featured project. Of each tech contribution only the proficiency
      percentage is read by the card, so that is all the map keeps. */
  datatype Project = Project(
    title: string,
    techStack: seq<string>,
    proficiency: map<string, int>,
    liveDemo: Option<string>,
    github: Option<string>,
    category: string,
    command: string)

  const Projects: seq<Project> := [
    Project("Otopilot Dashboard", ["React", "Tailwind"],
            map["React" := 60, "Tailwind" := 40],
            Some("https://otopilot-dashboard.vercel.app/"), None, "Web App", "npm run dev"),
    Project("Uber Clone", ["React", "Express", "MongoDB", "Node.js"],
            map["React" := 50, "Express" := 20, "MongoDB" := 15, "Node.js" := 15],
            None, Some("https://github.com/ramishbinsiddique15/Uber-Clone"), "Full Stack", "docker-compose up"),
    Project("Spotify Clone", ["CSS", "Express", "Node.js"],
            map["CSS" := 40, "Express" := 30, "Node.js" := 30],
            None, Some("https://github.com/ramishbinsiddique15/Spotify-Clone"), "Web App", "node server.js")
  ]

  /** The names `getTechIcon` knows. */
  const Icons: set<string> := {"HTML5", "CSS", "JavaScript", "Node.js", "React", "Python",
                               "Express", "Flask", "Tailwind", "MongoDB"}

  /** The card colour table; only Express depends on the mode. */
  function Palette(dark: bool): Palette {
    map["React" := "#61DAFB", "Node.js" := "#339933", "JavaScript" := "#F7DF1E",
        "Python" := "#3776AB", "MongoDB" := "#47A248",
        "Express" := if dark then "#ffffff" else "#000000",
        "CSS" := "#1572B6", "HTML5" := "#E34F26", "Tailwind" := "#06B6D4", "Flask" := "#000000"]
  }

  // ----- card state --------------------------------------------------------

  /** A card's selected chip; `None` stands for the `undefined` that
      `techStack[0]` gives on an empty stack. */
  datatype Card = Card(activeTech: Option<string>)

  function InitCard(stack: seq<string>): (c: Card)
    ensures |stack| > 0 ==> c.activeTech == Some(stack[0])
    ensures |stack| == 0 ==> c.activeTech.None?
  {
    if |stack| > 0 then Card(Some(stack[0])) else Card(None)
  }

  /** Clicking the chip at position `i` selects its tech. */
  function ClickChip(c: Card, stack: seq<string>, i: nat): (r: Card)
    requires i < |stack|
    ensures r.activeTech == Some(stack[i])
  {
    Card(Some(stack[i]))
  }

  /** `ProjectCard` is declared inside `Projects`, so every re-render of
      `Projects` (a theme switch, the `hasAnimated` flip) gives React a new
      component type: the card is mounted again and its selection starts
      over from the first tech, whatever chip was clicked before. */
  function Remount(c: Card, stack: seq<string>): (r: Card)
    ensures |stack| > 0 ==> r.activeTech == Some(stack[0])
    ensures |stack| == 0 ==> r.activeTech.None?
  {
    InitCard(stack)
  }

  /** The card's invariant: the selection is one of the project's techs,
      and there is one as soon as the stack is not empty. */
  predicate CardValid(stack: seq<string>, c: Card) {
    && (|stack| > 0 ==> c.activeTech.Some?)
    && (c.activeTech.Some? ==> c.activeTech.value in stack)
  }

  /** The `CONTRIBUTION` label's number: the proficiency of the selected
      tech, `None` where the lookup would fail. */
  function ShownProficiency(p: Project, c: Card): (r: Option<int>)
    ensures r.Some? <==> c.activeTech.Some? && c.activeTech.value in p.proficiency
    ensures r.Some? ==> r.value == p.proficiency[c.activeTech.value]
  {
    match c.activeTech
    case Some(t) => if t in p.proficiency then Some(p.proficiency[t]) else None
    case None => None
  }

  /** The bar the card draws for its selected tech. */
  function ShownBar(p: Project, c: Card): (r: Option<string>)
    ensures r.Some? ==> ShownProficiency(p, c).Some? && 0 <= ShownProficiency(p, c).value < 110
  {
    match ShownProficiency(p, c)
    case Some(v) => Bar(v)
    case None => None
  }

  function ChipBorder(p: Project, c: Card, tech: string, dark: bool): string {
    BorderColor(Palette(dark), c.activeTech, tech, dark)
  }

  function CardButtons(p: Project): seq<Button> {
    Buttons(p.github, p.liveDemo, false)
  }

  /** Every tech of the stack has a proficiency between 0 and 100 and an
      icon. */
  predicate StackCovered(p: Project) {
    forall t :: t in p.techStack ==>
      && t in p.proficiency
      && 0 <= p.proficiency[t] <= 100
      && t in Icons
  }

  predicate Covered(ps: seq<Project>) {
    forall k :: 0 <= k < |ps| ==> StackCovered(ps[k])
  }

  // ----- lemmas ------------------------------------------------------------

  lemma InitValid(stack: seq<string>)
    ensures CardValid(stack, InitCard(stack))
  {
  }

  /** Any sequence of chip clicks keeps the selection inside the stack. */
  lemma ClickValid(stack: seq<string>, c: Card, i: nat)
    requires i < |stack|
    ensures CardValid(stack, ClickChip(c, stack, i))
  {
  }

  /** A remount keeps the invariant and discards any click: after it the
      card is the freshly mounted one. */
  lemma RemountResets(stack: seq<string>, c: Card, i: nat)
    requires i < |stack|
    ensures CardValid(stack, Remount(ClickChip(c, stack, i), stack))
    ensures Remount(ClickChip(c, stack, i), stack) == InitCard(stack)
    ensures stack[i] != stack[0] ==> Remount(ClickChip(c, stack, i), stack) != ClickChip(c, stack, i)
  {
    InitValid(stack);
  }

  lemma ProjectsCovered()
    ensures Covered(Projects)
  {
    var ps := Projects;
    ProjectCovered0(ps[0]);
    ProjectCovered1(ps[1]);
    ProjectCovered2(ps[2]);
  }

  lemma ProjectCovered0(p: Project)
    requires p == Projects[0]
    ensures StackCovered(p)
  {
  }

  lemma ProjectCovered1(p: Project)
    requires p == Projects[1]
    ensures StackCovered(p)
  {
  }

  lemma ProjectCovered2(p: Project)
    requires p == Projects[2]
    ensures StackCovered(p)
  {
  }

  /** On a covered project every reachable card shows a label and a bar. */
  lemma ValidCardShowsBar(p: Project, c: Card)
    requires forall t :: t in p.techStack ==> t in p.proficiency && 0 <= p.proficiency[t] <= 100
    requires |p.techStack| > 0 && CardValid(p.techStack, c)
    ensures ShownProficiency(p, c).Some? && ShownBar(p, c).Some?
  {
  }

  /** For the featured projects, the starting card and every clicked card
      show their label and bar. */
  lemma FeaturedCardsShowBars(k: nat, i: nat)
    requires k < |Projects| && i < |Projects[k].techStack|
    ensures ShownBar(Projects[k], InitCard(Projects[k].techStack)).Some?
    ensures ShownBar(Projects[k], ClickChip(InitCard(Projects[k].techStack), Projects[k].techStack, i)).Some?
  {
    ProjectsCovered();
    var p := Projects[k];
    assert |p.techStack| > 0;
    InitValid(p.techStack);
    ClickValid(p.techStack, InitCard(p.techStack), i);
    ValidCardShowsBar(p, InitCard(p.techStack));
    ValidCardShowsBar(p, ClickChip(InitCard(p.techStack), p.techStack, i));
  }

  lemma PaletteAvoidsGreys(dark: bool)
    ensures AvoidsGreys(Palette(dark))
  {
  }

  /** Exactly the selected chip is drawn in its colour. */
  lemma OnlyActiveHighlighted(p: Project, c: Card, tech: string, dark: bool)
    ensures ChipBorder(p, c, tech, dark) == TechColor(Palette(dark), tech) <==> c.activeTech == Some(tech)
  {
    PaletteAvoidsGreys(dark);
    HighlightIffActive(Palette(dark), c.activeTech, tech, dark);
  }

  /** Express is the one mapped tech whose colour follows the mode; unmapped
      techs get the accent colour in both modes. */
  lemma ModeDependentColours(t: string)
    ensures TechColor(Palette(true), t) != TechColor(Palette(false), t) <==> t == "Express"
    ensures t !in Palette(true) ==> TechColor(Palette(true), t) == DefaultColor
  {
  }

  /** The Otopilot card has only a demo button, the others only a code
      button. */
  lemma FeaturedButtons()
    ensures CardButtons(Projects[0]) == [LiveDemo("https://otopilot-dashboard.vercel.app/")]
    ensures CardButtons(Projects[1]) == [Code("https://github.com/ramishbinsiddique15/Uber-Clone")]
    ensures CardButtons(Projects[2]) == [Code("https://github.com/ramishbinsiddique15/Spotify-Clone")]
  {
    DemoOnly(Projects[0]);
    CodeOnly(Projects[1]);
    CodeOnly(Projects[2]);
  }

  lemma DemoOnly(p: Project)
    requires p.github.None? && Truthy(p.liveDemo)
    ensures CardButtons(p) == [LiveDemo(p.liveDemo.value)]
  {
  }

  lemma CodeOnly(p: Project)
    requires Truthy(p.github) && p.liveDemo.None?
    ensures CardButtons(p) == [Code(p.github.value)]
  {
  }

  /** The header of the first card reads `otopilot-dashboard`. */
  lemma OtopilotSlug(title: string)
    requires title == "Otopilot Dashboard"
    ensures Slug(title) == "otopilot-dashboard"
  {
    OtopilotWords(title);
    SlugWords("Otopilot", " ", "Dashboard");
    LowerWord("Otopilot", "Dashboard");
  }

  lemma OtopilotWords(title: string)
    requires title == "Otopilot Dashboard"
    ensures title == "Otopilot" + " " + "Dashboard"
    ensures NoSpace("Otopilot") && NoSpace("Dashboard") && AllSpace(" ")
  {
  }

  lemma LowerWord(a: string, b: string)
    requires a == "Otopilot" && b == "Dashboard"
    ensures Lower(a) == "otopilot" && Lower(b) == "dashboard"
  {
  }
}
