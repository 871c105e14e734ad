/**
  The projects page: two project lists, their card indices, the buttons of
  each card and the summary block's counters.
 */
module ProjectsPage {
  import opened Options
  import opened Cards

  /** A listed project (the description text is left out). */
  datatype Listing = Listing(
    title: string,
    techStack: seq<string>,
    liveDemo: Option<string>,
    github: Option<string>,
    category: string,
    command: string)

  const CompleteApps: seq<Listing> := [
    Listing("Otopilot Dashboard", ["React", "Tailwind"],
            Some("https://otopilot-dashboard.vercel.app/"), None, "Web App", "npm run dev"),
    Listing("Uber Clone", ["React", "Express", "MongoDB", "Node.js"],
            None, Some("https://github.com/ramishbinsiddique15/Uber-Clone"), "Full Stack", "npm run dev"),
    Listing("Spotify Clone", ["CSS", "Express", "Node.js"],
            None, Some("https://github.com/ramishbinsiddique15/Spotify-Clone"), "Web App", "npx nodemon"),
    Listing("Get Me a Chai", ["Next.js", "Tailwind", "Node.js", "MongoDB"],
            None, Some("https://github.com/ramishbinsiddique15/Get-Me-A-Chai"), "Full Stack", "npm run dev"),
    Listing("Bag Elegance", ["Express", "Tailwind", "Node.js", "MongoDB"],
            Some("https://bag-elegance.vercel.app/"), Some("https://github.com/ramishbinsiddique15/BagElegance"),
            "E-commerce", "npx nodemon"),
    Listing("Portfolio Template", ["React", "Tailwind", "Three.js"],
            Some("https://ramishbinsiddique.vercel.app"), Some("https://github.com/ramishbinsiddique15/Portfolio"),
            "Portfolio", "npm run dev")
  ]

  const SmallProjects: seq<Listing> := [
    Listing("Chess", ["JavaScript", "CSS", "HTML5"],
            None, Some("https://github.com/ramishbinsiddique15/Chess"), "Game", "npx nodemon"),
    Listing("Linktree Clone", ["MongoDB", "Express", "React", "Node.js"],
            None, Some("https://github.com/ramishbinsiddique15/Linktree-Clone"), "Web App", "npm run dev"),
    Listing("PassBank", ["MongoDB", "Express", "React", "Node.js"],
            None, Some("https://github.com/ramishbinsiddique15/PassBank"), "Tool", "npm run dev"),
    Listing("Backend Bits", ["Node.js", "Express", "MongoDB"],
            None, Some("https://github.com/ramishbinsiddique15/Backend-Bits"), "Backend", "npx nodemon"),
    Listing("Weather App", ["React", "CSS"],
            Some("https://myweather-tan.vercel.app/"),
            Some("https://github.com/ramishbinsiddique15/Weather-App/tree/cf68cc9f8718a5d8dc4844a7730c5c50dada7c61"),
            "Web App", "npm run dev")
  ]

  /** The names the page's `getTechIcon` knows. */
  const Icons: set<string> := {"HTML5", "CSS", "JavaScript", "Node.js", "React", "Python", "Express",
                               "Flask", "Tailwind", "MongoDB", "Next.js", "Three.js", "TypeScript",
                               "Firebase", "PostgreSQL"}

  /** The page's colour table; Express, Next.js and Three.js follow the
      mode. */
  function Palette(dark: bool): Palette {
    var mono := if dark then "#ffffff" else "#000000";
    map["React" := "#61DAFB", "Node.js" := "#339933", "JavaScript" := "#F7DF1E",
        "Python" := "#3776AB", "MongoDB" := "#47A248", "Express" := mono,
        "CSS" := "#1572B6", "HTML5" := "#E34F26", "Tailwind" := "#06B6D4", "Flask" := "#000000",
        "Next.js" := mono, "Three.js" := mono, "TypeScript" := "#3178C6",
        "Firebase" := "#FFCA28", "PostgreSQL" := "#336791"]
  }

  /** The page's cards put the demo button before the code button. */
  function CardButtons(p: Listing): seq<Button> {
    Buttons(p.github, p.liveDemo, true)
  }

  // ----- card indices ------------------------------------------------------

  /** The `index` each card gets: complete apps count from 0, small projects
      continue after the last complete app. */
  function CardIndices(complete: nat, small: nat): (r: seq<int>)
    ensures |r| == complete + small
    ensures forall i :: 0 <= i < |r| ==> r[i] == i
  {
    seq(complete, i => i) + seq(small, i => i + complete)
  }

  // ----- the summary -------------------------------------------------------

  /** Every tech named in any of the stacks: the spread of
      `new Set(list.flatMap(p => p.techStack))`. */
  function TechSet(ps: seq<Listing>): (r: set<string>)
    ensures forall k, t :: 0 <= k < |ps| && t in ps[k].techStack ==> t in r
  {
    if |ps| == 0 then {}
    else
      var init := ps[..|ps| - 1];
      assert forall k :: 0 <= k < |ps| - 1 ==> ps[k] == init[k];
      TechSet(init) + ToSet(ps[|ps| - 1].techStack)
  }

  function ToSet(s: seq<string>): (r: set<string>)
    ensures forall t :: t in r <==> t in s
    ensures |r| <= |s|
  {
    if |s| == 0 then {} else ToSet(s[..|s| - 1]) + {s[|s| - 1]}
  }

  /** The sum of the stack lengths. */
  function StackTotal(ps: seq<Listing>): nat {
    if |ps| == 0 then 0 else StackTotal(ps[..|ps| - 1]) + |ps[|ps| - 1].techStack|
  }

  /** `list.filter(p => p.liveDemo).length`. */
  function DemoCount(ps: seq<Listing>): (n: nat)
    ensures n <= |ps|
  {
    if |ps| == 0 then 0 else DemoCount(ps[..|ps| - 1]) + (if Truthy(ps[|ps| - 1].liveDemo) then 1 else 0)
  }

  /** `list.filter(p => p.github).length`. */
  function RepoCount(ps: seq<Listing>): (n: nat)
    ensures n <= |ps|
  {
    if |ps| == 0 then 0 else RepoCount(ps[..|ps| - 1]) + (if Truthy(ps[|ps| - 1].github) then 1 else 0)
  }

  datatype Summary = Summary(complete: nat, small: nat, total: nat, techs: nat, demos: nat, repos: nat)

  /** The summary block. */
  function Summarize(apps: seq<Listing>, small: seq<Listing>): (s: Summary)
    ensures s.complete == |apps| && s.small == |small|
    ensures s.total == s.complete + s.small
    ensures s.techs <= StackTotal(apps + small)
    ensures s.demos <= s.total && s.repos <= s.total
    ensures s.techs == |TechSet(apps + small)|
    ensures s.demos == DemoCount(apps + small) && s.repos == RepoCount(apps + small)
  {
    var all := apps + small;
    TechsBounded(all);
    Summary(|apps|, |small|, |apps| + |small|, |TechSet(all)|, DemoCount(all), RepoCount(all))
  }

  // ----- lemmas ------------------------------------------------------------

  /** Only techs named in some stack are counted. */
  lemma {:induction false} TechSetNamed(ps: seq<Listing>, t: string)
    requires t in TechSet(ps)
    ensures exists k :: 0 <= k < |ps| && t in ps[k].techStack
  {
    if |ps| == 0 {
      assert false;
    }
    var init := ps[..|ps| - 1];
    if t in TechSet(init) {
      TechSetNamed(init, t);
      var k :| 0 <= k < |init| && t in init[k].techStack;
      assert ps[k] == init[k];
    } else {
      assert t in ps[|ps| - 1].techStack;
    }
  }

  /** The distinct technologies never outnumber the stack entries. */
  lemma {:induction false} TechsBounded(ps: seq<Listing>)
    ensures |TechSet(ps)| <= StackTotal(ps)
  {
    if |ps| > 0 {
      TechsBounded(ps[..|ps| - 1]);
      var a, b := TechSet(ps[..|ps| - 1]), ToSet(ps[|ps| - 1].techStack);
      assert |a + b| <= |a| + |b| by {
        UnionBound(a, b);
      }
    }
  }

  lemma UnionBound(a: set<string>, b: set<string>)
    ensures |a + b| <= |a| + |b|
  {
    assert |a + b| == |a| + |b - a|;
    assert b - a <= b;
    SubsetBound(b - a, b);
  }

  lemma SubsetBound(a: set<string>, b: set<string>)
    requires a <= b
    ensures |a| <= |b|
  {
    assert b == a + (b - a);
  }

  /** The filter counts split over the two lists. */
  lemma {:induction false} CountsAppend(a: seq<Listing>, b: seq<Listing>)
    ensures DemoCount(a + b) == DemoCount(a) + DemoCount(b)
    ensures RepoCount(a + b) == RepoCount(a) + RepoCount(b)
    decreases |b|
  {
    if |b| > 0 {
      assert (a + b)[..|a + b| - 1] == a + b[..|b| - 1];
      CountsAppend(a, b[..|b| - 1]);
    } else {
      assert a + b == a;
    }
  }

  /** A single listing counts once exactly when it has the field; with
      `CountsAppend` this fixes both counts on every list. */
  lemma DemoCountOne(p: Listing)
    ensures DemoCount([p]) == (if Truthy(p.liveDemo) then 1 else 0)
  {
    assert [p][..0] == [];
  }

  lemma RepoCountOne(p: Listing)
    ensures RepoCount([p]) == (if Truthy(p.github) then 1 else 0)
  {
    assert [p][..0] == [];
  }

  /** No demo button is counted exactly when no listing has a demo, and
      every listing is counted exactly when all of them have one. */
  lemma {:induction false} DemoCountExtremes(ps: seq<Listing>)
    ensures DemoCount(ps) == 0 <==> forall k :: 0 <= k < |ps| ==> !Truthy(ps[k].liveDemo)
    ensures DemoCount(ps) == |ps| <==> forall k :: 0 <= k < |ps| ==> Truthy(ps[k].liveDemo)
  {
    if |ps| > 0 {
      var init := ps[..|ps| - 1];
      DemoCountExtremes(init);
      assert forall k :: 0 <= k < |init| ==> init[k] == ps[k];
    }
  }

  /** The same for the code buttons. */
  lemma {:induction false} RepoCountExtremes(ps: seq<Listing>)
    ensures RepoCount(ps) == 0 <==> forall k :: 0 <= k < |ps| ==> !Truthy(ps[k].github)
    ensures RepoCount(ps) == |ps| <==> forall k :: 0 <= k < |ps| ==> Truthy(ps[k].github)
  {
    if |ps| > 0 {
      var init := ps[..|ps| - 1];
      RepoCountExtremes(init);
      assert forall k :: 0 <= k < |init| ==> init[k] == ps[k];
    }
  }

  /** Card indices are pairwise distinct. */
  lemma IndicesDistinct(complete: nat, small: nat)
    ensures forall i, j :: 0 <= i < j < complete + small ==> CardIndices(complete, small)[i] != CardIndices(complete, small)[j]
  {
  }

  /** A small project's card index is its position plus the number of
      complete apps. */
  lemma SmallIndexOffset(complete: nat, small: nat, i: nat)
    requires i < small
    ensures CardIndices(complete, small)[complete + i] == i + complete
  {
  }

  lemma DemoSnoc(s: seq<Listing>, k: nat)
    requires k < |s|
    ensures DemoCount(s[..k + 1]) == DemoCount(s[..k]) + (if Truthy(s[k].liveDemo) then 1 else 0)
  {
    assert s[..k + 1][..k] == s[..k];
  }

  lemma RepoSnoc(s: seq<Listing>, k: nat)
    requires k < |s|
    ensures RepoCount(s[..k + 1]) == RepoCount(s[..k]) + (if Truthy(s[k].github) then 1 else 0)
  {
    assert s[..k + 1][..k] == s[..k];
  }

  lemma AppsDemos(s: seq<Listing>)
    requires s == CompleteApps
    ensures DemoCount(s) == 3
  {
    assert s[..0] == [];
    DemoSnoc(s, 0);
    DemoSnoc(s, 1);
    DemoSnoc(s, 2);
    DemoSnoc(s, 3);
    DemoSnoc(s, 4);
    DemoSnoc(s, 5);
    assert s[..6] == s;
  }

  lemma AppsRepos(s: seq<Listing>)
    requires s == CompleteApps
    ensures RepoCount(s) == 5
  {
    assert s[..0] == [];
    RepoSnoc(s, 0);
    RepoSnoc(s, 1);
    RepoSnoc(s, 2);
    RepoSnoc(s, 3);
    RepoSnoc(s, 4);
    RepoSnoc(s, 5);
    assert s[..6] == s;
  }

  lemma SmallDemos(s: seq<Listing>)
    requires s == SmallProjects
    ensures DemoCount(s) == 1
  {
    assert s[..0] == [];
    DemoSnoc(s, 0);
    DemoSnoc(s, 1);
    DemoSnoc(s, 2);
    DemoSnoc(s, 3);
    DemoSnoc(s, 4);
    assert s[..5] == s;
  }

  lemma SmallRepos(s: seq<Listing>)
    requires s == SmallProjects
    ensures RepoCount(s) == 5
  {
    assert s[..0] == [];
    RepoSnoc(s, 0);
    RepoSnoc(s, 1);
    RepoSnoc(s, 2);
    RepoSnoc(s, 3);
    RepoSnoc(s, 4);
    assert s[..5] == s;
  }

  /** The page's summary: 6 complete applications, 5 small projects,
      11 in total, 4 live demos and 10 repositories. */
  lemma PageSummary()
    ensures var s := Summarize(CompleteApps, SmallProjects);
            s.complete == 6 && s.small == 5 && s.total == 11 && s.demos == 4 && s.repos == 10
  {
    AppsDemos(CompleteApps);
    AppsRepos(CompleteApps);
    SmallDemos(SmallProjects);
    SmallRepos(SmallProjects);
    CountsAppend(CompleteApps, SmallProjects);
  }

  /** Exactly Express, Next.js and Three.js change colour with the mode. */
  lemma ModeDependentColours(t: string)
    ensures TechColor(Palette(true), t) != TechColor(Palette(false), t)
            <==> t == "Express" || t == "Next.js" || t == "Three.js"
  {
  }

  /** Bag Elegance shows both buttons, demo first. */
  lemma BothButtons()
    ensures CardButtons(CompleteApps[4])
         == [LiveDemo("https://bag-elegance.vercel.app/"), Code("https://github.com/ramishbinsiddique15/BagElegance")]
  {
  }

  /** The ten technologies the two lists name. */
  const PageTechs: set<string> := {"React", "Tailwind", "Express", "MongoDB", "Node.js",
                                   "CSS", "Next.js", "Three.js", "JavaScript", "HTML5"}

  lemma PageTechsCount()
    ensures |PageTechs| == 10
  {
  }

  lemma StacksWithin(ps: seq<Listing>)
    requires ps == CompleteApps + SmallProjects
    ensures forall k, t :: 0 <= k < |ps| && t in ps[k].techStack ==> t in PageTechs
  {
  }

  lemma StacksCover(ps: seq<Listing>)
    requires ps == CompleteApps + SmallProjects
    ensures forall t :: t in PageTechs ==> t in TechSet(ps)
  {
    assert "React" in ps[0].techStack && "Tailwind" in ps[0].techStack;
    assert "Express" in ps[1].techStack && "MongoDB" in ps[1].techStack && "Node.js" in ps[1].techStack;
    assert "CSS" in ps[2].techStack && "Next.js" in ps[3].techStack && "Three.js" in ps[5].techStack;
    assert "JavaScript" in ps[6].techStack && "HTML5" in ps[6].techStack;
  }

  /** "Technologies used" reads 10. */
  lemma PageTechCount()
    ensures Summarize(CompleteApps, SmallProjects).techs == 10
  {
    var all := CompleteApps + SmallProjects;
    StacksWithin(all);
    StacksCover(all);
    forall t | t in TechSet(all) ensures t in PageTechs {
      TechSetNamed(all, t);
    }
    assert TechSet(all) == PageTechs;
    PageTechsCount();
  }

  /** Every tech on the page has an icon and its own colour in both modes. */
  lemma StacksHaveIcons(ps: seq<Listing>, dark: bool)
    requires ps == CompleteApps + SmallProjects
    ensures forall k, t :: 0 <= k < |ps| && t in ps[k].techStack ==>
              t in Icons && t in Palette(dark) && TechColor(Palette(dark), t) != DefaultColor
  {
    StacksWithin(ps);
    PageTechsMapped(dark);
  }

  lemma PageTechsMapped(dark: bool)
    ensures forall t :: t in PageTechs ==> t in Icons && t in Palette(dark) && TechColor(Palette(dark), t) != DefaultColor
  {
    PageTechsHaveIcons();
    PageTechsColoured(dark);
  }

  lemma PageTechsHaveIcons()
    ensures PageTechs <= Icons
  {
  }

  lemma PageTechsColoured(dark: bool)
    ensures forall t :: t in PageTechs ==> t in Palette(dark) && Palette(dark)[t] != "" && Palette(dark)[t] != DefaultColor
  {
  }
}
