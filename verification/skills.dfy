/**
  The skills section: five categories of named skills and the summary
  block's per-category counts and total.
 */
module Skills {
  import opened Options

  /** A category: its title (the React key of its card), its shell command
      and its skill names (the keys of the skill tiles). Icons and colours
      are presentation and left out. */
  datatype Category = Category(title: string, command: string, skills: seq<string>)

  const Categories: seq<Category> := [
    Category("Languages", "ls languages/", ["HTML5", "CSS3", "JavaScript"]),
    Category("Frameworks", "cat frameworks.txt", ["React.js", "Node.js", "Express.js", "Next.js", "Bootstrap"]),
    Category("Tools", "which tools", ["Git", "GitHub", "Postman", "Vite", "Canva"]),
    Category("Databases", "show databases", ["MongoDB", "Firebase"]),
    Category("Other", "grep -r 'other'", ["Tailwind CSS", "Three.js"])
  ]

  /** The number of skills over all categories. */
  function SumSizes(cats: seq<Category>): nat {
    if |cats| == 0 then 0 else |cats[0].skills| + SumSizes(cats[1..])
  }

  /** The five lines above the total, read from the first five categories
      by position; with fewer categories the lookup fails. */
  function FiveCounts(cats: seq<Category>): (r: Option<seq<nat>>)
    ensures r.Some? <==> |cats| >= 5
    ensures r.Some? ==> |r.value| == 5 && forall i :: 0 <= i < 5 ==> r.value[i] == |cats[i].skills|
  {
    if |cats| < 5 then None
    else Some(seq(5, i requires 0 <= i < 5 => |cats[i].skills|))
  }

  function Sum(s: seq<nat>): nat {
    if |s| == 0 then 0 else s[0] + Sum(s[1..])
  }

  predicate Distinct(s: seq<string>) {
    forall i, j :: 0 <= i < j < |s| ==> s[i] != s[j]
  }

  function Titles(cats: seq<Category>): (r: seq<string>)
    ensures |r| == |cats| && forall i :: 0 <= i < |cats| ==> r[i] == cats[i].title
  {
    seq(|cats|, i requires 0 <= i < |cats| => cats[i].title)
  }

  /** The total line: `reduce((acc, cat) => acc + cat.skills.length, 0)`. */
  method TotalSkills(cats: seq<Category>) returns (total: nat)
    ensures total == SumSizes(cats)
    ensures |cats| == 0 ==> total == 0
    ensures forall i :: 0 <= i < |cats| ==> |cats[i].skills| <= total
  {
    total := 0;
    var i := 0;
    while i < |cats|
      invariant 0 <= i <= |cats|
      invariant total + SumSizes(cats[i..]) == SumSizes(cats)
      invariant forall j :: 0 <= j < i ==> |cats[j].skills| <= total
    {
      assert cats[i..][1..] == cats[i + 1..];
      total := total + |cats[i].skills|;
      i := i + 1;
    }
    assert cats[i..] == [];
    SizesBound(cats);
  }

  /** No single category holds more than the total. */
  lemma {:induction false} SizesBound(cats: seq<Category>)
    ensures forall i :: 0 <= i < |cats| ==> |cats[i].skills| <= SumSizes(cats)
  {
    if |cats| > 0 {
      SizesBound(cats[1..]);
      assert forall i :: 1 <= i < |cats| ==> cats[i] == cats[1..][i - 1];
    }
  }

  /** The total splits over a split of the categories. */
  lemma {:induction false} SumSizesAppend(a: seq<Category>, b: seq<Category>)
    ensures SumSizes(a + b) == SumSizes(a) + SumSizes(b)
  {
    if |a| > 0 {
      assert (a + b)[1..] == a[1..] + b;
      SumSizesAppend(a[1..], b);
    } else {
      assert a + b == b;
    }
  }

  /** The per-category counts, in order. */
  function Sizes(cats: seq<Category>): (r: seq<nat>)
    ensures |r| == |cats| && forall i :: 0 <= i < |cats| ==> r[i] == |cats[i].skills|
  {
    seq(|cats|, i requires 0 <= i < |cats| => |cats[i].skills|)
  }

  lemma {:induction false} SumOfSizes(cats: seq<Category>)
    ensures Sum(Sizes(cats)) == SumSizes(cats)
  {
    if |cats| > 0 {
      assert Sizes(cats)[1..] == Sizes(cats[1..]);
      SumOfSizes(cats[1..]);
    }
  }

  /** The five counts add up to the total of the first five categories, so
      to the whole total exactly when the categories after the fifth hold
      no skills. */
  lemma FiveCountsSum(cats: seq<Category>)
    requires |cats| >= 5
    ensures Sum(FiveCounts(cats).value) + SumSizes(cats[5..]) == SumSizes(cats)
  {
    assert FiveCounts(cats).value == Sizes(cats[..5]);
    SumOfSizes(cats[..5]);
    assert cats == cats[..5] + cats[5..];
    SumSizesAppend(cats[..5], cats[5..]);
  }

  /** The page's numbers: 3, 5, 5, 2 and 2 skills, 17 in total, and the
      five lines account for all of them. */
  lemma PageCounts(cats: seq<Category>)
    requires cats == Categories
    ensures FiveCounts(cats) == Some([3, 5, 5, 2, 2])
    ensures SumSizes(cats) == 17
  {
    FiveCountsSum(cats);
    assert cats[5..] == [];
    var c: seq<nat> := [3, 5, 5, 2, 2];
    assert FiveCounts(cats).value == c;
    assert c[1..] == [5, 5, 2, 2] && c[1..][1..] == [5, 2, 2] && c[1..][1..][1..] == [2, 2];
    assert c[1..][1..][1..][1..] == [2] && c[1..][1..][1..][1..][1..] == [];
    assert Sum(c) == 17;
  }

  /** The React keys are unique: category titles, and skill names within
      each category. */
  lemma KeysUnique()
    ensures Distinct(Titles(Categories))
    ensures forall k :: 0 <= k < |Categories| ==> Distinct(Categories[k].skills)
  {
  }
}
