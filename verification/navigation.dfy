/**
  The navigation bar's section tracking: which section the scroll position
  selects, what a `#section` location selects, the navigation handler and
  the mobile menu toggle. The page layout is a parameter: a map from element
  id to the element's top offset and height, holding only the elements
  present in the document.
 */
module Navigation {
  import opened Options

  /** The section ids the scroll handler inspects, top of the page first. */
  const Sections: seq<string> := ["home", "skills", "about-me", "projects", "contact"]

  /** Offset added to the vertical scroll position for the fixed bar. */
  const BarOffset: int := 200

  /** The position the scroll handler tests: the scroll offset plus the
      bar's height. */
  function Position(scrollY: int): int {
    scrollY + BarOffset
  }

  const HomePath: string := "/"

  const InitialSection: string := "home"

  /** An element's top offset and height, in pixels. */
  datatype Box = Box(top: int, height: int)

  type Layout = map<string, Box>

  /** Section `i` claims position `pos`: it is present and `pos` lies in its
      half-open extent, or it is the last section and `pos` is at or below
      its top. */
  predicate Hit(ids: seq<string>, dom: Layout, pos: int, i: int)
    requires 0 <= i < |ids|
  {
    && ids[i] in dom
    && var b := dom[ids[i]];
    && ((b.top <= pos < b.top + b.height) || (i == |ids| - 1 && pos >= b.top))
  }

  /** The downward loop over the first `k` ids: the first hit met from the
      end, if any. */
  function Scan(ids: seq<string>, dom: Layout, pos: int, k: nat): (r: Option<nat>)
    requires k <= |ids|
    ensures r.Some? ==> r.value < k && Hit(ids, dom, pos, r.value)
    ensures r.Some? ==> forall j :: r.value < j < k ==> !Hit(ids, dom, pos, j)
    ensures r.None? ==> forall j :: 0 <= j < k ==> !Hit(ids, dom, pos, j)
  {
    if k == 0 then None
    else if Hit(ids, dom, pos, k - 1) then Some(k - 1)
    else Scan(ids, dom, pos, k - 1)
  }

  /** The scroll handler: on the home page the active section becomes the
      highest section claiming the offset position; elsewhere, or when no
      section claims it, the active section stays. */
  function OnScroll(path: string, active: string, dom: Layout, scrollY: int): (r: string)
    ensures path != HomePath ==> r == active
    ensures (forall i :: 0 <= i < |Sections| ==> !Hit(Sections, dom, Position(scrollY), i)) ==> r == active
    ensures r == active || r in Sections
    ensures path == HomePath && r != active ==>
              exists i :: 0 <= i < |Sections| && r == Sections[i] && Hit(Sections, dom, Position(scrollY), i)
    ensures path == HomePath && (exists i :: 0 <= i < |Sections| && Hit(Sections, dom, Position(scrollY), i)) ==>
              exists i :: 0 <= i < |Sections| && r == Sections[i] && Hit(Sections, dom, Position(scrollY), i)
                       && forall j :: i < j < |Sections| ==> !Hit(Sections, dom, Position(scrollY), j)
  {
    if path != HomePath then active
    else match Scan(Sections, dom, Position(scrollY), |Sections|)
      case None => active
      case Some(i) => Sections[i]
  }

  // ----- the hash and navigation ------------------------------------------

  /** `s.replace(c, "")` with a string pattern: only the first occurrence
      goes. */
  function RemoveFirst(s: string, c: char): (r: string)
    ensures c !in s ==> r == s
    ensures c in s ==> |r| == |s| - 1
  {
    if |s| == 0 then s
    else if s[0] == c then s[1..]
    else [s[0]] + RemoveFirst(s[1..], c)
  }

  /** Where the router is: the path and the `#...` fragment, empty when the
      location has none. */
  datatype Location = Location(pathname: string, hash: string)

  /** The position of the first `#` in `url`, or its length when it has
      none. */
  function HashIndex(url: string): (i: nat)
    ensures i <= |url|
    ensures forall j :: 0 <= j < i ==> url[j] != '#'
    ensures i < |url| ==> url[i] == '#'
  {
    if |url| == 0 || url[0] == '#' then 0
    else
      var k := HashIndex(url[1..]);
      assert forall j :: 0 < j <= k ==> url[j] == url[1..][j - 1];
      k + 1
  }

  /** Splits a target URL at its first `#`; a lone `#` at the end gives an
      empty hash, as in the browser's location object. */
  function ParseUrl(url: string): (loc: Location)
    ensures '#' !in url ==> loc == Location(url, "")
    ensures '#' !in loc.pathname
    ensures loc.hash == "" || (loc.hash[0] == '#' && loc.pathname + loc.hash == url)
    ensures loc.pathname == url[..HashIndex(url)]
    ensures HashIndex(url) + 1 < |url| ==> loc.hash == url[HashIndex(url)..]
    ensures HashIndex(url) + 1 >= |url| ==> loc.hash == ""
  {
    var i := HashIndex(url);
    assert url[..i] + url[i..] == url;
    assert i < |url| ==> url[i] in url;
    Location(url[..i], if i + 1 >= |url| then "" else url[i..])
  }

  /** The location effect: on the home page with a hash, the section named
      by the hash becomes active. */
  function OnLocation(loc: Location, active: string): (r: string)
    ensures loc.pathname != HomePath || loc.hash == "" ==> r == active
    ensures loc.pathname == HomePath && loc.hash != "" && loc.hash[0] == '#' ==> r == loc.hash[1..]
  {
    if loc.pathname == HomePath && loc.hash != "" then RemoveFirst(loc.hash, '#') else active
  }

  /** The mobile menu: whether it is open and how many delayed closes are
      still pending. */
  datatype Menu = Menu(open: bool, pendingCloses: nat)

  datatype Nav = Nav(active: string, menu: Menu)

  const InitialNav: Nav := Nav(InitialSection, Menu(false, 0))

  /** The navigation handler: it marks the section active and closes the
      menu at once; off the home page it also asks the router for
      `/#id` (on the home page it scrolls, which is not modelled). */
  function HandleNavigation(path: string, nav: Nav, id: string): (r: (Nav, Option<string>))
    ensures r.0.active == id && !r.0.menu.open
    ensures r.0.menu.pendingCloses == nav.menu.pendingCloses
    ensures r.1.Some? <==> path != HomePath
    ensures r.1.Some? ==> |r.1.value| == |id| + 2 && r.1.value[..2] == "/#" && r.1.value[2..] == id
  {
    var target: Option<string> := if path == HomePath then None else Some("/#" + id);
    (Nav(id, Menu(false, nav.menu.pendingCloses)), target)
  }

  /** The toggle: a closed menu opens now; an open one stays open and gets a
      close scheduled for later. */
  function Toggle(m: Menu): (r: Menu)
    ensures r.open
    ensures !m.open ==> r.pendingCloses == m.pendingCloses
    ensures m.open ==> r.pendingCloses == m.pendingCloses + 1
  {
    if m.open then Menu(true, m.pendingCloses + 1) else Menu(true, m.pendingCloses)
  }

  /** A scheduled close firing: the menu closes, whatever happened since. */
  function CloseFires(m: Menu): (r: Menu)
    requires m.pendingCloses > 0
    ensures !r.open && r.pendingCloses == m.pendingCloses - 1
  {
    Menu(false, m.pendingCloses - 1)
  }

  predicate IsActive(active: string, id: string) {
    active == id
  }

  /** The nav items: id, label and the shell command shown beside it. The
      fourth label is spelt as in the page. */
  datatype NavItem = NavItem(id: string, caption: string, command: string)

  const NavItems: seq<NavItem> := [
    NavItem("home", "home", "cd ~/"),
    NavItem("skills", "skills", "ls skills/"),
    NavItem("about-me", "about-me", "cat about.txt"),
    NavItem("projects", "proejcts", "git log --oneline"),
    NavItem("contact", "contact", "mail -s \"Hello\"")
  ]

  predicate Distinct(ids: seq<string>) {
    forall i, j :: 0 <= i < j < |ids| ==> ids[i] != ids[j]
  }

  function Ids(items: seq<NavItem>): (ids: seq<string>)
    ensures |ids| == |items|
    ensures forall i :: 0 <= i < |items| ==> ids[i] == items[i].id
  {
    seq(|items|, i requires 0 <= i < |items| => items[i].id)
  }

  // ----- lemmas ------------------------------------------------------------

  /** Scan is the highest hit: any hit at `i` means the result is at `i` or
      above, and a hit always yields a result. */
  lemma {:induction false} ScanHighest(ids: seq<string>, dom: Layout, pos: int, k: nat, i: nat)
    requires k <= |ids| && i < k && Hit(ids, dom, pos, i)
    ensures Scan(ids, dom, pos, k).Some?
    ensures i <= Scan(ids, dom, pos, k).value
  {
    if !Hit(ids, dom, pos, k - 1) {
      ScanHighest(ids, dom, pos, k - 1, i);
    }
  }

  /** When the last section is present and the position is at or past its
      top, it is chosen whatever its height. */
  lemma LastSectionWins(ids: seq<string>, dom: Layout, pos: int)
    requires |ids| > 0 && ids[|ids| - 1] in dom && pos >= dom[ids[|ids| - 1]].top
    ensures Scan(ids, dom, pos, |ids|) == Some(|ids| - 1)
  {
    assert Hit(ids, dom, pos, |ids| - 1);
  }

  lemma ContactWins(active: string, dom: Layout, scrollY: int)
    requires "contact" in dom && Position(scrollY) >= dom["contact"].top
    ensures OnScroll(HomePath, active, dom, scrollY) == "contact"
  {
    LastSectionWins(Sections, dom, Position(scrollY));
  }

  /** Sections missing from the document never claim the position. */
  lemma AbsentSkipped(ids: seq<string>, dom: Layout, pos: int, i: nat)
    requires i < |ids| && ids[i] !in dom
    ensures !Hit(ids, dom, pos, i)
  {
  }

  /** Removing the first `c` from `pre + [c] + post`, where `pre` has no
      `c`, leaves `pre + post`: later occurrences stay. */
  lemma {:induction false} RemoveFirstSplit(pre: string, c: char, post: string)
    requires c !in pre
    ensures RemoveFirst(pre + [c] + post, c) == pre + post
  {
    var s := pre + [c] + post;
    if |pre| > 0 {
      assert s[1..] == pre[1..] + [c] + post;
      RemoveFirstSplit(pre[1..], c, post);
      assert [pre[0]] + (pre[1..] + post) == pre + post;
    } else {
      assert s[1..] == post;
    }
  }

  /** Navigating from another page to `/#id` and then running the location
      effect marks `id` active: the hash effect undoes the navigation
      target's encoding. */
  lemma NavigationRoundTrip(path: string, nav: Nav, id: string, later: string)
    requires path != HomePath && id != ""
    ensures var (n, target) := HandleNavigation(path, nav, id);
            && target == Some("/#" + id)
            && ParseUrl(target.value) == Location(HomePath, "#" + id)
            && OnLocation(ParseUrl(target.value), later) == id
  {
    var url := "/#" + id;
    assert url[0] == '/' && url[1] == '#';
    assert HashIndex(url) == 1;
    assert url[..1] == HomePath && url[1..] == "#" + id;
    assert ("#" + id)[1..] == id;
  }

  /** A hash with more `#`s loses only the first. */
  lemma HashKeepsLaterMarks(active: string, rest: string)
    ensures OnLocation(Location(HomePath, "#" + rest), active) == rest
  {
    assert ("#" + rest)[1..] == rest;
  }

  /** Toggling an open menu leaves it open until the delayed close fires,
      then it is closed; toggling a closed one opens it at once. */
  lemma {:induction false} ToggleTwice(m: Menu)
    requires !m.open
    ensures Toggle(m).open
    ensures Toggle(Toggle(m)).open
    ensures !CloseFires(Toggle(Toggle(m))).open
  {
    assert Toggle(m).pendingCloses == m.pendingCloses;
    assert Toggle(Toggle(m)).pendingCloses == m.pendingCloses + 1;
  }

  /** A close scheduled earlier still closes a menu reopened after
      navigation closed it. */
  lemma StaleCloseAfterReopen(path: string, nav: Nav, id: string)
    requires nav.menu.open
    ensures var m := Toggle(HandleNavigation(path, nav.(menu := Toggle(nav.menu)), id).0.menu);
            && m.open && m.pendingCloses > 0 && !CloseFires(m).open
  {
  }

  /** The nav item ids are the section ids the scroll handler inspects, and
      they are distinct. */
  lemma NavIdsAreSections()
    ensures Ids(NavItems) == Sections
    ensures Distinct(Sections)
  {
  }

  /** Distinct ids: at most one item is active, and it is the one whose id
      is the active section. */
  lemma AtMostOneActive(ids: seq<string>, active: string)
    requires Distinct(ids)
    ensures forall i, j :: 0 <= i < |ids| && 0 <= j < |ids| && IsActive(active, ids[i]) && IsActive(active, ids[j]) ==> i == j
    ensures forall i :: 0 <= i < |ids| ==> (IsActive(active, ids[i]) <==> ids[i] == active)
  {
  }
}
