/**
  The string helpers the components call: `trim`, `toLowerCase` and the
  `/\s+/g` replacement of the card slugs. Whitespace and case are
  restricted to ASCII.
 */
module Text {

  /** The ASCII characters JavaScript's `\s` matches and `trim` removes:
      space, tab, line feed, vertical tab, form feed, carriage return. */
  predicate IsSpace(c: char) {
    c == ' ' || c == '\t' || c == '\n' || c == '\U{0B}' || c == '\U{0C}' || c == '\r'
  }

  predicate IsUpper(c: char) {
    'A' <= c <= 'Z'
  }

  predicate NoSpace(s: string) {
    forall i :: 0 <= i < |s| ==> !IsSpace(s[i])
  }

  predicate AllSpace(s: string) {
    forall i :: 0 <= i < |s| ==> IsSpace(s[i])
  }

  predicate NoUpper(s: string) {
    forall i :: 0 <= i < |s| ==> !IsUpper(s[i])
  }

  function LowerChar(c: char): char {
    if IsUpper(c) then (c as int + 32) as char else c
  }

  /** `toLowerCase` on ASCII: letters A-Z map to a-z, everything else is kept. */
  function Lower(s: string): (r: string)
    ensures |r| == |s|
    ensures NoUpper(r)
    ensures forall i :: 0 <= i < |s| && IsUpper(s[i]) ==> r[i] as int == s[i] as int + 32
    ensures forall i :: 0 <= i < |s| && !IsUpper(s[i]) ==> r[i] == s[i]
    ensures forall i :: 0 <= i < |s| ==> (IsSpace(r[i]) <==> IsSpace(s[i]))
    ensures NoUpper(s) ==> r == s
  {
    seq(|s|, i requires 0 <= i < |s| => LowerChar(s[i]))
  }

  /** Drops the leading whitespace. */
  function TrimStart(s: string): (r: string)
    ensures |r| <= |s| && r == s[|s| - |r|..]
    ensures AllSpace(s[..|s| - |r|])
    ensures |r| > 0 ==> !IsSpace(r[0])
    ensures |s| > 0 && IsSpace(s[0]) ==> |r| < |s|
  {
    if |s| > 0 && IsSpace(s[0]) then
      var r := TrimStart(s[1..]);
      assert s[..|s| - |r|] == [s[0]] + s[1..][..|s[1..]| - |r|];
      r
    else s
  }

  /** Drops the trailing whitespace. */
  function TrimEnd(s: string): (r: string)
    ensures |r| <= |s| && r == s[..|r|]
    ensures AllSpace(s[|r|..])
    ensures |r| > 0 ==> !IsSpace(r[|r| - 1])
  {
    if |s| > 0 && IsSpace(s[|s| - 1]) then TrimEnd(s[..|s| - 1]) else s
  }

  /** `trim`: the input without its leading and trailing whitespace. */
  function Trim(s: string): (r: string)
    ensures |r| <= |s|
    ensures |r| > 0 ==> !IsSpace(r[0]) && !IsSpace(r[|r| - 1])
    ensures r == "" <==> AllSpace(s)
  {
    var t := TrimStart(s);
    var r := TrimEnd(t);
    assert r == "" ==> AllSpace(s) by {
      if r == "" {
        assert s == s[..|s| - |t|] + t;
        assert AllSpace(t) by { assert t[|r|..] == t; }
      }
    }
    r
  }

  /** A string with no whitespace at either end is its own trim. */
  lemma TrimUnpadded(s: string)
    requires |s| > 0 && !IsSpace(s[0]) && !IsSpace(s[|s| - 1])
    ensures Trim(s) == s
  {
  }

  /** Padding a string that has no whitespace at its ends is undone by `Trim`. */
  lemma {:induction false} TrimPadded(left: string, core: string, right: string)
    requires AllSpace(left) && AllSpace(right)
    requires |core| > 0 ==> !IsSpace(core[0]) && !IsSpace(core[|core| - 1])
    ensures Trim(left + core + right) == core
  {
    var s := left + core + right;
    if |core| == 0 {
      assert AllSpace(s) by { assert s == left + right; }
    } else {
      TrimStartPadded(left, core + right);
      assert TrimStart(s) == core + right by { assert s == left + (core + right); }
      TrimEndPadded(core, right);
    }
  }

  lemma {:induction false} TrimStartPadded(left: string, rest: string)
    requires AllSpace(left)
    requires |rest| > 0 ==> !IsSpace(rest[0])
    ensures TrimStart(left + rest) == rest
    decreases |left|
  {
    if |left| > 0 {
      assert (left + rest)[1..] == left[1..] + rest;
      TrimStartPadded(left[1..], rest);
    } else {
      assert left + rest == rest;
    }
  }

  lemma {:induction false} TrimEndPadded(rest: string, right: string)
    requires AllSpace(right)
    requires |rest| > 0 ==> !IsSpace(rest[|rest| - 1])
    ensures TrimEnd(rest + right) == rest
    decreases |right|
  {
    if |right| > 0 {
      assert (rest + right)[..|rest + right| - 1] == rest + right[..|right| - 1];
      TrimEndPadded(rest, right[..|right| - 1]);
    } else {
      assert rest + right == rest;
    }
  }

  /** The `replace(/\s+/g, "-")` scan: every maximal run of whitespace
      becomes a single `-`; every other character is kept in place.
      `inRun` records that the previous character was whitespace, so the
      run has already produced its dash. */
  function DashRuns(s: string, inRun: bool): (r: string)
    ensures NoSpace(r)
    ensures |r| <= |s|
    ensures NoUpper(s) ==> NoUpper(r)
  {
    if |s| == 0 then ""
    else if IsSpace(s[0]) then (if inRun then "" else "-") + DashRuns(s[1..], true)
    else [s[0]] + DashRuns(s[1..], false)
  }

  function DashSpaceRuns(s: string): string {
    DashRuns(s, false)
  }

  /** The title slug of the cards: `title.toLowerCase().replace(/\s+/g, "-")`. */
  function Slug(title: string): (r: string)
    ensures NoSpace(r) && NoUpper(r)
  {
    DashSpaceRuns(Lower(title))
  }

  /** A string with no whitespace passes through the replacement unchanged. */
  lemma {:induction false} DashRunsNoSpace(s: string)
    requires NoSpace(s)
    ensures DashRuns(s, false) == s
  {
    if |s| > 0 {
      DashRunsNoSpace(s[1..]);
      assert [s[0]] + s[1..] == s;
    }
  }

  /** A title with no whitespace slugs to its lower-cased form. */
  lemma SlugWord(title: string)
    requires NoSpace(title)
    ensures Slug(title) == Lower(title)
  {
    DashRunsNoSpace(Lower(title));
  }

  /** Re-slugging a slug changes nothing. */
  lemma SlugIdempotent(title: string)
    ensures Slug(Slug(title)) == Slug(title)
  {
    var s := Slug(title);
    assert Lower(s) == s;
    DashRunsNoSpace(s);
  }

  /** Inside a run, further whitespace adds nothing. */
  lemma {:induction false} DashRunsInRun(run: string, b: string)
    requires AllSpace(run)
    ensures DashRuns(run + b, true) == DashRuns(b, true)
  {
    if |run| > 0 {
      assert (run + b)[1..] == run[1..] + b;
      DashRunsInRun(run[1..], b);
    } else {
      assert run + b == b;
    }
  }

  /** The replacement distributes over a split between two characters
      that are not both whitespace. */
  lemma {:induction false} DashRunsAppend(a: string, b: string, inRun: bool)
    requires |a| > 0
    ensures DashRuns(a + b, inRun) == DashRuns(a, inRun) + DashRuns(b, IsSpace(a[|a| - 1]))
  {
    assert (a + b)[0] == a[0];
    assert (a + b)[1..] == a[1..] + b;
    if |a| > 1 {
      DashRunsAppend(a[1..], b, IsSpace(a[0]));
      assert a[1..][|a[1..]| - 1] == a[|a| - 1];
    } else {
      assert a[1..] == [];
      assert a[1..] + b == b;
    }
  }

  /** One whitespace run between two words becomes exactly one dash. */
  lemma DashSpaceRunsSplit(a: string, run: string, b: string)
    requires |a| > 0 ==> !IsSpace(a[|a| - 1])
    requires |run| > 0 && AllSpace(run)
    requires |b| > 0 ==> !IsSpace(b[0])
    ensures DashSpaceRuns(a + run + b) == DashSpaceRuns(a) + "-" + DashSpaceRuns(b)
  {
    var rb := run + b;
    assert DashRuns(rb, false) == "-" + DashRuns(b, true) by {
      assert rb[1..] == run[1..] + b;
      DashRunsInRun(run[1..], b);
    }
    assert DashRuns(b, true) == DashRuns(b, false) by {
      if |b| > 0 { assert !IsSpace(b[0]); }
    }
    if |a| > 0 {
      DashRunsAppend(a, rb, false);
      assert a + run + b == a + rb;
    } else {
      assert a + run + b == rb;
    }
  }

  /** The slug of two blank-free words joined by whitespace is their
      lower-cased forms joined by one dash. */
  lemma SlugWords(a: string, run: string, b: string)
    requires |a| > 0 && |b| > 0 && NoSpace(a) && NoSpace(b)
    requires |run| > 0 && AllSpace(run)
    ensures Slug(a + run + b) == Lower(a) + "-" + Lower(b)
  {
    var la, lr, lb := Lower(a), Lower(run), Lower(b);
    assert Lower(a + run + b) == la + lr + lb;
    assert AllSpace(lr) by {
      assert forall i :: 0 <= i < |run| ==> IsSpace(lr[i]);
    }
    assert NoSpace(la) && NoSpace(lb);
    DashSpaceRunsSplit(la, lr, lb);
    DashRunsNoSpace(la);
    DashRunsNoSpace(lb);
  }
}
