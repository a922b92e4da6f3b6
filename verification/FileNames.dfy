/** What a sanitised file name is: the name without its white-space ends, two dots made one from
    left to right, and a dash for each slash and backslash. */
module FileNames {
  import opened Domain
  import opened Text
  import opened Namespaces

  // ---- White-space ends ---------------------------------------------------------------

  /** The code points Python strips, one by one. */
  const SPACES: set<int> := {
    0x09, 0x0A, 0x0B, 0x0C, 0x0D, 0x1C, 0x1D, 0x1E, 0x1F, 0x20, 0x85, 0xA0, 0x1680,
    0x2000, 0x2001, 0x2002, 0x2003, 0x2004, 0x2005, 0x2006, 0x2007, 0x2008, 0x2009, 0x200A,
    0x2028, 0x2029, 0x202F, 0x205F, 0x3000}

  predicate White(s: string) {
    forall i :: 0 <= i < |s| ==> s[i] as int in SPACES
  }

  predicate Trimmed(s: string) {
    s != [] ==> s[0] as int !in SPACES && s[|s| - 1] as int !in SPACES
  }

  lemma SpacePoints(n: int)
    ensures IsSpacePoint(n) <==> n in SPACES
  {
  }

  /** A text is blank exactly if it consists of those. */
  lemma BlankIsWhite(s: string)
    ensures Blank(Points(s)) <==> White(s)
  {
    forall i | 0 <= i < |s| ensures IsSpacePoint(Points(s)[i]) <==> s[i] as int in SPACES {
      SpacePoints(s[i] as int);
    }
  }

  lemma {:induction false} FrontStrips(a: string, s: string)
    requires White(a)
    ensures Strip(a + s) == Strip(s)
  {
    if a == [] {
      assert a + s == s;
    } else {
      SpacePoints(a[0] as int);
      assert (a + s)[1..] == a[1..] + s;
      FrontStrips(a[1..], s);
    }
  }

  lemma {:induction false} BackStrips(t: string, b: string)
    requires t != [] && Trimmed(t) && White(b)
    ensures Strip(t + b) == t
    decreases |b|
  {
    var s := t + b;
    SpacePoints(t[0] as int);
    if b == [] {
      assert s == t;
      SpacePoints(t[|t| - 1] as int);
    } else {
      assert s[|s| - 1] == b[|b| - 1] && s[..|s| - 1] == t + b[..|b| - 1];
      SpacePoints(b[|b| - 1] as int);
      BackStrips(t, b[..|b| - 1]);
    }
  }

  /** Stripping takes white space off both ends and nothing else: whichever way a text is split
      into white space, a trimmed middle and white space, the middle is what is left. */
  lemma StripExactly(a: string, t: string, b: string)
    requires White(a) && Trimmed(t) && White(b)
    ensures Strip(a + t + b) == t
  {
    assert a + t + b == a + (t + b);
    FrontStrips(a, t + b);
    if t == [] {
      assert t + b == b;
      BlankStrips(b);
    } else {
      BackStrips(t, b);
    }
  }

  lemma {:induction false} BlankStrips(s: string)
    requires White(s)
    ensures Strip(s) == []
    decreases |s|
  {
    if s != [] {
      SpacePoints(s[0] as int);
      BlankStrips(s[1..]);
    }
  }

  lemma FrontJoins(s: string, a: string, t: string, b: string)
    requires s != [] && s[1..] == a + t + b
    ensures s == ([s[0]] + a) + t + b
  {
    assert s == [s[0]] + s[1..];
  }

  lemma BackJoins(s: string, a: string, t: string, b: string)
    requires s != [] && s[..|s| - 1] == a + t + b
    ensures s == a + t + (b + [s[|s| - 1]])
  {
    assert s == s[..|s| - 1] + [s[|s| - 1]];
  }

  /** Every text splits so. */
  lemma {:induction false} StripSplits(s: string) returns (a: string, b: string)
    ensures s == a + Strip(s) + b && White(a) && White(b) && Trimmed(Strip(s))
    decreases |s|
  {
    a, b := [], [];
    if s != [] {
      SpacePoints(s[0] as int);
      SpacePoints(s[|s| - 1] as int);
      if IsSpace(s[0]) {
        var front;
        front, b := StripSplits(s[1..]);
        a := [s[0]] + front;
        FrontJoins(s, front, Strip(s), b);
      } else if IsSpace(s[|s| - 1]) {
        var back;
        a, back := StripSplits(s[..|s| - 1]);
        b := back + [s[|s| - 1]];
        BackJoins(s, a, Strip(s), back);
      }
    }
  }

  // ---- Dots -------------------------------------------------------------------------------

  predicate TwoDotsAt(s: string, i: nat) {
    i + 1 < |s| && s[i] == '.' && s[i + 1] == '.'
  }

  ghost predicate NoTwoDots(s: string) {
    forall i: nat :: !TwoDotsAt(s, i)
  }

  lemma NoTwoDotsTail(s: string)
    requires NoTwoDots(s) && s != []
    ensures NoTwoDots(s[1..])
  {
    forall i: nat ensures !TwoDotsAt(s[1..], i) {
      assert !TwoDotsAt(s, i + 1);
    }
  }

  /** A name without two dots in a row stays as it is. */
  lemma {:induction false} DotsKept(s: string)
    requires NoTwoDots(s)
    ensures MergeDots(s) == s
  {
    if s != [] {
      assert !TwoDotsAt(s, 0);
      NoTwoDotsTail(s);
      DotsKept(s[1..]);
      assert s == [s[0]] + s[1..];
    }
  }

  /** The first two dots in a row become one, and what follows them is treated alike. */
  lemma {:induction false} FirstDotsMerge(a: string, b: string)
    requires NoTwoDots(a + ".")
    ensures MergeDots(a + ".." + b) == a + "." + MergeDots(b)
  {
    var s := a + ".." + b;
    if a == [] {
      assert s[2..] == b;
    } else {
      assert !TwoDotsAt(a + ".", 0);
      assert (a + ".")[1..] == a[1..] + ".";
      NoTwoDotsTail(a + ".");
      assert s[1..] == a[1..] + ".." + b;
      FirstDotsMerge(a[1..], b);
      assert a == [a[0]] + a[1..];
    }
  }

  /** Every name with two dots in a row splits before the first such place. */
  lemma {:induction false} FirstDots(s: string) returns (a: string, b: string)
    requires !NoTwoDots(s)
    ensures s == a + ".." + b && NoTwoDots(a + ".")
  {
    if TwoDotsAt(s, 0) {
      a, b := "", s[2..];
    } else {
      var i: nat :| TwoDotsAt(s, i);
      assert TwoDotsAt(s[1..], i - 1);
      var rest;
      rest, b := FirstDots(s[1..]);
      a := [s[0]] + rest;
      forall j: nat ensures !TwoDotsAt(a + ".", j) {
        if j > 0 { assert !TwoDotsAt(rest + ".", j - 1); }
        if j == 0 && rest == [] { assert s[1] == '.'; }
      }
    }
  }

  // ---- The whole name --------------------------------------------------------------------

  /** A dash for each slash and backslash, all other characters as they are. */
  predicate Dashed(t: string, name: string) {
    |name| == |t| && forall i :: 0 <= i < |t| ==>
      name[i] == if t[i] == '/' || t[i] == '\\' then '-' else t[i]
  }

  /** A name with no white-space ends, no two dots in a row, no slash and no backslash is kept. */
  lemma PlainNameKept(f: string)
    requires Trimmed(f) && NoTwoDots(f) && '/' !in f && '\\' !in f
    ensures SanitizeFilename(f) == f
  {
    assert [] + f + [] == f;
    StripExactly([], f, []);
    DotsKept(f);
  }

  /** Without two dots in a row the sanitised name is the trimmed one with dashes. */
  lemma NameWithoutDots(a: string, t: string, b: string)
    requires White(a) && Trimmed(t) && White(b) && NoTwoDots(t)
    ensures Dashed(t, SanitizeFilename(a + t + b))
  {
    StripExactly(a, t, b);
    DotsKept(t);
  }

  /** With them, the first two dots of the trimmed name become one, and so on to the right. */
  lemma NameWithDots(a: string, x: string, y: string, b: string)
    requires White(a) && Trimmed(x + ".." + y) && White(b) && NoTwoDots(x + ".")
    ensures Dashed(x + "." + MergeDots(y), SanitizeFilename(a + (x + ".." + y) + b))
  {
    StripExactly(a, x + ".." + y, b);
    FirstDotsMerge(x, y);
  }
}
