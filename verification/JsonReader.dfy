/** What the JSON reader takes for a number, a blank and an escape: the rules of RFC 8259,
    sections 2, 6 and 7. */
module JsonReader {
  import opened Domain
  import opened Text
  import opened Json
  import CursorProof

  // ---- Numbers ------------------------------------------------------------------------

  predicate Digits(t: Text) {
    t != [] && forall i :: 0 <= i < |t| ==> 48 <= t[i] <= 57
  }

  /** No leading zero. */
  predicate Whole(t: Text) {
    Digits(t) && (t[0] == 48 ==> |t| == 1)
  }

  predicate Fraction(t: Text) {
    t != [] ==> t[0] == 46 && Digits(t[1..])
  }

  predicate Exponent(t: Text) {
    t != [] ==> (t[0] == 101 || t[0] == 69)
                && (Digits(t[1..]) || (|t| > 1 && (t[1] == 43 || t[1] == 45) && Digits(t[2..])))
  }

  /** The parts of a number, and whether its sign is a minus. */
  datatype Number = Number(minus: bool, whole: Text, fraction: Text, exponent: Text)
  {
    predicate Valid() {
      Whole(whole) && Fraction(fraction) && Exponent(exponent)
    }

    function Text(): Text {
      (if minus then [45] else []) + (whole + (fraction + exponent))
    }

    /** Integers are read as integers; what has a fraction or an exponent is another kind of value. */
    predicate Means(v: Json) {
      if fraction == [] && exponent == [] then
        v == JInt(if minus then -DecimalValue(whole) else DecimalValue(whole))
      else v.JFloat?
    }
  }

  lemma {:induction false} RunMeans(s: Text)
    ensures var n := DigitRun(s);
            && (forall i :: 0 <= i < n ==> 48 <= s[i] <= 57) && (n < |s| ==> !(48 <= s[n] <= 57))
  {
    if s != [] && IsDigit(s[0]) {
      RunMeans(s[1..]);
      forall i | 0 <= i < DigitRun(s) ensures 48 <= s[i] <= 57 {
        assert i > 0 ==> s[i] == s[1..][i - 1];
      }
    }
  }

  lemma FractionRead(s: Text)
    ensures Fraction(s[..FractionRun(s)])
  {
    if FractionRun(s) > 0 {
      RunMeans(s[1..]);
      var t := s[..FractionRun(s)];
      assert t[1..] == s[1..][..DigitRun(s[1..])];
    }
  }

  lemma ExponentRead(s: Text)
    ensures Exponent(s[..ExponentRun(s)])
  {
    if ExponentRun(s) > 0 {
      var signed := if s[1] == 43 || s[1] == 45 then 2 else 1;
      RunMeans(s[signed..]);
      var t := s[..ExponentRun(s)];
      assert t[signed..] == s[signed..][..DigitRun(s[signed..])];
    }
  }

  lemma SignedReads(minus: bool, u: Text)
    requires u != [] && IsDigit(u[0])
    ensures ReadNumber((if minus then [45] else []) + u) == Some(ReadUnsigned(minus, u))
  {
    var s := (if minus then [45] else []) + u;
    assert minus ==> s[1..] == u;
    assert !minus ==> s == u;
  }

  /** A text that is not begun by a number is refused. */
  lemma NumberBegins(s: Text)
    ensures ReadNumber(s).Some? <==>
            (s != [] && 48 <= s[0] <= 57) || (|s| > 1 && s[0] == 45 && 48 <= s[1] <= 57)
  {
  }

  /** Only numbers are read as numbers, and what is read is the number's value. */
  lemma NumberSound(s: Text) returns (n: Number)
    requires ReadNumber(s).Some?
    ensures n.Valid() && s == n.Text() + ReadNumber(s).value.1 && n.Means(ReadNumber(s).value.0)
  {
    NumberBegins(s);
    var minus := s[0] == 45;
    var u := if minus then s[1..] else s;
    assert s == (if minus then [45] else []) + u;
    SignedReads(minus, u);
    n := UnsignedSound(minus, u);
    SignJoins(minus, n.whole + (n.fraction + n.exponent), ReadUnsigned(minus, u).1);
  }

  lemma UnsignedSound(minus: bool, u: Text) returns (n: Number)
    requires u != [] && IsDigit(u[0])
    ensures n.Valid() && n.minus == minus && n.Means(ReadUnsigned(minus, u).0)
    ensures u == (n.whole + (n.fraction + n.exponent)) + ReadUnsigned(minus, u).1
  {
    var w := WholeRun(u);
    var f := FractionRun(u[w..]);
    var e := ExponentRun(u[w + f..]);
    n := Number(minus, u[..w], u[w..][..f], u[w + f..][..e]);
    WholeRead(u);
    FractionRead(u[w..]);
    ExponentRead(u[w + f..]);
    PartsJoin(u, w, f, e);
    PartsMean(n, minus, u, w, f, e);
  }

  lemma PartsMean(n: Number, minus: bool, u: Text, w: nat, f: nat, e: nat)
    requires w + f + e <= |u| && n == Number(minus, u[..w], u[w..][..f], u[w + f..][..e])
    ensures n.Means(ReadParts(minus, u, w, f, e).0) && ReadParts(minus, u, w, f, e).1 == u[w + f + e..]
  {
  }

  lemma SignJoins(minus: bool, t: Text, rest: Text)
    ensures (if minus then [45] else []) + (t + rest) == ((if minus then [45] else []) + t) + rest
  {
  }

  lemma WholeRead(u: Text)
    requires u != [] && IsDigit(u[0])
    ensures Whole(u[..WholeRun(u)])
  {
    RunMeans(u);
  }

  lemma PartsJoin(u: Text, whole: nat, f: nat, e: nat)
    requires whole + f + e <= |u|
    ensures u == (u[..whole] + (u[whole..][..f] + u[whole + f..][..e])) + u[whole + f + e..]
  {
  }

  /** Every number is read whole before a comma, a bracket, a blank or the end. */
  predicate Delimits(rest: Text) {
    rest == [] || !(48 <= rest[0] <= 57 || rest[0] == 46 || rest[0] == 101 || rest[0] == 69)
  }

  lemma {:induction false} RunsTo(d: Text, rest: Text)
    requires forall i :: 0 <= i < |d| ==> 48 <= d[i] <= 57
    requires rest != [] ==> !(48 <= rest[0] <= 57)
    ensures DigitRun(d + rest) == |d|
  {
    if d == [] {
      assert d + rest == rest;
    } else {
      assert (d + rest)[1..] == d[1..] + rest;
      RunsTo(d[1..], rest);
    }
  }

  lemma FractionRuns(f: Text, rest: Text)
    requires Fraction(f) && (rest != [] ==> !(48 <= rest[0] <= 57) && rest[0] != 46)
    ensures FractionRun(f + rest) == |f|
  {
    if f != [] {
      assert (f + rest)[1..] == f[1..] + rest;
      RunsTo(f[1..], rest);
    } else {
      assert f + rest == rest;
    }
  }

  lemma ExponentRuns(e: Text, rest: Text)
    requires Exponent(e) && Delimits(rest)
    ensures ExponentRun(e + rest) == |e|
  {
    var s := e + rest;
    if e == [] {
      assert s == rest;
    } else {
      var signed := if s[1] == 43 || s[1] == 45 then 2 else 1;
      assert s[signed..] == e[signed..] + rest;
      RunsTo(e[signed..], rest);
    }
  }

  lemma NumberComplete(n: Number, rest: Text)
    requires n.Valid() && Delimits(rest)
    ensures var r := ReadNumber(n.Text() + rest); r.Some? && r.value.1 == rest && n.Means(r.value.0)
  {
    var u := n.whole + (n.fraction + (n.exponent + rest));
    TextJoins(n, rest);
    UnsignedComplete(n, u, rest);
  }

  lemma TextJoins(n: Number, rest: Text)
    ensures n.Text() + rest == (if n.minus then [45] else []) + (n.whole + (n.fraction + (n.exponent + rest)))
  {
    var t := n.whole + (n.fraction + n.exponent);
    assert t + rest == n.whole + (n.fraction + (n.exponent + rest));
    SignJoins(n.minus, t, rest);
  }

  lemma UnsignedUnfolds(minus: bool, u: Text, w: nat, f: nat, e: nat)
    requires u != [] && IsDigit(u[0]) && w == WholeRun(u) && w + f + e <= |u|
    requires f == FractionRun(u[w..]) && e == ExponentRun(u[w + f..])
    ensures ReadUnsigned(minus, u) == ReadParts(minus, u, w, f, e)
  {
  }

  lemma UnsignedComplete(n: Number, u: Text, rest: Text)
    requires n.Valid() && Delimits(rest) && u == n.whole + (n.fraction + (n.exponent + rest))
    ensures var r := ReadNumber((if n.minus then [45] else []) + u);
            r.Some? && r.value.1 == rest && n.Means(r.value.0)
  {
    var w, f, e := |n.whole|, |n.fraction|, |n.exponent|;
    WholeRuns(n, rest);
    UnsignedUnfolds(n.minus, u, w, f, e);
    CompletePartsMean(n, u, rest);
    SignedReads(n.minus, u);
  }

  lemma CompletePartsMean(n: Number, u: Text, rest: Text)
    requires u == n.whole + (n.fraction + (n.exponent + rest))
    ensures var r := ReadParts(n.minus, u, |n.whole|, |n.fraction|, |n.exponent|);
            r.1 == rest && n.Means(r.0)
  {
    PartsAt(n, rest);
    PartsMean(n, n.minus, u, |n.whole|, |n.fraction|, |n.exponent|);
    assert u[|n.whole| + |n.fraction| + |n.exponent|..] == rest;
  }

  lemma PartsAt(n: Number, rest: Text)
    ensures var u := n.whole + (n.fraction + (n.exponent + rest));
            var w, f, e := |n.whole|, |n.fraction|, |n.exponent|;
            u[..w] == n.whole && u[w..][..f] == n.fraction && u[w + f..][..e] == n.exponent
  {
    var u := n.whole + (n.fraction + (n.exponent + rest));
    assert u[|n.whole|..] == n.fraction + (n.exponent + rest);
    assert u[|n.whole| + |n.fraction|..] == n.exponent + rest;
  }

  lemma WholeRuns(n: Number, rest: Text)
    requires n.Valid() && Delimits(rest)
    ensures var u := n.whole + (n.fraction + (n.exponent + rest));
            var w, f, e := |n.whole|, |n.fraction|, |n.exponent|;
            && u != [] && IsDigit(u[0]) && WholeRun(u) == w
            && FractionRun(u[w..]) == f && ExponentRun(u[w + f..]) == e
            && u[..w] == n.whole && u[w + f + e..] == rest
  {
    var tail := n.fraction + (n.exponent + rest);
    var u := n.whole + tail;
    RunsTo(n.whole, tail);
    FractionRuns(n.fraction, n.exponent + rest);
    ExponentRuns(n.exponent, rest);
    assert u[|n.whole|..] == tail;
    assert u[|n.whole| + |n.fraction|..] == n.exponent + rest;
  }

  // ---- Blanks and escapes ---------------------------------------------------------------

  /** Exactly space, tab, line feed and carriage return are skipped, as many as there are. */
  lemma {:induction false} BlanksSkipped(b: Text, s: Text)
    requires forall i :: 0 <= i < |b| ==> b[i] in {32, 9, 10, 13}
    requires s != [] ==> s[0] !in {32, 9, 10, 13}
    ensures SkipBlank(b + s) == s
  {
    if b == [] {
      assert b + s == s;
    } else {
      assert (b + s)[1..] == b[1..] + s;
      BlanksSkipped(b[1..], s);
    }
  }

  /** The eight letters that may follow a backslash, besides `u`, and what they stand for. */
  lemma LettersRead(c: CodePoint)
    ensures UnescapeLetter(c)
            == if c == '"' as int then Some(34) else if c == '\\' as int then Some(92)
               else if c == '/' as int then Some(47)
               else if c == 'b' as int then Some(8) else if c == 'f' as int then Some(12)
               else if c == 'n' as int then Some(10) else if c == 'r' as int then Some(13)
               else if c == 't' as int then Some(9) else None
  {
  }

  /** Hexadecimal digits count in either case. */
  lemma HexRead(d: int)
    requires 0 <= d < 16
    ensures HexValue(if d < 10 then '0' as int + d else 'a' as int + d - 10) == d
    ensures HexValue(if d < 10 then '0' as int + d else 'A' as int + d - 10) == d
  {
  }

  /** A raw control character, or no closing quote, is no string. */
  lemma {:induction false} StringsStrict(s: Text, i: nat)
    requires i <= |s| && (forall j :: 0 <= j < i ==> s[j] != QUOTE && s[j] != BACKSLASH)
    requires i < |s| ==> s[i] < 32
    ensures ReadBody(s).None?
    decreases i
  {
    if i > 0 { StringsStrict(s[1..], i - 1); }
  }
}
