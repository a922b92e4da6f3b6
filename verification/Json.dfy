/** JSON as the standard library prints it compactly in ASCII, and as it reads it: all of
    the grammar of RFC 8259, plus the NaN and Infinity literals it also accepts. */
module Json {
  import opened Domain
  import opened Text

  const QUOTE := 34
  const BACKSLASH := 92
  const LETTER_U := 117

  // ---- Surrogates --------------------------------------------------------------

  predicate IsHigh(c: int) { 0xD800 <= c < 0xDC00 }

  predicate IsLow(c: int) { 0xDC00 <= c < 0xE000 }

  function Combine(high: int, low: int): CodePoint
    requires IsHigh(high) && IsLow(low)
  {
    0x10000 + (high - 0xD800) * 0x400 + (low - 0xDC00)
  }

  /** Neighbouring surrogates that make up a pair become the character they encode. */
  function Join(t: Text): Text {
    if |t| >= 2 && IsHigh(t[0]) && IsLow(t[1]) then [Combine(t[0], t[1])] + Join(t[2..])
    else if t == [] then t
    else [t[0]] + Join(t[1..])
  }

  ghost predicate PairFree(t: Text) {
    forall i :: 0 <= i < |t| - 1 ==> !(IsHigh(t[i]) && IsLow(t[i + 1]))
  }

  /** Joining changes a text exactly when it holds a pair of neighbouring surrogates. */
  lemma {:induction false} JoinIdentity(t: Text)
    ensures Join(t) == t <==> PairFree(t)
    ensures |Join(t)| <= |t|
    ensures !PairFree(t) ==> |Join(t)| < |t|
  {
    if |t| >= 2 && IsHigh(t[0]) && IsLow(t[1]) {
      JoinIdentity(t[2..]);
      assert !PairFree(t);
    } else if t != [] {
      JoinIdentity(t[1..]);
      assert t == [t[0]] + t[1..];
      if PairFree(t[1..]) {
        assert PairFree(t) by {
          forall i | 0 <= i < |t| - 1 ensures !(IsHigh(t[i]) && IsLow(t[i + 1])) {
            if i > 0 { assert t[i] == t[1..][i - 1] && t[i + 1] == t[1..][i]; }
          }
        }
      } else {
        var i :| 0 <= i < |t[1..]| - 1 && IsHigh(t[1..][i]) && IsLow(t[1..][i + 1]);
        assert IsHigh(t[i + 1]) && IsLow(t[i + 2]);
      }
    }
  }

  /** A string of scalar values holds no surrogates. */
  lemma ScalarsJoin(s: string)
    ensures PairFree(Points(s)) && Join(Points(s)) == Points(s)
  {
    JoinIdentity(Points(s));
    forall i | 0 <= i < |s| ensures !IsHigh(Points(s)[i]) {
      assert Points(s)[i] == s[i] as int;
    }
  }

  // ---- Strings -------------------------------------------------------------------

  function HexDigit(d: int): CodePoint
    requires 0 <= d < 16
  {
    if d < 10 then 48 + d else 87 + d
  }

  function HexValue(c: CodePoint): (v: int)
    ensures -1 <= v < 16
  {
    if 48 <= c <= 57 then c - 48 else if 97 <= c <= 102 then c - 87 else if 65 <= c <= 70 then c - 55 else -1
  }

  function Hex4(n: int): Text
    requires 0 <= n < 0x10000
  {
    [HexDigit(n / 4096), HexDigit(n / 256 % 16), HexDigit(n / 16 % 16), HexDigit(n % 16)]
  }

  function UnicodeEscape(n: int): Text
    requires 0 <= n < 0x10000
  {
    [BACKSLASH, LETTER_U] + Hex4(n)
  }

  /** The letter of a two-character escape, or 0. */
  function ShortEscape(c: CodePoint): CodePoint {
    if c == 34 then 34 else if c == 92 then 92 else if c == 10 then 110 else if c == 13 then 114
    else if c == 9 then 116 else if c == 12 then 102 else if c == 8 then 98 else 0
  }

  function HighOf(c: int): int
    requires 0x10000 <= c < 0x110000
  {
    0xD800 + (c - 0x10000) / 0x400
  }

  function LowOf(c: int): int
    requires 0x10000 <= c < 0x110000
  {
    0xDC00 + (c - 0x10000) % 0x400
  }

  function EscapeOne(c: CodePoint): Text {
    if ShortEscape(c) != 0 then [BACKSLASH, ShortEscape(c)]
    else if 32 <= c <= 126 then [c]
    else if c < 0x10000 then UnicodeEscape(c)
    else UnicodeEscape(HighOf(c)) + UnicodeEscape(LowOf(c))
  }

  function Escape(t: Text): Text {
    if t == [] then [] else EscapeOne(t[0]) + Escape(t[1..])
  }

  function PrintString(t: Text): Text {
    [QUOTE] + Escape(t) + [QUOTE]
  }

  function ReadHex4(s: Text): (r: Option<int>)
    ensures r.Some? ==> 0 <= r.value < 0x10000
  {
    if |s| >= 4 && HexValue(s[0]) >= 0 && HexValue(s[1]) >= 0 && HexValue(s[2]) >= 0 && HexValue(s[3]) >= 0
    then Some(((HexValue(s[0]) * 16 + HexValue(s[1])) * 16 + HexValue(s[2])) * 16 + HexValue(s[3]))
    else None
  }

  /** The four digits of a low-surrogate escape at the start of `s`. */
  function LowEscapeAhead(s: Text): Option<int> {
    if |s| >= 6 && s[0] == BACKSLASH && s[1] == LETTER_U && ReadHex4(s[2..]).Some? && IsLow(ReadHex4(s[2..]).value)
    then ReadHex4(s[2..]) else None
  }

  function UnescapeLetter(c: CodePoint): Option<CodePoint> {
    if c == 34 then Some(34) else if c == 92 then Some(92) else if c == 47 then Some(47)
    else if c == 110 then Some(10) else if c == 114 then Some(13) else if c == 116 then Some(9)
    else if c == 102 then Some(12) else if c == 98 then Some(8) else None
  }

  /** What follows a backslash. */
  function ReadEscape(s: Text): (r: Option<(CodePoint, Text)>)
    ensures r.Some? ==> |r.value.1| < |s|
  {
    if s == [] then None
    else if s[0] != LETTER_U then
      match UnescapeLetter(s[0])
      case Some(c) => Some((c, s[1..]))
      case None => None
    else match ReadHex4(s[1..])
      case None => None
      case Some(n) =>
        if IsHigh(n) && LowEscapeAhead(s[5..]).Some? then
          Some((Combine(n, LowEscapeAhead(s[5..]).value), s[11..]))
        else Some((n, s[5..]))
  }

  /** The characters up to the closing quote, and what follows it. */
  function ReadBody(s: Text): (r: Option<(Text, Text)>)
    ensures r.Some? ==> |r.value.1| < |s|
    decreases |s|
  {
    if s == [] || s[0] < 32 then None
    else if s[0] == QUOTE then Some(([], s[1..]))
    else if s[0] == BACKSLASH then
      match ReadEscape(s[1..])
      case None => None
      case Some((c, after)) =>
        match ReadBody(after)
        case None => None
        case Some((t, rest)) => Some(([c] + t, rest))
    else
      match ReadBody(s[1..])
      case None => None
      case Some((t, rest)) => Some(([s[0]] + t, rest))
  }

  // ---- Reading back a printed string -------------------------------------------------

  lemma HexDigitReads(d: int)
    requires 0 <= d < 16
    ensures HexValue(HexDigit(d)) == d
  {
  }

  lemma Hex4Reads(n: int, rest: Text)
    requires 0 <= n < 0x10000
    ensures ReadHex4(Hex4(n) + rest) == Some(n)
  {
    var s := Hex4(n) + rest;
    HexDigitReads(n / 4096);
    HexDigitReads(n / 256 % 16);
    HexDigitReads(n / 16 % 16);
    HexDigitReads(n % 16);
    assert s[0] == HexDigit(n / 4096) && s[1] == HexDigit(n / 256 % 16);
    assert s[2] == HexDigit(n / 16 % 16) && s[3] == HexDigit(n % 16);
    Nibbles(n);
  }

  lemma Nibbles(n: int)
    requires 0 <= n < 0x10000
    ensures ((n / 4096 * 16 + n / 256 % 16) * 16 + n / 16 % 16) * 16 + n % 16 == n
  {
  }

  lemma LowAhead(n: int, rest: Text)
    requires 0 <= n < 0x10000
    ensures LowEscapeAhead(UnicodeEscape(n) + rest) == if IsLow(n) then Some(n) else None
  {
    var s := UnicodeEscape(n) + rest;
    assert s[2..] == Hex4(n) + rest;
    Hex4Reads(n, rest);
  }

  /** A lone unit is read back as itself, unless a low one follows a high one. */
  lemma UnitReads(n: int, rest: Text)
    requires 0 <= n < 0x10000
    requires IsHigh(n) ==> LowEscapeAhead(rest).None?
    ensures ReadEscape((UnicodeEscape(n) + rest)[1..]) == Some((n, rest))
  {
    var s := (UnicodeEscape(n) + rest)[1..];
    assert s[1..] == Hex4(n) + rest;
    assert s[5..] == rest;
    Hex4Reads(n, rest);
  }

  lemma PairReads(high: int, low: int, rest: Text)
    requires IsHigh(high) && IsLow(low)
    ensures ReadEscape((UnicodeEscape(high) + (UnicodeEscape(low) + rest))[1..]) == Some((Combine(high, low), rest))
  {
    var s := (UnicodeEscape(high) + (UnicodeEscape(low) + rest))[1..];
    assert s[1..] == Hex4(high) + (UnicodeEscape(low) + rest);
    assert s[5..] == UnicodeEscape(low) + rest;
    assert s[11..] == rest;
    Hex4Reads(high, UnicodeEscape(low) + rest);
    LowAhead(low, rest);
  }

  lemma SplitCombines(c: int)
    requires 0x10000 <= c < 0x110000
    ensures IsHigh(HighOf(c)) && IsLow(LowOf(c)) && Combine(HighOf(c), LowOf(c)) == c
  {
  }

  /** The text of a string literal after its opening quote. */
  function Literal(t: Text, rest: Text): Text {
    Escape(t) + ([QUOTE] + rest)
  }

  lemma LiteralUnfolds(t: Text, rest: Text)
    requires t != []
    ensures Literal(t, rest) == EscapeOne(t[0]) + Literal(t[1..], rest)
  {
  }

  /** No escape of a low surrogate begins the escape of another character. */
  lemma NoLowEscape(c: CodePoint, rest: Text)
    requires !IsLow(c)
    ensures LowEscapeAhead(EscapeOne(c) + rest).None?
  {
    var s := EscapeOne(c) + rest;
    if ShortEscape(c) != 0 {
      assert s[0] == BACKSLASH && s[1] == ShortEscape(c);
    } else if 32 <= c <= 126 {
      assert s[0] == c;
    } else if c < 0x10000 {
      LowAhead(c, rest);
    } else {
      NoLowInPair(c, rest);
    }
  }

  lemma NoLowInPair(c: CodePoint, rest: Text)
    requires c >= 0x10000
    ensures LowEscapeAhead(EscapeOne(c) + rest).None?
  {
    SplitCombines(c);
    LowAhead(HighOf(c), UnicodeEscape(LowOf(c)) + rest);
    assert EscapeOne(c) + rest == UnicodeEscape(HighOf(c)) + (UnicodeEscape(LowOf(c)) + rest);
  }

  /** After a high surrogate no escape of a low one follows, unless the text says so. */
  lemma NoLowAhead(t: Text, rest: Text)
    requires t == [] || !IsLow(t[0])
    ensures LowEscapeAhead(Literal(t, rest)).None?
  {
    if t == [] {
      assert Literal(t, rest) == [QUOTE] + rest;
    } else {
      LiteralUnfolds(t, rest);
      NoLowEscape(t[0], Literal(t[1..], rest));
    }
  }

  /** Reading goes on after one character. */
  function Continue(c: CodePoint, rest: Text): Option<(Text, Text)> {
    match ReadBody(rest)
    case None => None
    case Some((t, after)) => Some(([c] + t, after))
  }

  /** An escape at the start of the text is read, and reading goes on after it. */
  lemma EscapeStep(s: Text, c: CodePoint, rest: Text)
    requires s != [] && s[0] == BACKSLASH && ReadEscape(s[1..]) == Some((c, rest))
    ensures ReadBody(s) == Continue(c, rest)
  {
  }

  lemma ShortReads(c: CodePoint, rest: Text)
    requires ShortEscape(c) != 0
    ensures ReadBody([BACKSLASH, ShortEscape(c)] + rest) == Continue(c, rest)
  {
    var s := [BACKSLASH, ShortEscape(c)] + rest;
    assert s[1..] == [ShortEscape(c)] + rest;
    assert s[1..][1..] == rest;
    EscapeStep(s, c, rest);
  }

  lemma PlainReads(c: CodePoint, rest: Text)
    requires ShortEscape(c) == 0 && 32 <= c <= 126
    ensures ReadBody([c] + rest) == Continue(c, rest)
  {
    assert ([c] + rest)[1..] == rest;
  }

  lemma PairStep(high: int, low: int, rest: Text)
    requires IsHigh(high) && IsLow(low)
    ensures ReadBody(UnicodeEscape(high) + (UnicodeEscape(low) + rest)) == Continue(Combine(high, low), rest)
  {
    PairReads(high, low, rest);
    EscapeStep(UnicodeEscape(high) + (UnicodeEscape(low) + rest), Combine(high, low), rest);
  }

  /** A character other than half of a pair is read back. */
  lemma OneReads(c: CodePoint, rest: Text)
    requires IsHigh(c) ==> LowEscapeAhead(rest).None?
    ensures ReadBody(EscapeOne(c) + rest) == Continue(c, rest)
  {
    if ShortEscape(c) != 0 {
      ShortReads(c, rest);
    } else if 32 <= c <= 126 {
      PlainReads(c, rest);
    } else if c < 0x10000 {
      UnitReads(c, rest);
      EscapeStep(UnicodeEscape(c) + rest, c, rest);
    } else {
      SplitCombines(c);
      assert EscapeOne(c) + rest == UnicodeEscape(HighOf(c)) + (UnicodeEscape(LowOf(c)) + rest);
      PairStep(HighOf(c), LowOf(c), rest);
    }
  }

  lemma EmptyReads(rest: Text)
    ensures ReadBody(Literal([], rest)) == Some(([], rest))
  {
    assert Literal([], rest) == [QUOTE] + rest;
    assert ([QUOTE] + rest)[1..] == rest;
  }

  lemma PairCase(t: Text, rest: Text)
    requires |t| >= 2 && IsHigh(t[0]) && IsLow(t[1])
    ensures ReadBody(Literal(t, rest)) == Continue(Combine(t[0], t[1]), Literal(t[2..], rest))
  {
    var tail := Literal(t[2..], rest);
    LiteralUnfolds(t, rest);
    LiteralUnfolds(t[1..], rest);
    assert t[1..][1..] == t[2..];
    assert EscapeOne(t[0]) == UnicodeEscape(t[0]) && EscapeOne(t[1]) == UnicodeEscape(t[1]);
    PairStep(t[0], t[1], tail);
  }

  lemma OneCase(t: Text, rest: Text)
    requires t != [] && (|t| >= 2 ==> !(IsHigh(t[0]) && IsLow(t[1])))
    ensures ReadBody(Literal(t, rest)) == Continue(t[0], Literal(t[1..], rest))
  {
    LiteralUnfolds(t, rest);
    if IsHigh(t[0]) { NoLowAhead(t[1..], rest); }
    OneReads(t[0], Literal(t[1..], rest));
  }

  /** A printed string reads back as itself with its pairs joined, and no further. */
  lemma {:induction false} BodyReads(t: Text, rest: Text)
    ensures ReadBody(Literal(t, rest)) == Some((Join(t), rest))
    decreases |t|
  {
    if t == [] {
      EmptyReads(rest);
    } else if |t| >= 2 && IsHigh(t[0]) && IsLow(t[1]) {
      PairCase(t, rest);
      BodyReads(t[2..], rest);
    } else {
      OneCase(t, rest);
      BodyReads(t[1..], rest);
    }
  }

  /** Printing is injective, and a printed string ends where it says, up to joined pairs. */
  lemma PrintStringPrefix(a: Text, x: Text, b: Text, y: Text)
    requires PrintString(a) + x == PrintString(b) + y
    ensures Join(a) == Join(b) && x == y
  {
    assert (PrintString(a) + x)[1..] == Literal(a, x);
    assert (PrintString(b) + y)[1..] == Literal(b, y);
    BodyReads(a, x);
    BodyReads(b, y);
  }

  predicate IsAscii(t: Text) {
    forall i :: 0 <= i < |t| ==> 32 <= t[i] < 127
  }

  lemma {:induction false} EscapeIsAscii(t: Text)
    ensures IsAscii(Escape(t))
  {
    if t != [] {
      EscapeIsAscii(t[1..]);
      EscapeOneIsAscii(t[0]);
    }
  }

  lemma EscapeOneIsAscii(c: CodePoint)
    ensures IsAscii(EscapeOne(c))
  {
  }

  // ---- Reading any JSON text ------------------------------------------------------------

  datatype Json =
    | JNull
    | JBool(b: bool)
    | JInt(n: int)
    | JFloat(digits: Text)
    | JString(t: Text)
    | JArray(items: seq<Json>)
    | JObject(members: seq<(Text, Json)>)

  predicate IsBlank(c: CodePoint) { c == 32 || c == 9 || c == 10 || c == 13 }

  function SkipBlank(s: Text): (r: Text)
    ensures |r| <= |s|
  {
    if s != [] && IsBlank(s[0]) then SkipBlank(s[1..]) else s
  }

  predicate IsDigit(c: CodePoint) { 48 <= c <= 57 }

  function DigitRun(s: Text): (n: nat)
    ensures n <= |s|
  {
    if s != [] && IsDigit(s[0]) then 1 + DigitRun(s[1..]) else 0
  }

  function FractionRun(s: Text): (n: nat)
    ensures n <= |s|
  {
    if |s| >= 2 && s[0] == 46 && IsDigit(s[1]) then 1 + DigitRun(s[1..]) else 0
  }

  function ExponentRun(s: Text): (n: nat)
    ensures n <= |s|
  {
    if |s| >= 2 && (s[0] == 101 || s[0] == 69) then
      var signed := if s[1] == 43 || s[1] == 45 then 2 else 1;
      if DigitRun(s[signed..]) > 0 then signed + DigitRun(s[signed..]) else 0
    else 0
  }

  function ReadNumber(s: Text): (r: Option<(Json, Text)>)
    ensures r.Some? ==> |r.value.1| < |s|
  {
    var minus := s != [] && s[0] == 45;
    var u := if minus then s[1..] else s;
    if u == [] || !IsDigit(u[0]) then None else Some(ReadUnsigned(minus, u))
  }

  /** The number after its sign. */
  function ReadUnsigned(minus: bool, u: Text): (r: (Json, Text))
    requires u != [] && IsDigit(u[0])
    ensures |r.1| < |u|
  {
    var w := WholeRun(u);
    var f := FractionRun(u[w..]);
    ReadParts(minus, u, w, f, ExponentRun(u[w + f..]))
  }

  /** The digits before a fraction: a zero stands alone. */
  function WholeRun(u: Text): (n: nat)
    requires u != [] && IsDigit(u[0])
    ensures 0 < n <= |u|
  {
    if u[0] == 48 then 1 else DigitRun(u)
  }

  function ReadParts(minus: bool, u: Text, whole: nat, fraction: nat, exponent: nat): (Json, Text)
    requires whole + fraction + exponent <= |u|
  {
    var end := whole + fraction + exponent;
    if fraction + exponent > 0 then (JFloat(u[..end]), u[end..])
    else (JInt(if minus then -DecimalValue(u[..whole]) else DecimalValue(u[..whole])), u[whole..])
  }

  function AfterWord(s: Text, word: string, value: Json): (r: Option<(Json, Text)>)
    requires |word| > 0
    ensures r.Some? ==> |r.value.1| < |s|
  {
    if Points(word) <= s then Some((value, s[|word|..])) else None
  }

  function ReadValue(s: Text): (r: Option<(Json, Text)>)
    ensures r.Some? ==> |r.value.1| < |s|
    decreases |s|, 0
  {
    if s == [] then None
    else if s[0] == QUOTE then
      match ReadBody(s[1..])
      case Some((t, rest)) => Some((JString(t), rest))
      case None => None
    else if s[0] == 123 then
      var u := SkipBlank(s[1..]);
      if u != [] && u[0] == 125 then Some((JObject([]), u[1..]))
      else match ReadMembers(u)
        case Some((members, rest)) => Some((JObject(members), rest))
        case None => None
    else if s[0] == 91 then
      var u := SkipBlank(s[1..]);
      if u != [] && u[0] == 93 then Some((JArray([]), u[1..]))
      else match ReadItems(u)
        case Some((items, rest)) => Some((JArray(items), rest))
        case None => None
    else if s[0] == 110 then AfterWord(s, "null", JNull)
    else if s[0] == 116 then AfterWord(s, "true", JBool(true))
    else if s[0] == 102 then AfterWord(s, "false", JBool(false))
    else if s[0] == 78 then AfterWord(s, "NaN", JFloat(Points("NaN")))
    else if s[0] == 73 then AfterWord(s, "Infinity", JFloat(Points("Infinity")))
    else if Points("-Infinity") <= s then AfterWord(s, "-Infinity", JFloat(Points("-Infinity")))
    else ReadNumber(s)
  }

  /** One or more `"key": value` members, up to and including the closing brace. */
  function ReadMembers(s: Text): (r: Option<(seq<(Text, Json)>, Text)>)
    ensures r.Some? ==> |r.value.1| < |s|
    decreases |s|, 1
  {
    if s == [] || s[0] != QUOTE then None
    else match ReadBody(s[1..])
      case None => None
      case Some((key, afterKey)) =>
        var colon := SkipBlank(afterKey);
        if colon == [] || colon[0] != 58 then None
        else match ReadValue(SkipBlank(colon[1..]))
          case None => None
          case Some((value, afterValue)) =>
            var next := SkipBlank(afterValue);
            if next == [] then None
            else if next[0] == 125 then Some(([(key, value)], next[1..]))
            else if next[0] != 44 then None
            else match ReadMembers(SkipBlank(next[1..]))
              case None => None
              case Some((members, rest)) => Some(([(key, value)] + members, rest))
  }

  /** One or more array items, up to and including the closing bracket. */
  function ReadItems(s: Text): (r: Option<(seq<Json>, Text)>)
    ensures r.Some? ==> |r.value.1| < |s|
    decreases |s|, 1
  {
    match ReadValue(s)
    case None => None
    case Some((value, afterValue)) =>
      var next := SkipBlank(afterValue);
      if next == [] then None
      else if next[0] == 93 then Some(([value], next[1..]))
      else if next[0] != 44 then None
      else match ReadItems(SkipBlank(next[1..]))
        case None => None
        case Some((items, rest)) => Some(([value] + items, rest))
  }

  /** `json.loads`. */
  function Loads(s: Text): Option<Json> {
    match ReadValue(SkipBlank(s))
    case Some((value, rest)) => if SkipBlank(rest) == [] then Some(value) else None
    case None => None
  }

  /** A dictionary keeps the last value given for a key. */
  function Get(members: seq<(Text, Json)>, key: Text): Option<Json> {
    if members == [] then None
    else if members[|members| - 1].0 == key then Some(members[|members| - 1].1)
    else Get(members[..|members| - 1], key)
  }
}
