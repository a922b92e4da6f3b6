/** The fingerprint's text, held against the JSON reader: it is one object whose keys come in
    alphabetical order and whose values are those of the upload. */
module FingerprintText {
  import opened Domain
  import opened Text
  import opened Json
  import opened ClaimProtocol
  import opened Fingerprint
  import CursorProof

  // ---- Printed strings, character by character ---------------------------------------------

  /** A character printed as itself. */
  predicate PlainPoint(c: CodePoint) {
    32 <= c <= 126 && c != 34 && c != 92
  }

  predicate PlainText(t: Text) {
    forall i :: 0 <= i < |t| ==> PlainPoint(t[i])
  }

  lemma {:induction false} PlainEscapes(t: Text)
    requires PlainText(t)
    ensures Escape(t) == t
  {
    if t != [] {
      assert PlainPoint(t[0]);
      PlainEscapes(t[1..]);
      assert t == [t[0]] + t[1..];
    }
  }

  /** Four lower-case hexadecimal digits of this value. */
  predicate Digits4(x: Text, n: int) {
    && |x| == 4 && (forall i :: 0 <= i < 4 ==> 48 <= x[i] <= 57 || 97 <= x[i] <= 102)
    && HexValue(x[0]) * 4096 + HexValue(x[1]) * 256 + HexValue(x[2]) * 16 + HexValue(x[3]) == n
  }

  lemma Hex4Digits(n: int)
    requires 0 <= n < 0x10000
    ensures Digits4(Hex4(n), n)
  {
    HexDigitReads(n / 4096);
    HexDigitReads(n / 256 % 16);
    HexDigitReads(n / 16 % 16);
    HexDigitReads(n % 16);
    Nibbles(n);
  }

  /** A code point over U+FFFF is printed as its surrogate pair. */
  predicate PairDigits(e: Text, c: CodePoint, high: int, low: int) {
    && |e| == 12 && e[..2] == Points("\\u") && e[6..8] == Points("\\u")
    && 0xD800 <= high < 0xDC00 && 0xDC00 <= low < 0xE000
    && Digits4(e[2..6], high) && Digits4(e[8..], low)
    && c == 0x10000 + (high - 0xD800) * 0x400 + (low - 0xDC00)
  }

  /** How each character is printed: the short escapes, other printable ASCII as it is, and the rest
      by one `\u` escape or the two of its surrogate pair. */
  lemma EscapesMean(c: CodePoint)
    ensures var e := EscapeOne(c);
            if c == 34 then e == Points("\\\"") else if c == 92 then e == Points("\\\\")
            else if c == 8 then e == Points("\\b") else if c == 9 then e == Points("\\t")
            else if c == 10 then e == Points("\\n") else if c == 12 then e == Points("\\f")
            else if c == 13 then e == Points("\\r")
            else if 32 <= c <= 126 then e == [c]
            else if c < 0x10000 then |e| == 6 && e[..2] == Points("\\u") && Digits4(e[2..], c)
            else exists high: int, low: int :: PairDigits(e, c, high, low)
  {
    if c >= 0x10000 { PairEscape(c); } else if (c < 32 || c > 126) && ShortEscape(c) == 0 { UnitEscape(c); }
  }

  lemma UnitEscape(c: CodePoint)
    requires c < 0x10000 && ShortEscape(c) == 0
    ensures var e := UnicodeEscape(c); |e| == 6 && e[..2] == Points("\\u") && Digits4(e[2..], c)
  {
    Hex4Digits(c);
    assert UnicodeEscape(c)[2..] == Hex4(c);
  }

  lemma PairEscape(c: CodePoint)
    requires c >= 0x10000
    ensures PairDigits(EscapeOne(c), c, HighOf(c), LowOf(c))
  {
    SplitCombines(c);
    Hex4Digits(HighOf(c));
    Hex4Digits(LowOf(c));
    var e := EscapeOne(c);
    assert e == UnicodeEscape(HighOf(c)) + UnicodeEscape(LowOf(c));
    assert e[2..6] == Hex4(HighOf(c)) && e[8..] == Hex4(LowOf(c));
  }

  // ---- An object, member by member -----------------------------------------------------------

  /** A member: the text before its value, its key, its value and what that is read as. */
  datatype Entry = Entry(name: string, key: string, value: Text, json: Json)

  /** What may follow a member's value. */
  predicate Ends(rest: Text) {
    rest != [] && (rest[0] == 44 || rest[0] == 125)
  }

  ghost predicate Readable(e: Entry) {
    CursorProof.NotBlankStart(e.value)
    && forall rest :: Ends(rest) ==> ReadValue(e.value + rest) == Some((e.json, rest))
  }

  predicate WellNamed(e: Entry, opening: string) {
    e.name == opening + "\"" + e.key + "\":" && PlainText(Points(e.key))
  }

  function Members(es: seq<Entry>): seq<(Text, Json)> {
    seq(|es|, i requires 0 <= i < |es| => (Points(es[i].key), es[i].json))
  }

  /** `"key":value` */
  function Named(key: string, value: Text): Text {
    PrintString(Points(key)) + ([58] + value)
  }

  lemma NamePoints(opening: string, key: string)
    ensures Points(opening + "\"" + key + "\":") == Points(opening) + ([34] + Points(key) + [34] + [58])
  {
    PointsConcat(opening + "\"" + key, "\":");
    PointsConcat(opening + "\"", key);
    PointsConcat(opening, "\"");
    assert Points("\"") == [34] && Points("\":") == [34] + [58];
  }

  lemma QuotesPlain(t: Text)
    requires PlainText(t)
    ensures PrintString(t) == [34] + t + [34]
  {
    PlainEscapes(t);
  }

  lemma Regroup(o: Text, q: Text, value: Text, rest: Text)
    ensures (o + (q + [58])) + (value + rest) == o + ((q + ([58] + value)) + rest)
  {
  }

  lemma FieldIsNamed(e: Entry, opening: string, rest: Text)
    requires WellNamed(e, opening)
    ensures Field(e.name, e.value, rest) == Points(opening) + (Named(e.key, e.value) + rest)
  {
    NamePoints(opening, e.key);
    QuotesPlain(Points(e.key));
    Regroup(Points(opening), PrintString(Points(e.key)), e.value, rest);
  }

  /** What reading does after a member's value. */
  function AfterNamed(key: Text, v: Json, rest: Text): Option<(seq<(Text, Json)>, Text)>
    requires rest != []
  {
    if rest[0] == 125 then Some(([(key, v)], rest[1..]))
    else if rest[0] != 44 then None
    else match ReadMembers(SkipBlank(rest[1..]))
      case None => None
      case Some((members, after)) => Some(([(key, v)] + members, after))
  }

  lemma NamedUnfolds(s: Text, key: Text, u: Text, v: Json, rest: Text)
    requires s != [] && s[0] == QUOTE && ReadBody(s[1..]) == Some((key, [58] + u))
    requires SkipBlank([58] + u) == [58] + u && ([58] + u)[1..] == u && SkipBlank(u) == u
    requires ReadValue(u) == Some((v, rest)) && SkipBlank(rest) == rest && rest != []
    ensures ReadMembers(s) == AfterNamed(key, v, rest)
  {
  }

  lemma NamedText(t: Text, value: Text, rest: Text)
    ensures var s := (PrintString(t) + ([58] + value)) + rest;
            s != [] && s[0] == QUOTE && s[1..] == Literal(t, [58] + (value + rest))
  {
    var s := (PrintString(t) + ([58] + value)) + rest;
    var x := Escape(t);
    assert s == ([QUOTE] + x + [QUOTE] + ([58] + value)) + rest;
    assert s[1..] == x + ([QUOTE] + ([58] + (value + rest)));
  }

  lemma NamedReads(e: Entry, rest: Text)
    requires Readable(e) && Ends(rest)
    ensures ReadMembers(Named(e.key, e.value) + rest) == AfterNamed(Points(e.key), e.json, rest)
  {
    var u := e.value + rest;
    NamedText(Points(e.key), e.value, rest);
    BodyReads(Points(e.key), [58] + u);
    ScalarsJoin(e.key);
    CursorProof.NothingSkipped(u);
    CursorProof.NothingSkipped(rest);
    CursorProof.NothingSkipped([58] + u);
    assert ([58] + u)[1..] == u;
    NamedUnfolds(Named(e.key, e.value) + rest, Points(e.key), u, e.json, rest);
  }

  /** The members one after the other, each after a comma. */
  function MembersText(es: seq<Entry>, end: Text): Text {
    if es == [] then end else [44] + (Named(es[0].key, es[0].value) + MembersText(es[1..], end))
  }

  lemma TextEnds(es: seq<Entry>, after: Text)
    ensures Ends(MembersText(es, [125] + after))
  {
  }

  lemma MemberThen(e: Entry, more: Text, members: seq<(Text, Json)>, after: Text)
    requires Readable(e) && CursorProof.NotBlankStart(more) && ReadMembers(more) == Some((members, after))
    ensures ReadMembers(Named(e.key, e.value) + ([44] + more))
            == Some(([(Points(e.key), e.json)] + members, after))
  {
    NamedReads(e, [44] + more);
    CursorProof.NothingSkipped(more);
    assert ([44] + more)[1..] == more;
  }

  lemma MemberLast(e: Entry, after: Text)
    requires Readable(e)
    ensures ReadMembers(Named(e.key, e.value) + ([125] + after)) == Some(([(Points(e.key), e.json)], after))
  {
    NamedReads(e, [125] + after);
    assert ([125] + after)[1..] == after;
  }

  lemma TextUnfolds(es: seq<Entry>, end: Text)
    requires es != []
    ensures MembersText(es, end)[1..] == Named(es[0].key, es[0].value) + MembersText(es[1..], end)
    ensures |es| > 1 ==> MembersText(es[1..], end) == [44] + MembersText(es[1..], end)[1..]
    ensures |es| == 1 ==> MembersText(es[1..], end) == end
  {
  }

  lemma MembersUnfold(es: seq<Entry>)
    requires es != []
    ensures Members(es) == [(Points(es[0].key), es[0].json)] + Members(es[1..])
  {
  }

  lemma OneMember(es: seq<Entry>, end: Text)
    requires |es| == 1
    ensures Members(es) == [(Points(es[0].key), es[0].json)]
    ensures MembersText(es, end)[1..] == Named(es[0].key, es[0].value) + end
  {
    assert es[1..] == [];
    TextUnfolds(es, end);
  }

  lemma LastRead(es: seq<Entry>, after: Text)
    requires |es| == 1 && Readable(es[0])
    ensures ReadMembers(MembersText(es, [125] + after)[1..]) == Some((Members(es), after))
  {
    OneMember(es, [125] + after);
    MemberLast(es[0], after);
  }

  lemma MoreRead(es: seq<Entry>, end: Text, more: Text, after: Text)
    requires |es| > 1 && Readable(es[0]) && more == MembersText(es[1..], end)[1..]
    requires CursorProof.NotBlankStart(more) && ReadMembers(more) == Some((Members(es[1..]), after))
    ensures ReadMembers(MembersText(es, end)[1..]) == Some((Members(es), after))
  {
    TextUnfolds(es, end);
    MembersUnfold(es);
    MemberThen(es[0], more, Members(es[1..]), after);
  }

  lemma {:induction false} MembersRead(es: seq<Entry>, after: Text)
    requires es != [] && forall i :: 0 <= i < |es| ==> Readable(es[i])
    ensures ReadMembers(MembersText(es, [125] + after)[1..]) == Some((Members(es), after))
    decreases |es|
  {
    if |es| == 1 {
      LastRead(es, after);
    } else {
      MembersRead(es[1..], after);
      MembersStart(es[1..], [125] + after);
      MoreRead(es, [125] + after, MembersText(es[1..], [125] + after)[1..], after);
    }
  }

  lemma MembersStart(es: seq<Entry>, after: Text)
    requires es != []
    ensures CursorProof.NotBlankStart(MembersText(es, after)[1..]) && MembersText(es, after)[1] == QUOTE
  {
    assert MembersText(es, after)[1..] == Named(es[0].key, es[0].value) + MembersText(es[1..], after);
  }

  lemma ObjectReads(es: seq<Entry>, after: Text)
    requires es != [] && forall i :: 0 <= i < |es| ==> Readable(es[i])
    ensures ReadValue([123] + MembersText(es, [125] + after)[1..]) == Some((JObject(Members(es)), after))
  {
    var s := MembersText(es, [125] + after)[1..];
    MembersRead(es, after);
    MembersStart(es, [125] + after);
    CursorProof.NothingSkipped(s);
    assert ([123] + s)[1..] == s;
  }

  /** A field after a comma is one more member. */
  lemma FieldAdds(e: Entry, es: seq<Entry>, end: Text)
    requires WellNamed(e, ",")
    ensures Field(e.name, e.value, MembersText(es, end)) == MembersText([e] + es, end)
  {
    FieldIsNamed(e, ",", MembersText(es, end));
    assert Points(",") == [44];
    assert ([e] + es)[1..] == es;
  }

  /** The first field opens the object. */
  lemma FieldOpens(e: Entry, es: seq<Entry>, end: Text)
    requires WellNamed(e, "{")
    ensures Field(e.name, e.value, MembersText(es, end)) == [123] + MembersText([e] + es, end)[1..]
  {
    FieldIsNamed(e, "{", MembersText(es, end));
    assert Points("{") == [123];
    assert ([e] + es)[1..] == es;
  }

  /** Two fields in braces are an object of two members. */
  lemma TwoFields(a: Entry, b: Entry, rest: Text)
    requires WellNamed(a, "{") && WellNamed(b, ",")
    ensures Field(a.name, a.value, Field(b.name, b.value, [125] + rest)) == ObjectText([a] + [b]) + rest
  {
    NoMembers([125] + rest);
    FieldAdds(b, [], [125] + rest);
    assert [b] + [] == [b];
    FieldOpens(a, [b], [125] + rest);
    TextAppends([a] + [b], [125], rest);
    Reopened(MembersText([a] + [b], [125]), rest);
  }

  lemma NoMembers(end: Text)
    ensures MembersText([], end) == end
  {
  }

  lemma {:induction false} TextAppends(es: seq<Entry>, end: Text, rest: Text)
    ensures MembersText(es, end) + rest == MembersText(es, end + rest)
  {
    if es != [] { TextAppends(es[1..], end, rest); }
  }

  lemma Reopened(t: Text, rest: Text)
    requires t != []
    ensures ([123] + t[1..]) + rest == [123] + (t + rest)[1..]
  {
  }

  /** `{"key":value,...}` */
  function ObjectText(es: seq<Entry>): Text
    requires es != []
  {
    [123] + MembersText(es, [125])[1..]
  }

  /** A member whose value is an object. */
  function ObjectEntry(name: string, key: string, es: seq<Entry>): Entry
    requires es != []
  {
    Entry(name, key, ObjectText(es), JObject(Members(es)))
  }

  /** An object of readable members is itself a readable value. */
  lemma ObjectReadable(name: string, key: string, es: seq<Entry>)
    requires es != [] && forall i :: 0 <= i < |es| ==> Readable(es[i])
    ensures Readable(ObjectEntry(name, key, es))
  {
    forall rest | Ends(rest) ensures ReadValue(ObjectText(es) + rest) == Some((JObject(Members(es)), rest)) {
      TextAppends(es, [125], rest);
      ObjectReads(es, rest);
      Reopened(MembersText(es, [125]), rest);
    }
  }

  lemma ObjectLoads(es: seq<Entry>)
    requires es != [] && forall i :: 0 <= i < |es| ==> Readable(es[i])
    ensures Loads(ObjectText(es)) == Some(JObject(Members(es)))
  {
    ObjectReads(es, []);
    assert [125] + [] == [125];
    CursorProof.NothingSkipped(ObjectText(es));
  }

  /** Fields before members are an object of all of them. */
  lemma FourFields(a: Entry, b: Entry, c: Entry, d: Entry, es: seq<Entry>, end: Text)
    requires WellNamed(a, "{") && WellNamed(b, ",") && WellNamed(c, ",") && WellNamed(d, ",")
    ensures Field(a.name, a.value, Field(b.name, b.value, Field(c.name, c.value, Field(d.name, d.value,
                                                                                     MembersText(es, end)))))
            == [123] + MembersText([a] + ([b] + ([c] + ([d] + es))), end)[1..]
  {
    FieldAdds(d, es, end);
    FieldAdds(c, [d] + es, end);
    FieldAdds(b, [c] + ([d] + es), end);
    FieldOpens(a, [b] + ([c] + ([d] + es)), end);
  }

  // ---- The shape of the text: four fields, an object of two, and a last one ------------------------

  /** The names of the fields as they are written, where the inner object's opening belongs to its
      first field and its closing to the field after it. */
  ghost predicate Shaped(a: Entry, b: Entry, c: Entry, d: Entry, outer: string, outerKey: string, x: Entry, y: Entry,
                         z: Entry, opening: string, closing: string)
  {
    && WellNamed(a, "{") && WellNamed(b, ",") && WellNamed(c, ",") && WellNamed(d, ",")
    && WellNamed(x, "{") && WellNamed(y, ",") && WellNamed(z, ",")
    && outer == "," + "\"" + outerKey + "\":" && PlainText(Points(outerKey))
    && Points(opening) == Points(outer) + Points(x.name) && Points(closing) == [125] + Points(z.name)
  }

  lemma LastMembers(a: Entry, b: Entry, c: Entry, d: Entry, outer: string, outerKey: string, x: Entry, y: Entry,
                    z: Entry, opening: string, closing: string)
    requires Shaped(a, b, c, d, outer, outerKey, x, y, z, opening, closing)
    ensures Field(opening, x.value, Field(y.name, y.value, Field(closing, z.value, [125])))
            == MembersText([ObjectEntry(outer, outerKey, [x] + [y])] + [z], [125])
  {
    var rest := MembersText([z], [125]);
    ClosingField(z, closing);
    TwoFields(x, y, rest);
    OpeningField(x, outer, opening, Field(y.name, y.value, [125] + rest));
    FieldAdds(ObjectEntry(outer, outerKey, [x] + [y]), [z], [125]);
  }

  /** The inner object's closing is written before the last field's comma. */
  lemma ClosingField(z: Entry, closing: string)
    requires WellNamed(z, ",") && Points(closing) == [125] + Points(z.name)
    ensures Field(closing, z.value, [125]) == [125] + MembersText([z], [125])
  {
    NoMembers([125]);
    FieldAdds(z, [], [125]);
    assert [z] + [] == [z];
  }

  /** Its opening belongs to its first field. */
  lemma OpeningField(x: Entry, outer: string, opening: string, inner: Text)
    requires Points(opening) == Points(outer) + Points(x.name)
    ensures Field(opening, x.value, inner) == Points(outer) + Field(x.name, x.value, inner)
  {
  }

  lemma ShapeReads(a: Entry, b: Entry, c: Entry, d: Entry, outer: string, outerKey: string, x: Entry, y: Entry,
                   z: Entry, opening: string, closing: string)
    requires Shaped(a, b, c, d, outer, outerKey, x, y, z, opening, closing)
    requires Readable(a) && Readable(b) && Readable(c) && Readable(d) && Readable(x) && Readable(y) && Readable(z)
    ensures Loads(Field(a.name, a.value, Field(b.name, b.value, Field(c.name, c.value, Field(d.name, d.value,
              Field(opening, x.value, Field(y.name, y.value, Field(closing, z.value, [125]))))))))
            == Some(JObject([(Points(a.key), a.json), (Points(b.key), b.json), (Points(c.key), c.json),
                             (Points(d.key), d.json),
                             (Points(outerKey), JObject([(Points(x.key), x.json), (Points(y.key), y.json)])),
                             (Points(z.key), z.json)]))
  {
    ShapeText(a, b, c, d, outer, outerKey, x, y, z, opening, closing);
    ObjectReadable(outer, outerKey, [x] + [y]);
    SixLoad(a, b, c, d, ObjectEntry(outer, outerKey, [x] + [y]), z);
    TwoMembers(x, y);
  }

  lemma ShapeText(a: Entry, b: Entry, c: Entry, d: Entry, outer: string, outerKey: string, x: Entry, y: Entry,
                  z: Entry, opening: string, closing: string)
    requires Shaped(a, b, c, d, outer, outerKey, x, y, z, opening, closing)
    ensures Field(a.name, a.value, Field(b.name, b.value, Field(c.name, c.value, Field(d.name, d.value,
              Field(opening, x.value, Field(y.name, y.value, Field(closing, z.value, [125])))))))
            == ObjectText([a] + ([b] + ([c] + ([d] + ([ObjectEntry(outer, outerKey, [x] + [y])] + [z])))))
  {
    LastMembers(a, b, c, d, outer, outerKey, x, y, z, opening, closing);
    FourFields(a, b, c, d, [ObjectEntry(outer, outerKey, [x] + [y])] + [z], [125]);
  }

  lemma SixLoad(a: Entry, b: Entry, c: Entry, d: Entry, o: Entry, z: Entry)
    requires Readable(a) && Readable(b) && Readable(c) && Readable(d) && Readable(o) && Readable(z)
    ensures Loads(ObjectText([a] + ([b] + ([c] + ([d] + ([o] + [z]))))))
            == Some(JObject([(Points(a.key), a.json), (Points(b.key), b.json), (Points(c.key), c.json),
                             (Points(d.key), d.json), (Points(o.key), o.json), (Points(z.key), z.json)]))
  {
    var es := [a] + ([b] + ([c] + ([d] + ([o] + [z]))));
    assert es == [a, b, c, d, o, z];
    ObjectLoads(es);
    SixMembers(a, b, c, d, o, z);
  }

  lemma TwoMembers(x: Entry, y: Entry)
    ensures Members([x] + [y]) == [(Points(x.key), x.json), (Points(y.key), y.json)]
  {
  }

  lemma SixMembers(a: Entry, b: Entry, c: Entry, d: Entry, o: Entry, z: Entry)
    ensures Members([a] + ([b] + ([c] + ([d] + ([o] + [z])))))
            == [(Points(a.key), a.json), (Points(b.key), b.json), (Points(c.key), c.json), (Points(d.key), d.json),
                (Points(o.key), o.json), (Points(z.key), z.json)]
  {
    var es := [a] + ([b] + ([c] + ([d] + ([o] + [z]))));
    assert es == [a, b, c, d, o, z];
  }

  // ---- The members of an upload --------------------------------------------------------------

  function StringEntry(name: string, key: string, s: string): Entry {
    Entry(name, key, PrintString(Points(s)), JString(Points(s)))
  }

  function IdEntry(name: string, key: string, id: Option<string>): Entry {
    Entry(name, key, PrintId(id), if id.Some? then JString(Points(id.value)) else JNull)
  }

  function SizeEntry(name: string, key: string, size: nat): Entry {
    Entry(name, key, Points(Decimal(size)), JInt(size))
  }

  lemma StringReadable(name: string, key: string, s: string)
    ensures Readable(StringEntry(name, key, s))
  {
    forall rest | Ends(rest) ensures ReadValue(PrintString(Points(s)) + rest) == Some((JString(Points(s)), rest)) {
      CursorProof.StringValueReads(Points(s), rest);
      ScalarsJoin(s);
    }
  }

  lemma IdReadable(name: string, key: string, id: Option<string>)
    ensures Readable(IdEntry(name, key, id))
  {
    match id
    case Some(s) => StringReadable(name, key, s);
    case None =>
      forall rest | Ends(rest) ensures ReadValue(PrintId(id) + rest) == Some((JNull, rest)) {
        CursorProof.NullReads(rest);
      }
  }

  lemma SizeReadable(name: string, key: string, size: nat)
    ensures Readable(SizeEntry(name, key, size))
  {
    forall rest | Ends(rest) ensures ReadValue(Points(Decimal(size)) + rest) == Some((JInt(size), rest)) {
      CursorProof.IntValueReads(size, rest);
    }
  }

  /** Any field names of that shape, over the values of an upload. */
  lemma UploadReads(checksum: string, u: Payload, a: Entry, b: Entry, c: Entry, d: Entry, outer: string,
                    outerKey: string, x: Entry, y: Entry, z: Entry, opening: string, closing: string)
    requires Shaped(a, b, c, d, outer, outerKey, x, y, z, opening, closing)
    requires a == StringEntry(a.name, a.key, checksum) && b == StringEntry(b.name, b.key, u.contentType)
    requires c == IdEntry(c.name, c.key, u.documentId) && d == StringEntry(d.name, d.key, u.filename)
    requires x == StringEntry(x.name, x.key, KindValue(u.partition.kind))
    requires y == StringEntry(y.name, y.key, u.partition.partitionId) && z == SizeEntry(z.name, z.key, u.size)
    ensures Loads(Field(a.name, a.value, Field(b.name, b.value, Field(c.name, c.value, Field(d.name, d.value,
              Field(opening, x.value, Field(y.name, y.value, Field(closing, z.value, [125]))))))))
            == Some(JObject([(Points(a.key), a.json), (Points(b.key), b.json), (Points(c.key), c.json),
                             (Points(d.key), d.json),
                             (Points(outerKey), JObject([(Points(x.key), x.json), (Points(y.key), y.json)])),
                             (Points(z.key), z.json)]))
  {
    StringReadable(a.name, a.key, checksum);
    StringReadable(b.name, b.key, u.contentType);
    IdReadable(c.name, c.key, u.documentId);
    StringReadable(d.name, d.key, u.filename);
    StringReadable(x.name, x.key, KindValue(u.partition.kind));
    StringReadable(y.name, y.key, u.partition.partitionId);
    SizeReadable(z.name, z.key, u.size);
    ShapeReads(a, b, c, d, outer, outerKey, x, y, z, opening, closing);
  }

  // ---- The text as a whole ---------------------------------------------------------------------

  function PartitionJson(p: DocumentPartition): Json {
    JObject([(Points("kind"), JString(Points(if p.kind.Personal? then "personal" else "group"))),
             (Points("partition_id"), JString(Points(p.partitionId)))])
  }

  /** The fields of an upload, by name, in alphabetical order. */
  function FieldsOf(lower: LowerCase, u: Payload): seq<(Text, Json)> {
    [(Points("checksum"), JString(Points(lower(u.checksum)))),
     (Points("content_type"), JString(Points(u.contentType))),
     (Points("document_id"), if u.documentId.Some? then JString(Points(u.documentId.value)) else JNull),
     (Points("filename"), JString(Points(u.filename))),
     (Points("partition"), PartitionJson(u.partition)),
     (Points("size"), JInt(u.size))]
  }

  lemma PlainKeys()
    ensures PlainText(Points("size")) && PlainText(Points("partition")) && PlainText(Points("partition_id"))
    ensures PlainText(Points("kind")) && PlainText(Points("filename")) && PlainText(Points("document_id"))
    ensures PlainText(Points("content_type")) && PlainText(Points("checksum"))
  {
  }

  lemma NamesJoin()
    ensures Points(",\"partition\":{\"kind\":") == Points(",\"partition\":") + Points("{\"kind\":")
    ensures Points("},\"size\":") == [125] + Points(",\"size\":") && Points("}") == [125]
  {
    PointsConcat(",\"partition\":", "{\"kind\":");
    assert ",\"partition\":" + "{\"kind\":" == ",\"partition\":{\"kind\":";
    PointsConcat("}", ",\"size\":");
    assert "}" + ",\"size\":" == "},\"size\":";
  }

  lemma NamesSpelled()
    ensures "{\"checksum\":" == "{" + "\"" + "checksum" + "\":"
    ensures ",\"content_type\":" == "," + "\"" + "content_type" + "\":"
    ensures ",\"document_id\":" == "," + "\"" + "document_id" + "\":"
    ensures ",\"filename\":" == "," + "\"" + "filename" + "\":"
  {
  }

  lemma OtherNamesSpelled()
    ensures ",\"partition\":" == "," + "\"" + "partition" + "\":"
    ensures "{\"kind\":" == "{" + "\"" + "kind" + "\":"
    ensures ",\"partition_id\":" == "," + "\"" + "partition_id" + "\":"
    ensures ",\"size\":" == "," + "\"" + "size" + "\":"
  {
  }

  lemma Assembled(e: Entry, opening: string, name: string, key: string)
    requires e.name == name && e.key == key && name == opening + "\"" + key + "\":" && PlainText(Points(key))
    ensures WellNamed(e, opening)
  {
  }

  /** The names of an upload's fields have that shape. */
  lemma UploadEntries(checksum: string, u: Payload)
    returns (a: Entry, b: Entry, c: Entry, d: Entry, outer: string, outerKey: string, x: Entry, y: Entry, z: Entry,
             opening: string, closing: string)
    ensures Shaped(a, b, c, d, outer, outerKey, x, y, z, opening, closing)
    ensures a == StringEntry("{\"checksum\":", "checksum", checksum)
    ensures b == StringEntry(",\"content_type\":", "content_type", u.contentType)
    ensures c == IdEntry(",\"document_id\":", "document_id", u.documentId)
    ensures d == StringEntry(",\"filename\":", "filename", u.filename)
    ensures x == StringEntry("{\"kind\":", "kind", KindValue(u.partition.kind))
    ensures y == StringEntry(",\"partition_id\":", "partition_id", u.partition.partitionId)
    ensures z == SizeEntry(",\"size\":", "size", u.size)
    ensures outerKey == "partition"
    ensures opening == ",\"partition\":{\"kind\":" && closing == "},\"size\":"
  {
    PlainKeys();
    NamesJoin();
    a := StringEntry("{\"checksum\":", "checksum", checksum);
    b := StringEntry(",\"content_type\":", "content_type", u.contentType);
    c := IdEntry(",\"document_id\":", "document_id", u.documentId);
    d := StringEntry(",\"filename\":", "filename", u.filename);
    outer, outerKey := ",\"partition\":", "partition";
    x := StringEntry("{\"kind\":", "kind", KindValue(u.partition.kind));
    y := StringEntry(",\"partition_id\":", "partition_id", u.partition.partitionId);
    z := SizeEntry(",\"size\":", "size", u.size);
    opening, closing := ",\"partition\":{\"kind\":", "},\"size\":";
    NamesSpelled();
    OtherNamesSpelled();
    Assembled(a, "{", a.name, a.key);
    Assembled(b, ",", b.name, b.key);
    Assembled(c, ",", c.name, c.key);
    Assembled(d, ",", d.name, d.key);
    Assembled(x, "{", x.name, x.key);
    Assembled(y, ",", y.name, y.key);
    Assembled(z, ",", z.name, z.key);
  }

  lemma SerializeFields(lower: LowerCase, u: Payload, a: string, b: string, c: string, d: string, x: string, y: string,
                        z: string)
    requires a == "{\"checksum\":" && b == ",\"content_type\":" && c == ",\"document_id\":"
    requires d == ",\"filename\":" && x == ",\"partition\":{\"kind\":" && y == ",\"partition_id\":"
    requires z == "},\"size\":"
    ensures Serialize(lower, u)
            == Field(a, PrintString(Points(lower(u.checksum))), Field(b, PrintString(Points(u.contentType)),
                 Field(c, PrintId(u.documentId), Field(d, PrintString(Points(u.filename)),
                   Field(x, PrintString(Points(KindValue(u.partition.kind))),
                     Field(y, PrintString(Points(u.partition.partitionId)),
                       Field(z, Points(Decimal(u.size)), [125])))))))
  {
    NamesJoin();
  }

  /** Reading the fingerprint's text gives the upload's fields, and nothing else. */
  lemma TextReads(lower: LowerCase, u: Payload)
    ensures Loads(Serialize(lower, u)) == Some(JObject(FieldsOf(lower, u)))
  {
    var a, b, c, d, outer, outerKey, x, y, z, opening, closing := UploadEntries(lower(u.checksum), u);
    UploadReads(lower(u.checksum), u, a, b, c, d, outer, outerKey, x, y, z, opening, closing);
    SerializeFields(lower, u, a.name, b.name, c.name, d.name, opening, y.name, closing);
  }
}
