/** The cursor codec round trip, and exactly when encoding refuses. */
module CursorProof {
  import opened Domain
  import opened Text
  import opened Json
  import opened Cursor
  import Base64Url

  // ---- Reading the printed values --------------------------------------------------

  lemma StringValueReads(t: Text, rest: Text)
    ensures ReadValue(PrintString(t) + rest) == Some((JString(Join(t)), rest))
  {
    var s := PrintString(t) + rest;
    assert s[1..] == Literal(t, rest);
    BodyReads(t, rest);
  }

  lemma NullReads(rest: Text)
    ensures ReadValue(Points("null") + rest) == Some((JNull, rest))
  {
    var s := Points("null") + rest;
    assert s[4..] == rest;
    assert s[0] == 110;
  }

  lemma {:induction false} DigitsRun(d: Text, rest: Text)
    requires forall i :: 0 <= i < |d| ==> IsDigit(d[i])
    requires rest != [] && !IsDigit(rest[0])
    ensures DigitRun(d + rest) == |d|
  {
    if d == [] {
      assert d + rest == rest;
    } else {
      assert (d + rest)[1..] == d[1..] + rest;
      DigitsRun(d[1..], rest);
    }
  }

  /** What may follow a number without prolonging it. */
  predicate EndsNumber(rest: Text) {
    rest != [] && !IsDigit(rest[0]) && rest[0] != 46 && rest[0] != 101 && rest[0] != 69
  }

  lemma IntReads(n: nat, rest: Text)
    requires EndsNumber(rest)
    ensures ReadNumber(Points(Decimal(n)) + rest) == Some((JInt(n), rest))
  {
    var d := Points(Decimal(n));
    var s := d + rest;
    DigitsRun(d, rest);
    DecimalReads(n);
    assert s[|d|..] == rest;
    assert s[..|d|] == d;
    if n == 0 {
      assert d == [48];
    } else {
      assert d[0] == Decimal(n)[0] as int;
    }
  }

  lemma IntValueReads(n: nat, rest: Text)
    requires EndsNumber(rest)
    ensures ReadValue(Points(Decimal(n)) + rest) == Some((JInt(n), rest))
  {
    var s := Points(Decimal(n)) + rest;
    IntReads(n, rest);
    assert 48 <= s[0] <= 57;
    assert Points("-Infinity")[0] == 45;
  }

  lemma StatusReads(s: Option<DocumentStatus>, rest: Text)
    ensures ReadValue(StatusText(s) + rest)
            == Some((if s.Some? then JString(Points(StatusValue(s.value))) else JNull, rest))
  {
    match s
    case None => NullReads(rest);
    case Some(v) =>
      StringValueReads(Points(StatusValue(v)), rest);
      ScalarsJoin(StatusValue(v));
  }

  lemma StatusNames(s: DocumentStatus, k: PartitionKind)
    ensures ReadStatus(Points(StatusValue(s))) == Some(s) && ReadKind(Points(KindValue(k))) == Some(k)
  {
    PointsInjective(StatusValue(s), "uploaded");
    PointsInjective(StatusValue(s), "available");
    PointsInjective(StatusValue(s), "deleting");
    PointsInjective(StatusValue(s), "deleted");
    PointsInjective(StatusValue(s), "failed");
    PointsInjective(KindValue(k), "personal");
    PointsInjective(KindValue(k), "group");
  }

  // ---- Reading the members ------------------------------------------------------------

  predicate PlainKey(key: CodePoint) {
    97 <= key <= 122
  }

  lemma KeyReads(key: CodePoint, rest: Text)
    requires PlainKey(key)
    ensures ReadBody([key, QUOTE] + rest) == Some(([key], rest))
  {
    var s := [key, QUOTE] + rest;
    assert s[1..] == [QUOTE] + rest;
    assert s[1..][1..] == rest;
    assert ReadBody(s[1..]) == Some(([], rest));
    assert [key] + [] == [key];
  }

  predicate NotBlankStart(s: Text) {
    s != [] && !IsBlank(s[0])
  }

  /** What reading does after a member's value. */
  function AfterMember(key: CodePoint, v: Json, rest: Text): Option<(seq<(Text, Json)>, Text)>
    requires rest != []
  {
    if rest[0] == 125 then Some(([([key], v)], rest[1..]))
    else if rest[0] != 44 then None
    else match ReadMembers(SkipBlank(rest[1..]))
      case None => None
      case Some((members, after)) => Some(([([key], v)] + members, after))
  }

  lemma MemberUnfolds(s: Text, key: CodePoint, u: Text, v: Json, rest: Text)
    requires s != [] && s[0] == QUOTE && ReadBody(s[1..]) == Some(([key], [58] + u))
    requires SkipBlank([58] + u) == [58] + u && ([58] + u)[1..] == u && SkipBlank(u) == u
    requires ReadValue(u) == Some((v, rest)) && SkipBlank(rest) == rest && rest != []
    ensures ReadMembers(s) == AfterMember(key, v, rest)
  {
  }

  /** Reading up to a member's value. */
  lemma MemberReads(key: CodePoint, value: Text, v: Json, rest: Text)
    requires PlainKey(key) && NotBlankStart(value)
    requires ReadValue(value + rest) == Some((v, rest)) && NotBlankStart(rest)
    ensures ReadMembers(Member(key, value) + rest) == AfterMember(key, v, rest)
  {
    var s, u := Member(key, value) + rest, value + rest;
    MemberText(key, value, rest);
    KeyReads(key, [58] + u);
    NothingSkipped(u);
    NothingSkipped(rest);
    NothingSkipped([58] + u);
    MemberUnfolds(s, key, u, v, rest);
  }

  lemma MemberText(key: CodePoint, value: Text, rest: Text)
    ensures var s, u := Member(key, value) + rest, value + rest;
            s != [] && s[0] == QUOTE && s[1..] == [key, QUOTE] + ([58] + u) && ([58] + u)[1..] == u
  {
  }

  lemma NothingSkipped(s: Text)
    requires NotBlankStart(s)
    ensures SkipBlank(s) == s
  {
  }

  lemma MoreMembers(key: CodePoint, value: Text, v: Json, rest: Text, members: seq<(Text, Json)>)
    requires PlainKey(key) && NotBlankStart(value) && NotBlankStart(rest)
    requires ReadValue(value + ([44] + rest)) == Some((v, [44] + rest))
    requires ReadMembers(rest) == Some((members, []))
    ensures ReadMembers(Member(key, value) + ([44] + rest)) == Some(([([key], v)] + members, []))
  {
    MemberReads(key, value, v, [44] + rest);
    assert ([44] + rest)[1..] == rest;
  }

  lemma LastMember(key: CodePoint, value: Text, v: Json)
    requires PlainKey(key) && NotBlankStart(value)
    requires ReadValue(value + [125]) == Some((v, [125]))
    ensures ReadMembers(Member(key, value) + [125]) == Some(([([key], v)], []))
  {
    MemberReads(key, value, v, [125]);
    assert [125][1..] == [];
  }

  function StatusJson(s: Option<DocumentStatus>): Json {
    if s.Some? then JString(Points(StatusValue(s.value))) else JNull
  }

  function MembersFromP(st: CursorState): seq<(Text, Json)> {
    [([KEY_P], JInt(st.pageSize))]
    + ([([KEY_K], JString(Points(KindValue(st.kind))))] + [([KEY_Q], JString(Join(st.partitionId)))])
  }

  function MembersOf(lib: Library, st: CursorState): seq<(Text, Json)> {
    [([KEY_V], JInt(4))]
    + ([([KEY_T], JString(Join(lib.isoformat(st.createdAt))))]
       + ([([KEY_I], JString(Join(st.documentId)))]
          + ([([KEY_S], StatusJson(st.status))] + MembersFromP(st))))
  }

  lemma EndReads(st: CursorState)
    requires st.pageSize > 0
    ensures ReadMembers(TextFromP(st)) == Some((MembersFromP(st), []))
  {
    StringValueReads(st.partitionId, [125]);
    LastMember(KEY_Q, PrintString(st.partitionId), JString(Join(st.partitionId)));
    StringValueReads(Points(KindValue(st.kind)), [44] + TextFromQ(st));
    ScalarsJoin(KindValue(st.kind));
    MoreMembers(KEY_K, PrintString(Points(KindValue(st.kind))), JString(Points(KindValue(st.kind))), TextFromQ(st),
                [([KEY_Q], JString(Join(st.partitionId)))]);
    IntValueReads(st.pageSize, [44] + TextFromK(st));
    MoreMembers(KEY_P, Points(Decimal(st.pageSize)), JInt(st.pageSize), TextFromK(st),
                [([KEY_K], JString(Points(KindValue(st.kind))))] + [([KEY_Q], JString(Join(st.partitionId)))]);
  }

  lemma SIReads(st: CursorState)
    requires st.pageSize > 0
    ensures ReadMembers(TextFromI(st))
            == Some(([([KEY_I], JString(Join(st.documentId)))]
                     + ([([KEY_S], StatusJson(st.status))] + MembersFromP(st)), []))
  {
    EndReads(st);
    StatusReads(st.status, [44] + TextFromP(st));
    StatusStarts(st.status);
    MoreMembers(KEY_S, StatusText(st.status), StatusJson(st.status), TextFromP(st), MembersFromP(st));
    StringValueReads(st.documentId, [44] + TextFromS(st));
    MoreMembers(KEY_I, PrintString(st.documentId), JString(Join(st.documentId)), TextFromS(st),
                [([KEY_S], StatusJson(st.status))] + MembersFromP(st));
  }

  lemma StatusStarts(s: Option<DocumentStatus>)
    ensures NotBlankStart(StatusText(s))
  {
  }

  lemma VTReads(lib: Library, st: CursorState)
    requires st.pageSize > 0
    ensures ReadMembers(Payload(lib, st)[1..]) == Some((MembersOf(lib, st), []))
  {
    SIReads(st);
    var iso := lib.isoformat(st.createdAt);
    StringValueReads(iso, [44] + TextFromI(st));
    MoreMembers(KEY_T, PrintString(iso), JString(Join(iso)), TextFromI(st),
                [([KEY_I], JString(Join(st.documentId)))] + ([([KEY_S], StatusJson(st.status))] + MembersFromP(st)));
    IntValueReads(4, [44] + TextFromT(lib, st));
    MoreMembers(KEY_V, Points(Decimal(4)), JInt(4), TextFromT(lib, st),
                [([KEY_T], JString(Join(iso)))]
                + ([([KEY_I], JString(Join(st.documentId)))]
                   + ([([KEY_S], StatusJson(st.status))] + MembersFromP(st))));
    assert Payload(lib, st)[1..] == Member(KEY_V, Points(Decimal(4))) + ([44] + TextFromT(lib, st));
  }

  lemma PayloadLoads(lib: Library, st: CursorState)
    requires st.pageSize > 0
    ensures Loads(Payload(lib, st)) == Some(JObject(MembersOf(lib, st)))
  {
    VTReads(lib, st);
    var s := Payload(lib, st);
    assert s[0] == 123;
    assert s[1..][0] == QUOTE;
    assert SkipBlank(s) == s && SkipBlank(s[1..]) == s[1..];
  }

  // ---- Looking the members up -----------------------------------------------------------

  lemma GetAt(members: seq<(Text, Json)>, i: nat)
    requires i < |members|
    requires forall j :: i < j < |members| ==> members[j].0 != members[i].0
    ensures Get(members, members[i].0) == Some(members[i].1)
    decreases |members|
  {
    if i < |members| - 1 {
      GetAt(members[..|members| - 1], i);
    }
  }

  lemma MembersFound(lib: Library, st: CursorState)
    ensures var m := MembersOf(lib, st);
            && Get(m, [KEY_V]) == Some(JInt(4))
            && Get(m, [KEY_T]) == Some(JString(Join(lib.isoformat(st.createdAt))))
            && Get(m, [KEY_I]) == Some(JString(Join(st.documentId)))
            && Get(m, [KEY_S]) == Some(StatusJson(st.status))
            && Get(m, [KEY_P]) == Some(JInt(st.pageSize))
            && Get(m, [KEY_K]) == Some(JString(Points(KindValue(st.kind))))
            && Get(m, [KEY_Q]) == Some(JString(Join(st.partitionId)))
  {
    var m := MembersOf(lib, st);
    MembersListed(lib, st);
    GetAt(m, 0);
    GetAt(m, 1);
    GetAt(m, 2);
    GetAt(m, 3);
    GetAt(m, 4);
    GetAt(m, 5);
    GetAt(m, 6);
  }

  lemma MembersKeyed(lib: Library, st: CursorState)
    ensures KeysOf(MembersOf(lib, st)) == EXPECTED_KEYS
  {
    var m := MembersOf(lib, st);
    MembersListed(lib, st);
    assert KeysOf(m) == {m[0].0, m[1].0, m[2].0, m[3].0, m[4].0, m[5].0, m[6].0};
  }

  lemma MembersListed(lib: Library, st: CursorState)
    ensures var m := MembersOf(lib, st);
            && |m| == 7 && m[0] == ([KEY_V], JInt(4))
            && m[1] == ([KEY_T], JString(Join(lib.isoformat(st.createdAt))))
            && m[2] == ([KEY_I], JString(Join(st.documentId))) && m[3] == ([KEY_S], StatusJson(st.status))
            && m[4] == ([KEY_P], JInt(st.pageSize)) && m[5] == ([KEY_K], JString(Points(KindValue(st.kind))))
            && m[6] == ([KEY_Q], JString(Join(st.partitionId)))
  {
  }

  lemma {:induction false} JoinKeepsBlank(t: Text)
    ensures Blank(Join(t)) <==> Blank(t)
    decreases |t|
  {
    if |t| >= 2 && IsHigh(t[0]) && IsLow(t[1]) {
      assert !IsSpacePoint(t[0]);
      assert !IsSpacePoint(Join(t)[0]);
    } else if t != [] {
      JoinKeepsBlank(t[1..]);
      assert t == [t[0]] + t[1..];
      assert Join(t) == [t[0]] + Join(t[1..]);
      BlankCons(t[0], t[1..]);
      BlankCons(t[0], Join(t[1..]));
    }
  }

  lemma BlankCons(c: CodePoint, t: Text)
    ensures Blank([c] + t) <==> IsSpacePoint(c) && Blank(t)
  {
    var s := [c] + t;
    if Blank(s) {
      assert IsSpacePoint(s[0]);
      forall i | 0 <= i < |t| ensures IsSpacePoint(t[i]) { assert s[i + 1] == t[i]; }
    }
  }

  /** The state a cursor gives back: the same, with neighbouring surrogates joined. */
  function Joined(st: CursorState): CursorState {
    st.(documentId := Join(st.documentId), partitionId := Join(st.partitionId))
  }

  lemma StateReads(lib: Library, st: CursorState)
    requires Encodable(st) && !Blank(st.partitionId) && PrintsBack(lib, st.createdAt)
    ensures ReadState(lib, MembersOf(lib, st)) == Ok(Joined(st))
  {
    MembersFound(lib, st);
    MembersKeyed(lib, st);
    JoinKeepsBlank(st.documentId);
    JoinKeepsBlank(st.partitionId);
    JoinIdentity(lib.isoformat(st.createdAt));
    StatusNames(if st.status.Some? then st.status.value else Uploaded, st.kind);
  }

  // ---- The theorems ------------------------------------------------------------------------

  /** Encoding refuses for length exactly when the JSON text is longer than 3072 bytes. */
  lemma RefusedForLength(lib: Library, st: CursorState)
    requires Encodable(st)
    ensures Encode(lib, st).Err? <==> |Payload(lib, st)| > 3072
    ensures Encode(lib, st).Err? ==> Encode(lib, st).error == TooLong
    ensures Encode(lib, st).Ok? ==> 0 < |Encode(lib, st).value| <= MAX_CURSOR_LENGTH
  {
    PayloadIsAscii(lib, st);
    Base64Url.RoundTrip(Bytes(Payload(lib, st)));
  }

  /** Whatever was encoded decodes to the same state, surrogate pairs joined. */
  lemma DecodeInvertsEncode(lib: Library, st: CursorState)
    requires Encode(lib, st).Ok? && !Blank(st.partitionId) && PrintsBack(lib, st.createdAt)
    ensures Decode(lib, Encode(lib, st).value) == Ok(Joined(st))
  {
    PayloadIsAscii(lib, st);
    RefusedForLength(lib, st);
    Base64Url.RoundTrip(Bytes(Payload(lib, st)));
    AsciiDecodes(lib, Payload(lib, st));
    PayloadLoads(lib, st);
    StateReads(lib, st);
  }

  lemma AsciiDecodes(lib: Library, text: Text)
    requires IsAscii(text)
    ensures DecodeText(lib, Bytes(text)) == Some(text)
  {
    var b := Bytes(text);
    assert seq(|b|, i requires 0 <= i < |b| => b[i]) == text;
  }

  /** The round trip is exact exactly for ids without two neighbouring code points that
      form a surrogate pair; in particular for every string of Unicode scalar values. */
  lemma RoundTripExactly(lib: Library, st: CursorState)
    requires Encode(lib, st).Ok? && !Blank(st.partitionId) && PrintsBack(lib, st.createdAt)
    ensures Decode(lib, Encode(lib, st).value) == Ok(st) <==> PairFree(st.documentId) && PairFree(st.partitionId)
  {
    DecodeInvertsEncode(lib, st);
    JoinIdentity(st.documentId);
    JoinIdentity(st.partitionId);
  }

  /** Different positions have different cursors. */
  lemma EncodeInjective(lib: Library, a: CursorState, b: CursorState)
    requires Encode(lib, a).Ok? && Encode(lib, b).Ok? && !Blank(a.partitionId) && !Blank(b.partitionId)
    requires PrintsBack(lib, a.createdAt) && PrintsBack(lib, b.createdAt)
    requires PairFree(a.documentId) && PairFree(a.partitionId) && PairFree(b.documentId) && PairFree(b.partitionId)
    ensures Encode(lib, a) == Encode(lib, b) <==> a == b
  {
    RoundTripExactly(lib, a);
    RoundTripExactly(lib, b);
  }

  /** A lone high surrogate next to a lone low one is the failing case. */
  lemma SurrogatePairLost(lib: Library, st: CursorState)
    requires Encode(lib, st).Ok? && !Blank(st.partitionId) && PrintsBack(lib, st.createdAt)
    requires st.documentId == [0xD83D, 0xDE00]
    ensures Decode(lib, Encode(lib, st).value).Ok?
    ensures Decode(lib, Encode(lib, st).value).value.documentId == [0x1F600]
  {
    DecodeInvertsEncode(lib, st);
    assert st.documentId[2..] == [];
    assert Join(st.documentId) == [Combine(0xD83D, 0xDE00)] + Join([]);
  }

  // ---- What the decoder accepts --------------------------------------------------------------

  predicate NamesStatus(t: Text) {
    t == Points("uploaded") || t == Points("available") || t == Points("deleting") || t == Points("deleted")
    || t == Points("failed")
  }

  /** The fields a decoded dictionary must have, and what each must hold. */
  ghost predicate Acceptable(lib: Library, members: seq<(Text, Json)>) {
    && (forall i :: 0 <= i < |members| ==>
          var key := members[i].0;
          key == Points("v") || key == Points("t") || key == Points("i") || key == Points("s") || key == Points("p")
          || key == Points("k") || key == Points("q"))
    && Get(members, Points("v")) == Some(JInt(4))
    && (match Get(members, Points("t"))
        case Some(JString(t)) => lib.fromisoformat(t).Some? && lib.fromisoformat(t).value.offset.Some?
        case _ => false)
    && (match Get(members, Points("i")) case Some(JString(t)) => !Blank(t) case _ => false)
    && (match Get(members, Points("s"))
        case Some(JNull) => true
        case Some(JString(t)) => NamesStatus(t)
        case _ => false)
    && (match Get(members, Points("p")) case Some(JInt(n)) => n > 0 case _ => false)
    && (match Get(members, Points("k"))
        case Some(JString(t)) => t == Points("personal") || t == Points("group")
        case _ => false)
    && (match Get(members, Points("q")) case Some(JString(t)) => !Blank(t) case _ => false)
  }

  lemma {:induction false} GetFinds(members: seq<(Text, Json)>, key: Text)
    ensures Get(members, key).Some? <==> exists i :: 0 <= i < |members| && members[i].0 == key
  {
    if members != [] {
      var n := |members| - 1;
      GetFinds(members[..n], key);
      if members[n].0 != key && exists i :: 0 <= i < |members| && members[i].0 == key {
        var i :| 0 <= i < |members| && members[i].0 == key;
        assert members[..n][i].0 == key;
      }
    }
  }

  lemma KeyNames()
    ensures Points("v") == [KEY_V] && Points("t") == [KEY_T] && Points("i") == [KEY_I] && Points("s") == [KEY_S]
    ensures Points("p") == [KEY_P] && Points("k") == [KEY_K] && Points("q") == [KEY_Q]
  {
  }

  /** A dictionary whose seven fields are found has exactly the expected keys if it has no other. */
  lemma KeysExactly(members: seq<(Text, Json)>)
    requires forall key :: key in EXPECTED_KEYS ==> Get(members, key).Some?
    ensures KeysOf(members) == EXPECTED_KEYS <==> forall i :: 0 <= i < |members| ==> members[i].0 in EXPECTED_KEYS
  {
    forall key | key in EXPECTED_KEYS ensures key in KeysOf(members) {
      GetFinds(members, key);
      var i :| 0 <= i < |members| && members[i].0 == key;
    }
    if KeysOf(members) == EXPECTED_KEYS {
      forall i | 0 <= i < |members| ensures members[i].0 in EXPECTED_KEYS {
        assert members[i].0 in KeysOf(members);
      }
    }
  }

  lemma KeysFound(members: seq<(Text, Json)>)
    requires KeysOf(members) == EXPECTED_KEYS
    ensures forall key :: key in EXPECTED_KEYS ==> Get(members, key).Some?
  {
    forall key | key in EXPECTED_KEYS ensures Get(members, key).Some? {
      assert key in KeysOf(members);
      GetFinds(members, key);
    }
  }

  lemma StatusRead(t: Text)
    ensures ReadStatus(t).Some? <==> NamesStatus(t)
    ensures ReadStatus(t).Some? ==> t == Points(StatusValue(ReadStatus(t).value))
  {
  }

  /** What the dictionary says is what is read, the status and the kind by their names. */
  ghost predicate Holds(lib: Library, members: seq<(Text, Json)>, st: CursorState) {
    && Get(members, Points("i")) == Some(JString(st.documentId))
    && Get(members, Points("p")) == Some(JInt(st.pageSize))
    && Get(members, Points("q")) == Some(JString(st.partitionId))
    && Get(members, Points("k")) == Some(JString(Points(if st.kind.Personal? then "personal" else "group")))
    && Get(members, Points("s")) == Some(StatusJson(st.status))
    && (match Get(members, Points("t"))
        case Some(JString(t)) => lib.fromisoformat(t) == Some(st.createdAt)
        case _ => false)
  }

  /** The checks as a whole: exactly these dictionaries are accepted, and read as what they hold. */
  lemma AcceptedExactly(lib: Library, members: seq<(Text, Json)>)
    ensures ReadState(lib, members).Ok? <==> Acceptable(lib, members)
    ensures ReadState(lib, members).Ok? ==> Holds(lib, members, ReadState(lib, members).value)
  {
    if ReadState(lib, members).Ok? {
      ReadHolds(lib, members);
      ReadIsAcceptable(lib, members);
    }
    if Acceptable(lib, members) {
      AcceptableIsRead(lib, members);
    }
  }

  lemma AcceptableIsRead(lib: Library, members: seq<(Text, Json)>)
    requires Acceptable(lib, members)
    ensures ReadState(lib, members).Ok?
  {
    KeyNames();
    KeysExactly(members);
    var s := Get(members, [KEY_S]).value;
    if s.JString? { StatusRead(s.t); }
  }

  lemma ReadHolds(lib: Library, members: seq<(Text, Json)>)
    requires ReadState(lib, members).Ok?
    ensures Holds(lib, members, ReadState(lib, members).value)
  {
    KeyNames();
    KeysFound(members);
    var s := Get(members, [KEY_S]).value;
    if s.JString? { StatusRead(s.t); }
  }

  lemma ReadIsAcceptable(lib: Library, members: seq<(Text, Json)>)
    requires ReadState(lib, members).Ok? && Holds(lib, members, ReadState(lib, members).value)
    ensures Acceptable(lib, members)
  {
    var st := ReadState(lib, members).value;
    KeyNames();
    KeysFound(members);
    KeysExactly(members);
    assert IntAt(members, KEY_V) == Some(4);
    StatusIsNamed(st.status);
  }

  lemma StatusIsNamed(s: Option<DocumentStatus>)
    ensures match StatusJson(s)
            case JNull => true
            case JString(t) => NamesStatus(t)
            case _ => false
  {
  }

  /** A text is accepted as a cursor exactly if it is not empty and not over 4096 characters, is
      Base64 of a JSON object, and the object passes those checks. */
  lemma DecodesExactly(lib: Library, cursor: Text)
    ensures Decode(lib, cursor).Ok? <==>
            && 0 < |cursor| <= 4096 && Base64Url.Decode(Base64Url.Repad(cursor)).Some?
            && (match DecodeText(lib, Base64Url.Decode(Base64Url.Repad(cursor)).value)
                case Some(t) =>
                  Loads(t).Some? && Loads(t).value.JObject? && Acceptable(lib, Loads(t).value.members)
                case None => false)
  {
    match Base64Url.Decode(Base64Url.Repad(cursor))
    case None =>
    case Some(b) =>
      match DecodeText(lib, b)
      case None =>
      case Some(t) =>
        match Loads(t)
        case Some(JObject(members)) => AcceptedExactly(lib, members);
        case _ =>
  }
}
