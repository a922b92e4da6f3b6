/** The list cursor: a compact JSON object inside unpadded URL-safe Base64. */
module Cursor {
  import opened Domain
  import opened Text
  import opened Json
  import Base64Url

  const MAX_CURSOR_LENGTH := 4096

  /** A datetime; without an offset it is naive. */
  datatype Instant = Instant(micros: int, offset: Option<int>)

  /** The library calls the codec makes: `isoformat`, `fromisoformat`, and the decoding of a
      payload that is not plain ASCII. */
  datatype Library = Library(
    isoformat: Instant -> Text,
    fromisoformat: Text -> Option<Instant>,
    decodeOther: seq<Byte> -> Option<Text>)

  ghost predicate PrintsBack(lib: Library, t: Instant) {
    lib.fromisoformat(lib.isoformat(t)) == Some(t) && IsAscii(lib.isoformat(t))
  }

  datatype CursorState = CursorState(
    createdAt: Instant,
    documentId: Text,
    status: Option<DocumentStatus>,
    pageSize: int,
    kind: PartitionKind,
    partitionId: Text)

  datatype CursorError = InvalidState | TooLong | InvalidCursor

  function StatusValue(s: DocumentStatus): string {
    match s
    case Uploaded => "uploaded"
    case Available => "available"
    case Deleting => "deleting"
    case Deleted => "deleted"
    case Failed => "failed"
  }

  function ReadStatus(t: Text): Option<DocumentStatus> {
    if t == Points("uploaded") then Some(Uploaded)
    else if t == Points("available") then Some(Available)
    else if t == Points("deleting") then Some(Deleting)
    else if t == Points("deleted") then Some(Deleted)
    else if t == Points("failed") then Some(DocumentStatus.Failed)
    else None
  }

  function ReadKind(t: Text): Option<PartitionKind> {
    if t == Points("personal") then Some(Personal) else if t == Points("group") then Some(Group) else None
  }

  // ---- Encoding --------------------------------------------------------------------

  const KEY_V := 118
  const KEY_T := 116
  const KEY_I := 105
  const KEY_S := 115
  const KEY_P := 112
  const KEY_K := 107
  const KEY_Q := 113

  function Member(key: CodePoint, value: Text): Text {
    [QUOTE, key, QUOTE, 58] + value
  }

  function StatusText(s: Option<DocumentStatus>): Text {
    match s
    case Some(v) => PrintString(Points(StatusValue(v)))
    case None => Points("null")
  }

  function TextFromQ(st: CursorState): Text {
    Member(KEY_Q, PrintString(st.partitionId)) + [125]
  }

  function TextFromK(st: CursorState): Text {
    Member(KEY_K, PrintString(Points(KindValue(st.kind)))) + ([44] + TextFromQ(st))
  }

  function TextFromP(st: CursorState): Text
    requires st.pageSize > 0
  {
    Member(KEY_P, Points(Decimal(st.pageSize))) + ([44] + TextFromK(st))
  }

  function TextFromS(st: CursorState): Text
    requires st.pageSize > 0
  {
    Member(KEY_S, StatusText(st.status)) + ([44] + TextFromP(st))
  }

  function TextFromI(st: CursorState): Text
    requires st.pageSize > 0
  {
    Member(KEY_I, PrintString(st.documentId)) + ([44] + TextFromS(st))
  }

  function TextFromT(lib: Library, st: CursorState): Text
    requires st.pageSize > 0
  {
    Member(KEY_T, PrintString(lib.isoformat(st.createdAt))) + ([44] + TextFromI(st))
  }

  /** The JSON text: keys v, t, i, s, p, k, q in that order, no blanks. */
  function Payload(lib: Library, st: CursorState): Text
    requires st.pageSize > 0
  {
    [123] + (Member(KEY_V, Points(Decimal(4))) + ([44] + TextFromT(lib, st)))
  }

  predicate Encodable(st: CursorState) {
    st.createdAt.offset.Some? && !Blank(st.documentId) && st.pageSize > 0
  }

  function Bytes(t: Text): seq<Byte>
    requires IsAscii(t)
  {
    seq(|t|, i requires 0 <= i < |t| => t[i])
  }

  function Encode(lib: Library, st: CursorState): Result<Text, CursorError> {
    if !Encodable(st) then Err(InvalidState)
    else
      PayloadIsAscii(lib, st);
      var encoded := Base64Url.StripPads(Base64Url.Encode(Bytes(Payload(lib, st))));
      if |encoded| > MAX_CURSOR_LENGTH then Err(TooLong) else Ok(encoded)
  }

  // ---- Decoding --------------------------------------------------------------------

  function DecodeText(lib: Library, b: seq<Byte>): Option<Text> {
    if forall i :: 0 <= i < |b| ==> 0 < b[i] < 128 then Some(seq(|b|, i requires 0 <= i < |b| => b[i]))
    else lib.decodeOther(b)
  }

  const EXPECTED_KEYS: set<Text> := {[KEY_V], [KEY_T], [KEY_I], [KEY_S], [KEY_P], [KEY_K], [KEY_Q]}

  function KeysOf(members: seq<(Text, Json)>): set<Text> {
    set i | 0 <= i < |members| :: members[i].0
  }

  function TextAt(members: seq<(Text, Json)>, key: CodePoint): Option<Text> {
    match Get(members, [key])
    case Some(v) => if v.JString? then Some(v.t) else None
    case None => None
  }

  function IntAt(members: seq<(Text, Json)>, key: CodePoint): Option<int> {
    match Get(members, [key])
    case Some(v) => if v.JInt? then Some(v.n) else None
    case None => None
  }

  /** The status filter: null, or one of the status names. */
  function StatusAt(members: seq<(Text, Json)>): Option<Option<DocumentStatus>> {
    if Get(members, [KEY_S]) == Some(JNull) then Some(None)
    else match TextAt(members, KEY_S)
      case Some(t) => if ReadStatus(t).Some? then Some(ReadStatus(t)) else None
      case None => None
  }

  /** The checks on the decoded dictionary. */
  function ReadState(lib: Library, members: seq<(Text, Json)>): Result<CursorState, CursorError> {
    var t, i, s := TextAt(members, KEY_T), TextAt(members, KEY_I), StatusAt(members);
    var p, k, q := IntAt(members, KEY_P), TextAt(members, KEY_K), TextAt(members, KEY_Q);
    if IntAt(members, KEY_V) != Some(4) || KeysOf(members) != EXPECTED_KEYS then Err(InvalidCursor)
    else if t.None? || i.None? || Blank(i.value) || s.None? || p.None? || p.value <= 0 then Err(InvalidCursor)
    else if k.None? || ReadKind(k.value).None? || q.None? || Blank(q.value) then Err(InvalidCursor)
    else match lib.fromisoformat(t.value)
      case Some(at) =>
        if at.offset.Some? then Ok(CursorState(at, i.value, s.value, p.value, ReadKind(k.value).value, q.value))
        else Err(InvalidCursor)
      case None => Err(InvalidCursor)
  }

  function Decode(lib: Library, cursor: Text): (r: Result<CursorState, CursorError>)
    ensures r.Ok? ==> Encodable(r.value) && !Blank(r.value.partitionId)
    ensures r.Err? ==> r.error == InvalidCursor
  {
    if cursor == [] || |cursor| > MAX_CURSOR_LENGTH then Err(InvalidCursor)
    else match Base64Url.Decode(Base64Url.Repad(cursor))
      case None => Err(InvalidCursor)
      case Some(b) =>
        match DecodeText(lib, b)
        case None => Err(InvalidCursor)
        case Some(t) =>
          match Loads(t)
          case Some(JObject(members)) => ReadState(lib, members)
          case _ => Err(InvalidCursor)
  }

  // ---- The payload is ASCII ------------------------------------------------------------

  lemma AsciiConcat(a: Text, b: Text)
    requires IsAscii(a) && IsAscii(b)
    ensures IsAscii(a + b)
  {
  }

  lemma PrintStringIsAscii(t: Text)
    ensures IsAscii(PrintString(t))
  {
    EscapeIsAscii(t);
  }

  lemma MemberIsAscii(key: CodePoint, value: Text, rest: Text)
    requires IsAscii([key]) && IsAscii(value) && IsAscii(rest)
    ensures IsAscii(Member(key, value) + rest)
  {
    assert [key][0] == key;
  }

  lemma EndIsAscii(st: CursorState)
    requires st.pageSize > 0
    ensures IsAscii(TextFromP(st))
  {
    PrintStringIsAscii(st.partitionId);
    PrintStringIsAscii(Points(KindValue(st.kind)));
    MemberIsAscii(KEY_Q, PrintString(st.partitionId), [125]);
    AsciiConcat([44], TextFromQ(st));
    MemberIsAscii(KEY_K, PrintString(Points(KindValue(st.kind))), [44] + TextFromQ(st));
    AsciiConcat([44], TextFromK(st));
    MemberIsAscii(KEY_P, Points(Decimal(st.pageSize)), [44] + TextFromK(st));
  }

  lemma MiddleIsAscii(lib: Library, st: CursorState)
    requires st.pageSize > 0
    ensures IsAscii(TextFromT(lib, st))
  {
    EndIsAscii(st);
    StatusIsAscii(st.status);
    PrintStringIsAscii(st.documentId);
    PrintStringIsAscii(lib.isoformat(st.createdAt));
    AsciiConcat([44], TextFromP(st));
    MemberIsAscii(KEY_S, StatusText(st.status), [44] + TextFromP(st));
    AsciiConcat([44], TextFromS(st));
    MemberIsAscii(KEY_I, PrintString(st.documentId), [44] + TextFromS(st));
    AsciiConcat([44], TextFromI(st));
    MemberIsAscii(KEY_T, PrintString(lib.isoformat(st.createdAt)), [44] + TextFromI(st));
  }

  lemma PayloadIsAscii(lib: Library, st: CursorState)
    requires st.pageSize > 0
    ensures IsAscii(Payload(lib, st))
  {
    MiddleIsAscii(lib, st);
    AsciiConcat([44], TextFromT(lib, st));
    MemberIsAscii(KEY_V, Points(Decimal(4)), [44] + TextFromT(lib, st));
  }

  lemma StatusIsAscii(s: Option<DocumentStatus>)
    ensures IsAscii(StatusText(s))
  {
    if s.Some? {
      PrintStringIsAscii(Points(StatusValue(s.value)));
    }
  }
}
