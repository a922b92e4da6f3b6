/** The upload fingerprint: a digest of the request's JSON text with sorted keys. The
    digest and the lower-casing of the checksum are parameters. */
module Fingerprint {
  import opened Domain
  import opened Text
  import opened Json
  import opened ClaimProtocol
  import ClaimTheorems

  type Digest = Text -> string
  type LowerCase = string -> string

  function PrintId(id: Option<string>): Text {
    match id
    case Some(s) => PrintString(Points(s))
    case None => Points("null")
  }

  function Field(name: string, value: Text, rest: Text): Text {
    Points(name) + (value + rest)
  }

  function SizeField(size: nat): Text {
    Field("},\"size\":", Points(Decimal(size)), Points("}"))
  }

  function PartitionField(p: DocumentPartition, rest: Text): Text {
    Field(",\"partition\":{\"kind\":", PrintString(Points(KindValue(p.kind))),
          Field(",\"partition_id\":", PrintString(Points(p.partitionId)), rest))
  }

  function Serialize(lower: LowerCase, u: Payload): Text {
    Field("{\"checksum\":", PrintString(Points(lower(u.checksum))),
      Field(",\"content_type\":", PrintString(Points(u.contentType)),
        Field(",\"document_id\":", PrintId(u.documentId),
          Field(",\"filename\":", PrintString(Points(u.filename)),
            PartitionField(u.partition, SizeField(u.size))))))
  }

  function BuildFingerprint(digest: Digest, lower: LowerCase, u: Payload): string {
    digest(Serialize(lower, u))
  }

  // ---- The text determines its fields ---------------------------------------------

  lemma StringThenRest(a: string, x: Text, b: string, y: Text)
    requires PrintString(Points(a)) + x == PrintString(Points(b)) + y
    ensures a == b && x == y
  {
    PrintStringPrefix(Points(a), x, Points(b), y);
    ScalarsJoin(a);
    ScalarsJoin(b);
    PointsInjective(a, b);
  }

  lemma SameField(name: string, v: Text, x: Text, w: Text, y: Text)
    requires Field(name, v, x) == Field(name, w, y)
    ensures v + x == w + y
  {
    assert Field(name, v, x)[|name|..] == v + x;
    assert Field(name, w, y)[|name|..] == w + y;
  }

  lemma StringField(name: string, a: string, x: Text, b: string, y: Text)
    requires Field(name, PrintString(Points(a)), x) == Field(name, PrintString(Points(b)), y)
    ensures a == b && x == y
  {
    SameField(name, PrintString(Points(a)), x, PrintString(Points(b)), y);
    StringThenRest(a, x, b, y);
  }

  lemma IdField(name: string, a: Option<string>, x: Text, b: Option<string>, y: Text)
    requires Field(name, PrintId(a), x) == Field(name, PrintId(b), y)
    ensures a == b && x == y
  {
    SameField(name, PrintId(a), x, PrintId(b), y);
    assert Points("null")[0] == 110;
    assert (PrintId(a) + x)[0] == PrintId(a)[0] && (PrintId(b) + y)[0] == PrintId(b)[0];
    if a.Some? && b.Some? {
      StringThenRest(a.value, x, b.value, y);
    } else {
      assert (PrintId(a) + x)[4..] == x;
      assert (PrintId(b) + y)[4..] == y;
    }
  }

  lemma SizeDetermined(a: nat, b: nat)
    requires SizeField(a) == SizeField(b)
    ensures a == b
  {
    SameField("},\"size\":", Points(Decimal(a)), Points("}"), Points(Decimal(b)), Points("}"));
    var s, t := Points(Decimal(a)) + Points("}"), Points(Decimal(b)) + Points("}");
    assert s[..|s| - 1] == Points(Decimal(a)) && t[..|t| - 1] == Points(Decimal(b));
    PointsInjective(Decimal(a), Decimal(b));
    DecimalInjective(a, b);
  }

  lemma PartitionDetermined(p: DocumentPartition, x: Text, q: DocumentPartition, y: Text)
    requires PartitionField(p, x) == PartitionField(q, y)
    ensures p == q && x == y
  {
    StringField(",\"partition\":{\"kind\":", KindValue(p.kind),
                Field(",\"partition_id\":", PrintString(Points(p.partitionId)), x),
                KindValue(q.kind), Field(",\"partition_id\":", PrintString(Points(q.partitionId)), y));
    StringField(",\"partition_id\":", p.partitionId, x, q.partitionId, y);
    assert KindValue(p.kind)[0] == KindValue(q.kind)[0];
  }

  /** The fields a fingerprint stands for. */
  predicate SameUpload(lower: LowerCase, u: Payload, v: Payload) {
    lower(u.checksum) == lower(v.checksum) && u.(checksum := "") == v.(checksum := "")
  }

  lemma TextDeterminesUpload(lower: LowerCase, u: Payload, v: Payload)
    requires Serialize(lower, u) == Serialize(lower, v)
    ensures SameUpload(lower, u, v)
  {
    var u4, v4 := PartitionField(u.partition, SizeField(u.size)), PartitionField(v.partition, SizeField(v.size));
    var u3 := Field(",\"filename\":", PrintString(Points(u.filename)), u4);
    var v3 := Field(",\"filename\":", PrintString(Points(v.filename)), v4);
    var u2 := Field(",\"document_id\":", PrintId(u.documentId), u3);
    var v2 := Field(",\"document_id\":", PrintId(v.documentId), v3);
    var u1 := Field(",\"content_type\":", PrintString(Points(u.contentType)), u2);
    var v1 := Field(",\"content_type\":", PrintString(Points(v.contentType)), v2);
    StringField("{\"checksum\":", lower(u.checksum), u1, lower(v.checksum), v1);
    StringField(",\"content_type\":", u.contentType, u2, v.contentType, v2);
    IdField(",\"document_id\":", u.documentId, u3, v.documentId, v3);
    StringField(",\"filename\":", u.filename, u4, v.filename, v4);
    PartitionDetermined(u.partition, SizeField(u.size), v.partition, SizeField(v.size));
    SizeDetermined(u.size, v.size);
  }

  /** Two uploads have equal fingerprints exactly when they agree on lower-cased checksum,
      filename, content type, size, document id (given or absent) and partition, provided
      the digest does not collide on their two texts. */
  lemma FingerprintsAgree(digest: Digest, lower: LowerCase, u: Payload, v: Payload)
    requires digest(Serialize(lower, u)) == digest(Serialize(lower, v)) ==> Serialize(lower, u) == Serialize(lower, v)
    ensures BuildFingerprint(digest, lower, u) == BuildFingerprint(digest, lower, v) <==> SameUpload(lower, u, v)
  {
    if BuildFingerprint(digest, lower, u) == BuildFingerprint(digest, lower, v) {
      TextDeterminesUpload(lower, u, v);
    }
  }

  /** A digest without collisions among the texts of a run's requests gives the claim
      protocol the collision freedom its replay theorem asks for. */
  lemma NoDigestCollisionSuffices(digest: Digest, lower: LowerCase, started: set<Payload>)
    requires forall u, v :: u in started && v in started ==>
               (digest(Serialize(lower, u)) == digest(Serialize(lower, v)) ==>
                Serialize(lower, u) == Serialize(lower, v))
    ensures ClaimTheorems.CollisionFree(u => BuildFingerprint(digest, lower, u), started)
  {
    forall u, v | u in started && v in started
                  && BuildFingerprint(digest, lower, u) == BuildFingerprint(digest, lower, v)
      ensures u.filename == v.filename && u.contentType == v.contentType && u.size == v.size
              && u.partition == v.partition
    {
      FingerprintsAgree(digest, lower, u, v);
      assert u.(checksum := "").filename == v.(checksum := "").filename;
    }
  }
}
