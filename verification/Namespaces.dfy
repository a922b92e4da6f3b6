/** Storage keys and operation scopes: how a partition, a document and a file name
    share one flat key space without meeting. SHA-256 is a parameter `h`; of it we
    use the shape of its hex digest, and that two given partition ids do not collide. */
module Namespaces {
  import opened Domain
  import opened Text

  type Hash = string -> string

  const DIGEST_LENGTH := 64

  predicate IsHexDigit(c: char) {
    '0' <= c <= '9' || 'a' <= c <= 'f'
  }

  predicate IsHexDigest(s: string) {
    |s| == DIGEST_LENGTH && forall i :: 0 <= i < |s| ==> IsHexDigit(s[i])
  }

  ghost predicate HexDigests(h: Hash) {
    forall x :: IsHexDigest(h(x))
  }

  predicate NoCollision(h: Hash, x: string, y: string) {
    h(x) == h(y) ==> x == y
  }

  function StoragePrefix(h: Hash, p: DocumentPartition): string {
    "documents/partitions/" + KindValue(p.kind) + "/" + h(p.partitionId) + "/"
  }

  function OperationScopePrefix(h: Hash, p: DocumentPartition): string {
    "partition:" + KindValue(p.kind) + ":" + h(p.partitionId) + ":"
  }

  function OperationScope(h: Hash, p: DocumentPartition, scope: string): string {
    OperationScopePrefix(h, p) + scope
  }

  // ---- File names ------------------------------------------------------------

  predicate IsSpace(c: char) {
    IsSpacePoint(c as int)
  }

  function Strip(s: string): string
    decreases |s|
  {
    if s == [] then s
    else if IsSpace(s[0]) then Strip(s[1..])
    else if IsSpace(s[|s| - 1]) then Strip(s[..|s| - 1])
    else s
  }

  /** Two dots become one, left to right and without overlap. */
  function MergeDots(s: string): string {
    if |s| >= 2 && s[0] == '.' && s[1] == '.' then "." + MergeDots(s[2..])
    else if s == [] then s
    else [s[0]] + MergeDots(s[1..])
  }

  function Replace(s: string, from: char, to: char): string {
    seq(|s|, i requires 0 <= i < |s| => if s[i] == from then to else s[i])
  }

  function SanitizeFilename(filename: string): string {
    Replace(Replace(MergeDots(Strip(filename)), '/', '-'), '\\', '-')
  }

  function StorageKey(h: Hash, p: DocumentPartition, documentId: string, filename: string): string {
    StoragePrefix(h, p) + documentId + "/" + SanitizeFilename(filename)
  }

  predicate SlashFree(s: string) {
    '/' !in s
  }

  lemma SanitizedHasNoSlash(filename: string)
    ensures SlashFree(SanitizeFilename(filename)) && '\\' !in SanitizeFilename(filename)
  {
  }

  // ---- Injectivity -------------------------------------------------------------

  /** The slash before a slash-free name is the last one. */
  lemma LastSlash(a: string, x: string)
    requires SlashFree(x)
    ensures var s := a + "/" + x; s[|a|] == '/' && forall i :: |a| < i < |s| ==> s[i] != '/'
  {
    var s := a + "/" + x;
    forall i | |a| < i < |s| ensures s[i] != '/' {
      assert s[i] == x[i - |a| - 1];
    }
  }

  /** Splitting at the last slash is unambiguous. */
  lemma LastSlashSplits(a: string, x: string, b: string, y: string)
    requires SlashFree(x) && SlashFree(y) && a + "/" + x == b + "/" + y
    ensures a == b && x == y
  {
    var s := a + "/" + x;
    LastSlash(a, x);
    LastSlash(b, y);
    assert a == s[..|a|] && b == s[..|b|];
    assert x == s[|a| + 1..] && y == s[|b| + 1..];
  }

  /** Neither of two storage prefixes begins with the other, unless they are one partition's. */
  lemma StoragePrefixesDisjoint(h: Hash, p: DocumentPartition, q: DocumentPartition, x: string, y: string)
    requires HexDigests(h) && NoCollision(h, p.partitionId, q.partitionId)
    requires StoragePrefix(h, p) + x == StoragePrefix(h, q) + y
    ensures p == q && x == y
  {
    var s := StoragePrefix(h, p) + x;
    assert IsHexDigest(h(p.partitionId)) && IsHexDigest(h(q.partitionId));
    assert s[21] == KindValue(p.kind)[0];
    assert s[21] == KindValue(q.kind)[0];
    assert p.kind == q.kind;
    var n := 22 + |KindValue(p.kind)|;
    assert s[n..n + 64] == h(p.partitionId);
    assert s[n..n + 64] == h(q.partitionId);
    assert s[n + 65..] == x;
    assert s[n + 65..] == y;
  }

  lemma ScopePrefixesDisjoint(h: Hash, p: DocumentPartition, q: DocumentPartition, x: string, y: string)
    requires HexDigests(h) && NoCollision(h, p.partitionId, q.partitionId)
    requires OperationScopePrefix(h, p) + x == OperationScopePrefix(h, q) + y
    ensures p == q && x == y
  {
    var s := OperationScopePrefix(h, p) + x;
    assert IsHexDigest(h(p.partitionId)) && IsHexDigest(h(q.partitionId));
    assert s[10] == KindValue(p.kind)[0];
    assert s[10] == KindValue(q.kind)[0];
    assert p.kind == q.kind;
    var n := 11 + |KindValue(p.kind)|;
    assert s[n..n + 64] == h(p.partitionId);
    assert s[n..n + 64] == h(q.partitionId);
    assert s[n + 65..] == x;
    assert s[n + 65..] == y;
  }

  /** Equal storage keys name the same partition, document and sanitised file name,
      whatever slashes the document ids hold. */
  lemma StorageKeyInjective(h: Hash, p: DocumentPartition, id: string, f: string,
                            q: DocumentPartition, jd: string, g: string)
    requires HexDigests(h) && NoCollision(h, p.partitionId, q.partitionId)
    ensures StorageKey(h, p, id, f) == StorageKey(h, q, jd, g)
            <==> p == q && id == jd && SanitizeFilename(f) == SanitizeFilename(g)
  {
    if StorageKey(h, p, id, f) == StorageKey(h, q, jd, g) {
      SanitizedHasNoSlash(f);
      SanitizedHasNoSlash(g);
      LastSlashSplits(StoragePrefix(h, p) + id, SanitizeFilename(f), StoragePrefix(h, q) + jd, SanitizeFilename(g));
      StoragePrefixesDisjoint(h, p, q, id, jd);
    }
  }

  /** The namespace an orphan purge of `documentId` may touch. */
  function DocumentPrefix(h: Hash, p: DocumentPartition, documentId: string): string {
    StoragePrefix(h, p) + documentId + "/"
  }

  /** A document's key lies in the purge namespace of `documentId` exactly when it is that
      document's, or an id of the same partition extends `documentId` by a slash. */
  lemma PurgeNamespace(h: Hash, p: DocumentPartition, documentId: string, q: DocumentPartition, id: string, f: string)
    requires HexDigests(h) && NoCollision(h, p.partitionId, q.partitionId)
    ensures DocumentPrefix(h, p, documentId) <= StorageKey(h, q, id, f)
            <==> p == q && (id == documentId || documentId + "/" <= id)
  {
    if DocumentPrefix(h, p, documentId) <= StorageKey(h, q, id, f) {
      NamespaceHolds(h, p, documentId, q, id, f);
    }
    if p == q && (id == documentId || documentId + "/" <= id) {
      NamespaceReaches(h, p, documentId, id, f);
    }
  }

  lemma NamespaceHolds(h: Hash, p: DocumentPartition, documentId: string, q: DocumentPartition, id: string, f: string)
    requires HexDigests(h) && NoCollision(h, p.partitionId, q.partitionId)
    requires DocumentPrefix(h, p, documentId) <= StorageKey(h, q, id, f)
    ensures p == q && (id == documentId || documentId + "/" <= id)
  {
    var key, name := StorageKey(h, q, id, f), SanitizeFilename(f);
    var rest := key[|DocumentPrefix(h, p, documentId)|..];
    assert StoragePrefix(h, p) + (documentId + "/" + rest) == key;
    assert StoragePrefix(h, q) + (id + "/" + name) == key;
    StoragePrefixesDisjoint(h, p, q, documentId + "/" + rest, id + "/" + name);
    SanitizedHasNoSlash(f);
    SlashExtends(documentId, rest, id, name);
  }

  lemma NamespaceReaches(h: Hash, p: DocumentPartition, documentId: string, id: string, f: string)
    requires id == documentId || documentId + "/" <= id
    ensures DocumentPrefix(h, p, documentId) <= StorageKey(h, p, id, f)
  {
    var key, name := StorageKey(h, p, id, f), SanitizeFilename(f);
    if id == documentId {
      assert key == DocumentPrefix(h, p, documentId) + name;
    } else {
      var rest := id[|documentId| + 1..];
      assert id == documentId + "/" + rest;
      assert key == DocumentPrefix(h, p, documentId) + (rest + "/" + name);
    }
  }

  lemma SlashExtends(d: string, rest: string, id: string, name: string)
    requires SlashFree(name) && d + "/" + rest == id + "/" + name
    ensures id == d || d + "/" <= id
  {
    var s := d + "/" + rest;
    LastSlash(id, name);
    assert s[|d|] == '/';
    assert d == s[..|d|] == id[..|d|];
    if |d| < |id| {
      assert id[|d|] == s[|d|];
    }
  }

  /** With slash-free ids a purge of one document cannot reach another document's object. */
  lemma SlashFreePurgeIsPrivate(h: Hash, p: DocumentPartition, documentId: string,
                                q: DocumentPartition, id: string, f: string)
    requires HexDigests(h) && NoCollision(h, p.partitionId, q.partitionId) && SlashFree(id)
    ensures DocumentPrefix(h, p, documentId) <= StorageKey(h, q, id, f) <==> p == q && id == documentId
  {
    PurgeNamespace(h, p, documentId, q, id, f);
    assert (documentId + "/")[|documentId|] == '/';
  }
}
