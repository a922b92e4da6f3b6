/** The SQL LIKE operator without an escape, and what clearing upload operations by a
    partition's scope prefix selects. */
module Like {
  import opened Domain
  import opened Namespaces

  /** Letters compare exactly (PostgreSQL) or without regard to ASCII case (SQLite). */
  datatype CaseRule = Sensitive | Insensitive

  function LowerAscii(c: char): char {
    if 'A' <= c <= 'Z' then (c as int + 32) as char else c
  }

  predicate SameChar(rule: CaseRule, a: char, b: char) {
    a == b || (rule.Insensitive? && LowerAscii(a) == LowerAscii(b))
  }

  /** Case is disregarded for the letters of ASCII only, and only by the second rule. */
  lemma SameCharMeans(rule: CaseRule, a: char, b: char)
    ensures SameChar(rule, a, b) <==>
            || a == b
            || (rule == Insensitive && 'a' <= a <= 'z' && b as int == a as int - 32)
            || (rule == Insensitive && 'a' <= b <= 'z' && a as int == b as int - 32)
  {
  }

  predicate Matches(rule: CaseRule, pattern: string, s: string)
    decreases |pattern| + |s|
  {
    if pattern == [] then s == []
    else if pattern[0] == '%' then
      Matches(rule, pattern[1..], s) || (s != [] && Matches(rule, pattern, s[1..]))
    else
      s != [] && (pattern[0] == '_' || SameChar(rule, pattern[0], s[0])) && Matches(rule, pattern[1..], s[1..])
  }

  /** An underscore stands for exactly one character. */
  lemma UnderscoreMatches(rule: CaseRule, s: string)
    ensures Matches(rule, "_", s) <==> |s| == 1
  {
    assert "_"[1..] == [];
  }

  /** What a prefix pattern is made of: no wildcard and no capital letter. */
  predicate PlainChar(c: char) {
    c != '%' && c != '_' && !('A' <= c <= 'Z')
  }

  predicate Plain(s: string) {
    forall i :: 0 <= i < |s| ==> PlainChar(s[i])
  }

  lemma {:induction false} PercentMatchesAll(rule: CaseRule, s: string)
    ensures Matches(rule, "%", s)
    decreases |s|
  {
    if s != [] { PercentMatchesAll(rule, s[1..]); } else { assert "%"[1..] == []; }
  }

  lemma {:induction false} PrefixPattern(rule: CaseRule, prefix: string, s: string)
    requires Plain(prefix)
    ensures Matches(rule, prefix + "%", s)
            <==> |prefix| <= |s| && forall i :: 0 <= i < |prefix| ==> SameChar(rule, prefix[i], s[i])
    decreases |prefix|
  {
    var pattern := prefix + "%";
    if prefix == [] {
      assert pattern == "%";
      PercentMatchesAll(rule, s);
    } else {
      assert PlainChar(prefix[0]) && pattern[0] == prefix[0];
      assert pattern[1..] == prefix[1..] + "%";
      if s != [] {
        PrefixPattern(rule, prefix[1..], s[1..]);
        assert forall i :: 1 <= i < |prefix| && i < |s| ==> prefix[1..][i - 1] == prefix[i] && s[1..][i - 1] == s[i];
        if |prefix| <= |s| && forall i :: 0 <= i < |prefix| ==> SameChar(rule, prefix[i], s[i]) {
          forall i | 0 <= i < |prefix[1..]| ensures SameChar(rule, prefix[1..][i], s[1..][i]) {
            assert SameChar(rule, prefix[i + 1], s[i + 1]);
          }
        }
        if && |prefix[1..]| <= |s[1..]|
           && forall i :: 0 <= i < |prefix[1..]| ==> SameChar(rule, prefix[1..][i], s[1..][i])
        {
          forall i | 1 <= i < |prefix| ensures SameChar(rule, prefix[i], s[i]) {
            assert SameChar(rule, prefix[1..][i - 1], s[1..][i - 1]);
          }
        }
      }
    }
  }

  lemma PlainCharsSame(rule: CaseRule, a: char, b: char)
    requires PlainChar(a) && PlainChar(b)
    ensures SameChar(rule, a, b) <==> a == b
  {
  }

  lemma ScopePrefixIsPlain(h: Hash, p: DocumentPartition)
    requires HexDigests(h)
    ensures Plain(OperationScopePrefix(h, p))
  {
    assert IsHexDigest(h(p.partitionId));
    assert Plain("partition:") && Plain("personal") && Plain("group") && Plain(":");
    assert Plain(h(p.partitionId));
  }

  /** The pattern of one partition selects exactly the scopes built for that partition,
      whatever the scope names hold and whichever way letters compare. */
  lemma ScopePatternExact(rule: CaseRule, h: Hash, p: DocumentPartition, q: DocumentPartition, scope: string)
    requires HexDigests(h) && NoCollision(h, p.partitionId, q.partitionId)
    ensures Matches(rule, OperationScopePrefix(h, p) + "%", OperationScope(h, q, scope)) <==> p == q
  {
    var a, b := OperationScopePrefix(h, p), OperationScopePrefix(h, q);
    var s := OperationScope(h, q, scope);
    ScopePrefixIsPlain(h, p);
    ScopePrefixIsPlain(h, q);
    PrefixPattern(rule, a, s);
    if Matches(rule, a + "%", s) {
      SameKind(rule, h, p, q, scope);
      assert |a| == |b|;
      forall i | 0 <= i < |a| ensures a[i] == b[i] {
        assert SameChar(rule, a[i], s[i]) && s[i] == b[i];
        PlainCharsSame(rule, a[i], b[i]);
      }
      assert a + "" == b + "";
      ScopePrefixesDisjoint(h, p, q, "", "");
    }
    if p == q {
      assert forall i :: 0 <= i < |a| ==> s[i] == a[i];
    }
  }

  lemma SameKind(rule: CaseRule, h: Hash, p: DocumentPartition, q: DocumentPartition, scope: string)
    requires HexDigests(h)
    requires var a, s := OperationScopePrefix(h, p), OperationScope(h, q, scope);
             |a| <= |s| && forall i :: 0 <= i < |a| ==> SameChar(rule, a[i], s[i])
    ensures p.kind == q.kind && |OperationScopePrefix(h, p)| == |OperationScopePrefix(h, q)|
  {
    var a, s := OperationScopePrefix(h, p), OperationScope(h, q, scope);
    assert IsHexDigest(h(p.partitionId)) && IsHexDigest(h(q.partitionId));
    assert a[10] == KindValue(p.kind)[0];
    assert s[10] == KindValue(q.kind)[0];
    assert SameChar(rule, a[10], s[10]);
  }
}
