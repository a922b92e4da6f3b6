/** Base64 with the URL-safe alphabet (section 5 of RFC 4648): the encoder pads, the
    cursor drops the padding, the decoder restores it by the length and is strict. */
module Base64Url {
  import opened Domain
  import opened Text

  const PAD := 61

  function Symbol(v: int): CodePoint
    requires 0 <= v < 64
  {
    if v < 26 then 65 + v else if v < 52 then 71 + v else if v < 62 then v - 4 else if v == 62 then 45 else 95
  }

  /** `altchars` are translated before decoding, so `+` and `/` are accepted as well. */
  function SymbolValue(c: CodePoint): (v: int)
    ensures -1 <= v < 64
  {
    if 65 <= c <= 90 then c - 65
    else if 97 <= c <= 122 then c - 71
    else if 48 <= c <= 57 then c + 4
    else if c == 45 || c == 43 then 62
    else if c == 95 || c == 47 then 63
    else -1
  }

  /** The symbols, those of the standard alphabet included. */
  lemma SymbolsAccepted(c: CodePoint)
    ensures SymbolValue(c) >= 0 <==>
            || 'A' as int <= c <= 'Z' as int || 'a' as int <= c <= 'z' as int || '0' as int <= c <= '9' as int
            || c == '-' as int || c == '_' as int || c == '+' as int || c == '/' as int
    ensures SymbolValue('+' as int) == SymbolValue('-' as int) == 62
    ensures SymbolValue('/' as int) == SymbolValue('_' as int) == 63
  {
  }

  lemma SymbolReads(v: int)
    requires 0 <= v < 64
    ensures SymbolValue(Symbol(v)) == v && Symbol(v) != PAD
  {
  }

  /** The alphabet of section 5 of RFC 4648: the capitals, the small letters, the digits, `-`, `_`. */
  lemma AlphabetSpelled(v: int)
    requires 0 <= v < 64
    ensures Symbol(0) == 'A' as int && Symbol(26) == 'a' as int && Symbol(52) == '0' as int
    ensures Symbol(62) == '-' as int && Symbol(63) == '_' as int
    ensures v != 25 && v != 51 && v < 61 ==> Symbol(v + 1) == Symbol(v) + 1
  {
  }

  /** The symbols of the data, without padding. */
  function Bare(b: seq<Byte>): Text {
    if b == [] then []
    else if |b| == 1 then [Symbol(b[0] / 4), Symbol(b[0] % 4 * 16)]
    else if |b| == 2 then [Symbol(b[0] / 4), Symbol(b[0] % 4 * 16 + b[1] / 16), Symbol(b[1] % 16 * 4)]
    else Quad(b[0], b[1], b[2]) + Bare(b[3..])
  }

  /** Three bytes as four symbols. */
  function Quad(x: Byte, y: Byte, z: Byte): Text {
    [Symbol(x / 4), Symbol(x % 4 * 16 + y / 16), Symbol(y % 16 * 4 + z / 64), Symbol(z % 64)]
  }

  /** A symbol's value is its place in the alphabet, most significant first: four symbols hold the 24
      bits of three bytes; two hold one byte and four zero bits; three hold two bytes and two. */
  lemma BitsKept(x: Byte, y: Byte, z: Byte)
    ensures var q := Quad(x, y, z);
            |q| == 4 && ((SymbolValue(q[0]) * 64 + SymbolValue(q[1])) * 64 + SymbolValue(q[2])) * 64 + SymbolValue(q[3])
                        == (x * 256 + y) * 256 + z
    ensures var q := Bare([x, y]);
            |q| == 3 && (SymbolValue(q[0]) * 64 + SymbolValue(q[1])) * 64 + SymbolValue(q[2]) == (x * 256 + y) * 4
    ensures var q := Bare([x]); |q| == 2 && SymbolValue(q[0]) * 64 + SymbolValue(q[1]) == x * 16
  {
    SymbolReads(x / 4);
    SymbolReads(x % 4 * 16 + y / 16);
    SymbolReads(y % 16 * 4 + z / 64);
    SymbolReads(z % 64);
    SymbolReads(y % 16 * 4);
    SymbolReads(x % 4 * 16);
  }

  function Pads(n: nat): Text {
    seq(n, _ => PAD)
  }

  /** The padding of an encoding of `n` bytes. */
  function EncodingPads(n: nat): nat {
    (3 - n % 3) % 3
  }

  /** `-length % 4`. */
  function MissingPads(length: nat): nat {
    (4 - length % 4) % 4
  }

  function Encode(b: seq<Byte>): Text {
    Bare(b) + Pads(EncodingPads(|b|))
  }

  /** `rstrip("=")`. */
  function StripPads(t: Text): Text {
    if t == [] || t[|t| - 1] != PAD then t else StripPads(t[..|t| - 1])
  }

  /** `t + "=" * (-len(t) % 4)`. */
  function Repad(t: Text): Text {
    t + Pads(MissingPads(|t|))
  }

  predicate IsData(t: Text) {
    forall i :: 0 <= i < |t| ==> SymbolValue(t[i]) >= 0
  }

  function Data(t: Text): seq<Byte>
    requires IsData(t) && |t| % 4 != 1
  {
    if t == [] then []
    else
      var v0, v1 := SymbolValue(t[0]), SymbolValue(t[1]);
      if |t| == 2 then [v0 * 4 + v1 / 16]
      else
        var v2 := SymbolValue(t[2]);
        if |t| == 3 then [v0 * 4 + v1 / 16, v1 % 16 * 16 + v2 / 4]
        else Triple(v0, v1, v2, SymbolValue(t[3])) + Data(t[4..])
  }

  /** Four six-bit values as three bytes. */
  function Triple(a: int, b: int, c: int, d: int): seq<Byte>
    requires 0 <= a < 64 && 0 <= b < 64 && 0 <= c < 64 && 0 <= d < 64
  {
    [a * 4 + b / 16, b % 16 * 16 + c / 4, c % 4 * 64 + d]
  }

  /** Strict decoding: only alphabet symbols, padding only at the end and as much as the
      data needs. (After complete quanta the decoder tolerates further padding.) */
  function Decode(t: Text): Option<seq<Byte>> {
    var d := StripPads(t);
    DecodeBare(d, |t| - |d|)
  }

  function DecodeBare(d: Text, pads: int): Option<seq<Byte>> {
    if IsData(d) && MayPad(|d|, pads) then Some(Data(d)) else None
  }

  /** How much padding may follow a number of symbols. */
  predicate MayPad(length: nat, pads: int) {
    length % 4 != 1 && (pads == MissingPads(length) || (length % 4 == 0 && length > 0))
  }

  // ---- Lengths and round trip ----------------------------------------------------

  /** `3 k + r` bytes make `4 k` symbols and `r + 1` more if `r` is not 0. */
  lemma {:induction false} BareShape(b: seq<Byte>) returns (k: nat, r: nat)
    ensures |b| == 3 * k + r && r < 3
    ensures |Bare(b)| == 4 * k + if r == 0 then 0 else r + 1
  {
    if |b| > 2 {
      k, r := BareShape(b[3..]);
      k := k + 1;
    } else {
      k, r := 0, |b|;
    }
  }

  lemma ShapeCounts(n: nat, length: nat, k: nat, r: nat)
    requires n == 3 * k + r && r < 3 && length == 4 * k + if r == 0 then 0 else r + 1
    ensures length == (4 * n + 2) / 3
    ensures MissingPads(length) == EncodingPads(n) && length % 4 != 1
  {
    assert n % 3 == r && length % 4 == if r == 0 then 0 else r + 1;
    assert (4 * n + 2) / 3 == 4 * k + (4 * r + 2) / 3;
  }

  lemma BareCounts(b: seq<Byte>)
    ensures |Bare(b)| == (4 * |b| + 2) / 3
    ensures MissingPads(|Bare(b)|) == EncodingPads(|b|) && |Bare(b)| % 4 != 1
  {
    var k, r := BareShape(b);
    ShapeCounts(|b|, |Bare(b)|, k, r);
  }

  lemma {:induction false} BareIsData(b: seq<Byte>)
    ensures IsData(Bare(b))
  {
    if |b| > 2 {
      BareIsData(b[3..]);
    }
  }

  /** Three bytes cut into four six-bit values can be put together again. */
  lemma QuantumReads(x: Byte, y: Byte, z: Byte)
    ensures var a, b, c, d := x / 4, x % 4 * 16 + y / 16, y % 16 * 4 + z / 64, z % 64;
            a < 64 && b < 64 && c < 64 && d < 64
            && a * 4 + b / 16 == x && b % 16 * 16 + c / 4 == y && c % 4 * 64 + d == z
  {
  }

  lemma QuadReads(x: Byte, y: Byte, z: Byte)
    ensures var q := Quad(x, y, z);
            IsData(q) && Triple(SymbolValue(q[0]), SymbolValue(q[1]), SymbolValue(q[2]), SymbolValue(q[3])) == [x, y, z]
  {
    QuantumReads(x, y, z);
    SymbolReads(x / 4);
    SymbolReads(x % 4 * 16 + y / 16);
    SymbolReads(y % 16 * 4 + z / 64);
    SymbolReads(z % 64);
  }

  lemma DataOfQuad(q: Text, rest: Text)
    requires |q| == 4 && IsData(q) && IsData(rest) && |rest| % 4 != 1
    ensures var t := q + rest;
            IsData(t) && |t| % 4 != 1
            && Data(t) == Triple(SymbolValue(q[0]), SymbolValue(q[1]), SymbolValue(q[2]), SymbolValue(q[3]))
                + Data(rest)
  {
    var t := q + rest;
    assert t[4..] == rest;
  }

  lemma TailReads(b: seq<Byte>)
    requires |b| < 3 && IsData(Bare(b)) && |Bare(b)| % 4 != 1
    ensures Data(Bare(b)) == b
  {
    if |b| == 1 {
      OneReads(b[0]);
    } else if |b| == 2 {
      TwoRead(b[0], b[1]);
    }
  }

  lemma OneReads(x: Byte)
    ensures var t := Bare([x]); |t| == 2 && IsData(t) && Data(t) == [x]
  {
    QuantumReads(x, 0, 0);
    SymbolReads(x / 4);
    SymbolReads(x % 4 * 16);
  }

  lemma TwoRead(x: Byte, y: Byte)
    ensures var t := Bare([x, y]); |t| == 3 && IsData(t) && Data(t) == [x, y]
  {
    var a, b, c := x / 4, x % 4 * 16 + y / 16, y % 16 * 4;
    QuantumReads(x, y, 0);
    SymbolReads(a);
    SymbolReads(b);
    SymbolReads(c);
    assert Bare([x, y]) == [Symbol(a), Symbol(b), Symbol(c)];
    DataOfThree(Bare([x, y]), a, b, c);
  }

  lemma DataOfThree(t: Text, a: int, b: int, c: int)
    requires |t| == 3 && 0 <= a < 64 && 0 <= b < 64 && 0 <= c < 64
    requires SymbolValue(t[0]) == a && SymbolValue(t[1]) == b && SymbolValue(t[2]) == c
    ensures IsData(t) && Data(t) == [a * 4 + b / 16, b % 16 * 16 + c / 4]
  {
  }

  lemma {:induction false} BareReads(b: seq<Byte>)
    requires IsData(Bare(b)) && |Bare(b)| % 4 != 1
    ensures Data(Bare(b)) == b
  {
    if |b| < 3 {
      TailReads(b);
    } else {
      var q, rest := Quad(b[0], b[1], b[2]), b[3..];
      assert Bare(b) == q + Bare(rest);
      BareIsData(rest);
      BareCounts(rest);
      BareReads(rest);
      QuadReads(b[0], b[1], b[2]);
      DataOfQuad(q, Bare(rest));
      assert b == [b[0], b[1], b[2]] + rest;
    }
  }

  lemma {:induction false} StripOfPads(t: Text, n: nat)
    requires t == [] || t[|t| - 1] != PAD
    ensures StripPads(t + Pads(n)) == t
  {
    if n == 0 {
      assert t + Pads(0) == t;
    } else {
      var s := t + Pads(n);
      assert s[..|s| - 1] == t + Pads(n - 1);
      StripOfPads(t, n - 1);
    }
  }

  lemma RepadAdds(t: Text, n: nat)
    requires MissingPads(|t|) == n
    ensures Repad(t) == t + Pads(n) && |Repad(t)| == |t| + n
  {
  }

  lemma EncodedEndsInData(b: seq<Byte>)
    ensures Bare(b) == [] || Bare(b)[|Bare(b)| - 1] != PAD
  {
    BareIsData(b);
    assert Bare(b) != [] ==> SymbolValue(Bare(b)[|Bare(b)| - 1]) >= 0;
  }

  /** What the cursor keeps of an encoding is the bare symbols, and re-padding them by
      their length restores exactly the padding that was dropped. */
  lemma PaddingRestored(b: seq<Byte>)
    ensures StripPads(Encode(b)) == Bare(b) && Repad(Bare(b)) == Encode(b)
  {
    var n := EncodingPads(|b|);
    EncodedEndsInData(b);
    StripOfPads(Bare(b), n);
    BareCounts(b);
    RepadAdds(Bare(b), n);
  }

  /** Decoding the stripped and re-padded encoding gives the data back. */
  lemma RoundTrip(b: seq<Byte>)
    ensures Decode(Repad(StripPads(Encode(b)))) == Some(b)
    ensures |StripPads(Encode(b))| == (4 * |b| + 2) / 3
  {
    PaddingRestored(b);
    BareCounts(b);
    EncodedDecodes(b);
  }

  lemma EncodedDecodes(b: seq<Byte>)
    ensures Decode(Encode(b)) == Some(b)
  {
    PaddingRestored(b);
    BareIsData(b);
    BareCounts(b);
    BareReads(b);
    RepadAdds(Bare(b), EncodingPads(|b|));
    assert MayPad(|Bare(b)|, |Encode(b)| - |Bare(b)|);
    assert Decode(Encode(b)) == DecodeBare(Bare(b), |Encode(b)| - |Bare(b)|);
  }

  /** What the strict decoder accepts: symbols only, not one over a multiple of four, and then two
      pads after two over, one after three over, and none or, after complete quanta, any number. */
  lemma DecodesExactly(d: Text, n: nat)
    requires d == [] || d[|d| - 1] != PAD
    ensures Decode(d + Pads(n)).Some? <==>
            && (forall i :: 0 <= i < |d| ==> SymbolValue(d[i]) >= 0)
            && |d| % 4 != 1 && (|d| % 4 == 2 ==> n == 2) && (|d| % 4 == 3 ==> n == 1) && (d == [] ==> n == 0)
  {
    StripOfPads(d, n);
    assert Decode(d + Pads(n)) == DecodeBare(d, n);
  }
}
