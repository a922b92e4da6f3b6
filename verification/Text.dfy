/** Python strings as sequences of code points (lone surrogates included), and decimals. */
module Text {

  type CodePoint = n: int | 0 <= n < 0x110000

  type Text = seq<CodePoint>

  /** The code points of a string of scalar values. */
  function Points(s: string): (t: Text)
    ensures |t| == |s| && forall i :: 0 <= i < |s| ==> t[i] == s[i] as int
  {
    seq(|s|, i requires 0 <= i < |s| => s[i] as int)
  }

  lemma PointsInjective(a: string, b: string)
    ensures Points(a) == Points(b) <==> a == b
  {
    if Points(a) == Points(b) {
      forall i | 0 <= i < |a| ensures a[i] == b[i] {
        assert Points(a)[i] == Points(b)[i];
      }
    }
  }

  lemma PointsConcat(a: string, b: string)
    ensures Points(a + b) == Points(a) + Points(b)
  {
  }

  /** The characters for which Python's `str.isspace` holds, which `strip` removes. */
  predicate IsSpacePoint(n: int) {
    9 <= n <= 13 || 28 <= n <= 32 || n == 0x85 || n == 0xA0 || n == 0x1680 || 0x2000 <= n <= 0x200A
    || n == 0x2028 || n == 0x2029 || n == 0x202F || n == 0x205F || n == 0x3000
  }

  /** `not t.strip()`. */
  predicate Blank(t: Text) {
    forall i :: 0 <= i < |t| ==> IsSpacePoint(t[i])
  }

  // ---- Decimal numbers -------------------------------------------------------

  function Digit(d: int): char
    requires 0 <= d < 10
  {
    (48 + d) as char
  }

  /** `str(n)`. */
  function Decimal(n: nat): (s: string)
    ensures |s| > 0 && forall i :: 0 <= i < |s| ==> '0' <= s[i] <= '9'
  {
    if n < 10 then [Digit(n)] else Decimal(n / 10) + [Digit(n % 10)]
  }

  function DecimalValue(t: Text): int {
    if t == [] then 0 else 10 * DecimalValue(t[..|t| - 1]) + (t[|t| - 1] as int - 48)
  }

  lemma {:induction false} DecimalReads(n: nat)
    ensures DecimalValue(Points(Decimal(n))) == n
    ensures n > 0 ==> Decimal(n)[0] != '0'
  {
    var t := Points(Decimal(n));
    if n < 10 {
      assert t[..|t| - 1] == [];
      assert t[|t| - 1] == 48 + n;
    } else {
      DecimalReads(n / 10);
      PointsConcat(Decimal(n / 10), [Digit(n % 10)]);
      assert t[..|t| - 1] == Points(Decimal(n / 10));
      assert t[|t| - 1] == 48 + n % 10;
    }
  }

  lemma DecimalInjective(m: nat, n: nat)
    ensures Decimal(m) == Decimal(n) <==> m == n
  {
    DecimalReads(m);
    DecimalReads(n);
  }
}
