/**
  The two text renderings the bridge uses: Go's `%d` verb (for `fmt.Sprintf`
  and `fmt.Errorf`) and `hex.EncodeToString`. Each comes with the parser that
  inverts it, so that the rendering is shown to lose no information.
 */
module GoFormat {
  import opened GoInts

  // ---------------------------------------------------------------------------
  // Decimal digits (the `%d` verb)

  predicate IsDigit(c: char) { '0' <= c <= '9' }

  predicate AllDigits(s: string) { forall i :: 0 <= i < |s| ==> IsDigit(s[i]) }

  function DigitChar(d: nat): (c: char)
    requires d < 10
    ensures IsDigit(c) && DigitValue(c) == d
  {
    "0123456789"[d]
  }

  function DigitValue(c: char): (d: nat)
    requires IsDigit(c)
    ensures d < 10
  {
    (c as int - '0' as int)
  }

  /** `%d` of a non-negative integer: its shortest decimal numeral. */
  function Decimal(n: nat): (s: string)
    ensures 1 <= |s| && AllDigits(s)
    ensures |s| > 1 ==> s[0] != '0'
    decreases n
  {
    if n < 10 then [DigitChar(n)] else Decimal(n / 10) + [DigitChar(n % 10)]
  }

  /** The value of a decimal numeral, most significant digit first. */
  function ParseDecimal(s: string): (n: nat)
    requires AllDigits(s)
    decreases |s|
  {
    if s == [] then 0 else ParseDecimal(s[..|s| - 1]) * 10 + DigitValue(s[|s| - 1])
  }

  /** Reading back a rendered numeral gives the number rendered. */
  lemma {:induction false} ParseDecimalOfDecimal(n: nat)
    ensures ParseDecimal(Decimal(n)) == n
    decreases n
  {
    var s := Decimal(n);
    if n >= 10 {
      assert s[..|s| - 1] == Decimal(n / 10);
      ParseDecimalOfDecimal(n / 10);
    }
  }

  /** `%d` of a signed integer: a minus sign before the magnitude when negative. */
  function SignedDecimal(x: int): (s: string)
    ensures 1 <= |s|
    ensures x < 0 <==> s[0] == '-'
    ensures x < 0 ==> AllDigits(s[1..]) && 1 < |s| && (|s| > 2 ==> s[1] != '0')
    ensures 0 <= x ==> AllDigits(s) && (|s| > 1 ==> s[0] != '0')
  {
    if x < 0 then "-" + Decimal(-x) else Decimal(x)
  }

  /** The value of a rendered signed numeral. */
  function ParseSignedDecimal(s: string): int
    requires 1 <= |s|
    requires if s[0] == '-' then AllDigits(s[1..]) else AllDigits(s)
  {
    if s[0] == '-' then 0 - ParseDecimal(s[1..]) else ParseDecimal(s)
  }

  /** Reading back a rendered signed numeral gives the number rendered. */
  lemma SignedDecimalRoundTrip(x: int)
    ensures ParseSignedDecimal(SignedDecimal(x)) == x
  {
    if x < 0 {
      var d := Decimal(-x);
      assert ("-" + d)[0] == '-' && ("-" + d)[1..] == d;
      ParseDecimalOfDecimal(-x);
    } else {
      ParseDecimalOfDecimal(x);
    }
  }

  // ---------------------------------------------------------------------------
  // Lower-case hexadecimal (`hex.EncodeToString`)

  predicate IsHexDigit(c: char) { '0' <= c <= '9' || 'a' <= c <= 'f' }

  predicate AllHexDigits(s: string) { forall i :: 0 <= i < |s| ==> IsHexDigit(s[i]) }

  function HexChar(d: nat): (c: char)
    requires d < 16
    ensures IsHexDigit(c) && HexValue(c) == d
  {
    "0123456789abcdef"[d]
  }

  function HexValue(c: char): (d: nat)
    requires IsHexDigit(c)
    ensures d < 16
  {
    if c <= '9' then c as int - '0' as int else c as int - 'a' as int + 10
  }

  /** `hex.EncodeToString`: two lower-case hex digits per byte, high nibble first. */
  function HexEncode(b: seq<byte>): (s: string)
    ensures |s| == 2 * |b| && AllHexDigits(s)
  {
    if b == [] then [] else [HexChar(b[0] / 16), HexChar(b[0] % 16)] + HexEncode(b[1..])
  }

  /** The bytes named by an even-length lower-case hex string. */
  function HexDecode(s: string): (b: seq<byte>)
    requires |s| % 2 == 0 && AllHexDigits(s)
    decreases |s|
  {
    if s == [] then [] else [HexValue(s[0]) * 16 + HexValue(s[1])] + HexDecode(s[2..])
  }

  /** Decoding the hex rendering of a byte string gives that byte string back. */
  lemma {:induction false} HexRoundTrip(b: seq<byte>)
    ensures HexDecode(HexEncode(b)) == b
  {
    if b != [] {
      var s := HexEncode(b);
      assert s[2..] == HexEncode(b[1..]);
      HexRoundTrip(b[1..]);
    }
  }
}
