/**
  Go's string and integer representations as the connection-string builder
  sees them: a Go string is a sequence of bytes, a Go `int` is 64 bits wide
  (on the 64-bit platforms the builder targets), and Go's fmt renders an
  integer in decimal with a leading '-' when it is negative.
 */
module GoBytes {

  datatype Option<+T> = None | Some(value: T)

  /** A Go byte, spelled as the character with the same code so that string literals read naturally. */
  type byte = c: char | c as int < 256

  /** A Go string: any sequence of bytes, with no encoding imposed. */
  type GoString = seq<byte>

  /** Go's `int` on a 64-bit platform. */
  newtype int64 = x: int | -0x8000_0000_0000_0000 <= x < 0x8000_0000_0000_0000

  predicate IsDigit(b: byte) {
    '0' <= b <= '9'
  }

  predicate AllDigits(s: GoString) {
    forall i | 0 <= i < |s| :: IsDigit(s[i])
  }

  function DigitChar(d: nat): (b: byte)
    requires d < 10
    ensures IsDigit(b) && DigitValue(b) == d
  {
    ('0' as int + d) as char
  }

  function DigitValue(b: byte): (d: nat)
    requires IsDigit(b)
    ensures d < 10
  {
    b as int - '0' as int
  }

  /** The decimal digits of n, most significant first, with no leading zeros. */
  function NatDecimal(n: nat): (r: GoString)
    ensures r != [] && AllDigits(r)
    ensures |r| > 1 ==> r[0] != '0'
  {
    if n < 10 then [DigitChar(n)] else NatDecimal(n / 10) + [DigitChar(n % 10)]
  }

  /** How Go's fmt writes an integer in base 10 (the `%d` and `%v` forms). */
  function Decimal(n: int): (r: GoString)
    ensures r != []
    ensures r[0] == '-' <==> n < 0
    ensures forall i | 0 < i < |r| :: IsDigit(r[i])
  {
    if n < 0 then ['-'] + NatDecimal(-n) else NatDecimal(n)
  }

  /** The value of a run of decimal digits. */
  function ParseNat(s: GoString): nat
    requires AllDigits(s)
  {
    if s == [] then 0 else 10 * ParseNat(s[..|s| - 1]) + DigitValue(s[|s| - 1])
  }

  /** Reads an optionally negative decimal integer; anything else is refused. */
  function ParseDecimal(s: GoString): Option<int> {
    if s != [] && s[0] == '-' then
      if |s| > 1 && AllDigits(s[1..]) then Some(-(ParseNat(s[1..]) as int)) else None
    else if s != [] && AllDigits(s) then Some(ParseNat(s))
    else None
  }

  lemma {:induction false} ParseNatDecimal(n: nat)
    ensures ParseNat(NatDecimal(n)) == n
  {
    if n >= 10 {
      var r := NatDecimal(n);
      assert r[..|r| - 1] == NatDecimal(n / 10);
      ParseNatDecimal(n / 10);
    }
  }

  /** Decimal loses nothing: the integer can be read back from its rendering. */
  lemma DecimalRoundTrip(n: int)
    ensures ParseDecimal(Decimal(n)) == Some(n)
  {
    if n < 0 {
      assert Decimal(n)[1..] == NatDecimal(-n);
      ParseNatDecimal(-n);
    } else {
      ParseNatDecimal(n);
    }
  }

  /**
    Splits s at the first occurrence of sep: the part before it (which holds no
    sep) and the part after it; None when sep does not occur.
   */
  function SplitAt(s: GoString, sep: byte): (r: Option<(GoString, GoString)>)
    ensures r.None? <==> sep !in s
    ensures r.Some? ==> sep !in r.value.0 && s == r.value.0 + [sep] + r.value.1
  {
    if s == [] then None
    else if s[0] == sep then Some(([], s[1..]))
    else match SplitAt(s[1..], sep)
      case None => None
      case Some((a, b)) => Some(([s[0]] + a, b))
  }

  /** Splitting finds the separator that was put in, provided the first part holds none. */
  lemma {:induction false} SplitAtConcat(a: GoString, sep: byte, b: GoString)
    requires sep !in a
    ensures SplitAt(a + ([sep] + b), sep) == Some((a, b))
  {
    var s := a + ([sep] + b);
    if a == [] {
      assert s == [sep] + b;
      assert s[1..] == b;
    } else {
      assert s[0] == a[0] != sep;
      assert s[1..] == a[1..] + ([sep] + b);
      SplitAtConcat(a[1..], sep, b);
      assert [a[0]] + a[1..] == a;
    }
  }

  lemma ConcatAssoc(a: GoString, b: GoString, c: GoString)
    ensures a + (b + c) == (a + b) + c
  {
  }

  predicate HasPrefix(s: GoString, p: GoString) {
    |p| <= |s| && s[..|p|] == p
  }

  /** s without the prefix p, or None when s does not start with p. */
  function StripPrefix(s: GoString, p: GoString): (r: Option<GoString>)
    ensures r.Some? <==> HasPrefix(s, p)
    ensures r.Some? ==> s == p + r.value
  {
    if HasPrefix(s, p) then Some(s[|p|..]) else None
  }

  lemma StripPrefixConcat(p: GoString, t: GoString)
    ensures StripPrefix(p + t, p) == Some(t)
  {
    assert (p + t)[..|p|] == p;
    assert (p + t)[|p|..] == t;
  }
}
