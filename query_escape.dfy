/**
  Go's `url.QueryEscape`, which the connection-string builder applies to the
  SSL mode, and its inverse `url.QueryUnescape`. Escaping works byte by byte:
  the unreserved characters of section 2.3 of RFC 3986 are kept, a space
  becomes '+', and every other byte becomes '%' followed by two upper-case
  hexadecimal digits.
 */
module QueryEscaping {
  import opened GoBytes

  /** Section 2.3 of RFC 3986: ALPHA / DIGIT / "-" / "." / "_" / "~". */
  predicate IsUnreserved(b: byte) {
    'A' <= b <= 'Z' || 'a' <= b <= 'z' || '0' <= b <= '9' ||
    b == '-' || b == '_' || b == '.' || b == '~'
  }

  predicate AllUnreserved(s: GoString) {
    forall i | 0 <= i < |s| :: IsUnreserved(s[i])
  }

  predicate IsUpperHex(b: byte) {
    '0' <= b <= '9' || 'A' <= b <= 'F'
  }

  /** What QueryUnescape accepts after a '%': a hexadecimal digit of either case. */
  predicate IsHex(b: byte) {
    IsUpperHex(b) || 'a' <= b <= 'f'
  }

  function UpperHex(n: nat): (b: byte)
    requires n < 16
    ensures IsUpperHex(b) && HexValue(b) == n
  {
    if n < 10 then ('0' as int + n) as char else ('A' as int + n - 10) as char
  }

  function HexValue(b: byte): (n: nat)
    requires IsHex(b)
    ensures n < 16
  {
    if '0' <= b <= '9' then b as int - '0' as int
    else if 'A' <= b <= 'F' then b as int - 'A' as int + 10
    else b as int - 'a' as int + 10
  }

  /** The escaped form of one byte. */
  function EscapeByte(b: byte): GoString {
    if IsUnreserved(b) then [b]
    else if b == ' ' then ['+']
    else ['%', UpperHex(b as int / 16), UpperHex(b as int % 16)]
  }

  /**
    The shape of QueryEscape's output: unreserved bytes and '+', and '%'
    only at the head of a triple with two upper-case hexadecimal digits.
   */
  predicate IsQueryEscaped(s: GoString)
    decreases |s|
  {
    if s == [] then true
    else if IsUnreserved(s[0]) || s[0] == '+' then IsQueryEscaped(s[1..])
    else s[0] == '%' && |s| >= 3 && IsUpperHex(s[1]) && IsUpperHex(s[2]) && IsQueryEscaped(s[3..])
  }

  /** `url.QueryEscape`. */
  function QueryEscape(s: GoString): (r: GoString)
    ensures IsQueryEscaped(r)
    ensures |r| >= |s|
    ensures r == [] <==> s == []
  {
    if s == [] then []
    else
      var e, t := EscapeByte(s[0]), QueryEscape(s[1..]);
      assert (e + t)[|e|..] == t;
      e + t
  }

  /** Escaping works byte by byte from the front. */
  lemma EscapeCons(b: byte, t: GoString)
    ensures QueryEscape([b] + t) == EscapeByte(b) + QueryEscape(t)
  {
    assert ([b] + t)[1..] == t;
  }

  /**
    `url.QueryUnescape`: '+' stands for a space, "%XY" for the byte with
    hexadecimal value XY (either case); a '%' not followed by two hexadecimal
    digits makes the whole string invalid.
   */
  function QueryUnescape(s: GoString): Option<GoString>
    decreases |s|
  {
    if s == [] then Some([])
    else if s[0] == '%' then
      if |s| >= 3 && IsHex(s[1]) && IsHex(s[2]) then
        match QueryUnescape(s[3..])
        case None => None
        case Some(t) => Some([(HexValue(s[1]) * 16 + HexValue(s[2])) as char] + t)
      else None
    else
      match QueryUnescape(s[1..])
      case None => None
      case Some(t) => Some([if s[0] == '+' then ' ' else s[0]] + t)
  }

  /** Escaping loses nothing: QueryUnescape recovers the original bytes. */
  lemma {:induction false} UnescapeEscape(s: GoString)
    ensures QueryUnescape(QueryEscape(s)) == Some(s)
  {
    if s != [] {
      var b, e, t := s[0], EscapeByte(s[0]), QueryEscape(s[1..]);
      var r := e + t;
      assert r[|e|..] == t;
      UnescapeEscape(s[1..]);
      if |e| == 3 {
        assert HexValue(r[1]) * 16 + HexValue(r[2]) == b as int;
      }
      assert [b] + s[1..] == s;
    }
  }

  /** Distinct SSL modes never escape to the same string. */
  lemma EscapeInjective(a: GoString, b: GoString)
    requires QueryEscape(a) == QueryEscape(b)
    ensures a == b
  {
    UnescapeEscape(a);
    UnescapeEscape(b);
  }

  /** Escaping leaves s as it is exactly when every byte of s is unreserved. */
  lemma {:induction false} EscapeFixpoint(s: GoString)
    ensures QueryEscape(s) == s <==> AllUnreserved(s)
  {
    if s != [] {
      EscapeFixpoint(s[1..]);
      var e, t := EscapeByte(s[0]), QueryEscape(s[1..]);
      if IsUnreserved(s[0]) {
        assert QueryEscape(s) == [s[0]] + t;
        if AllUnreserved(s) {
          assert AllUnreserved(s[1..]);
          assert [s[0]] + s[1..] == s;
        }
        if QueryEscape(s) == s {
          assert t == s[1..];
          assert forall i | 1 <= i < |s| :: s[i] == s[1..][i - 1];
        }
      } else {
        assert !AllUnreserved(s);
        if s[0] == ' ' {
          assert QueryEscape(s)[0] == '+';
        } else {
          assert |QueryEscape(s)| == 3 + |t| > |s|;
        }
      }
    }
  }

  /** An escaped string is free of escapes exactly when the original was. */
  lemma {:induction false} EscapeKeepsUnreserved(s: GoString)
    ensures AllUnreserved(QueryEscape(s)) <==> AllUnreserved(s)
  {
    if s != [] {
      EscapeKeepsUnreserved(s[1..]);
      var e, t := EscapeByte(s[0]), QueryEscape(s[1..]);
      var r := e + t;
      if IsUnreserved(s[0]) {
        assert AllUnreserved(s[1..]) <==> AllUnreserved(s) by {
          assert forall i | 1 <= i < |s| :: s[i] == s[1..][i - 1];
          assert forall j | 0 <= j < |s| - 1 :: s[1..][j] == s[j + 1];
        }
        assert AllUnreserved(t) <==> AllUnreserved(r) by {
          assert r == [s[0]] + t;
          assert forall i | 1 <= i < |r| :: r[i] == t[i - 1];
          assert forall j | 0 <= j < |t| :: t[j] == r[j + 1];
        }
      } else {
        assert !IsUnreserved(r[0]);
      }
    }
  }
}
