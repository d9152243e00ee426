/**
  The one piece of Go's fmt that the connection-string builder depends on
  beyond `%s`: what Sprintf writes for an int argument under a verb that does
  not apply to integers. Go renders `%!<verb>(int=<decimal>)` in place of the
  number, so `%i` with 5432 produces `%!i(int=5432)`.
 */
module GoFmt {
  import opened GoBytes

  const BadVerbOpen: GoString := "%!"
  const IntArgOpen: GoString := "(int="

  /** Sprintf's rendering of an int under an unknown verb. */
  function BadVerbInt(verb: byte, n: int): (r: GoString)
    ensures '/' in r <==> verb == '/'
    ensures '?' in r <==> verb == '?'
    ensures HasPrefix(r, BadVerbOpen) && r[|r| - 1] == ')'
  {
    var d := Decimal(n);
    assert '/' !in d && ')' !in d && '?' !in d by {
      forall i | 0 <= i < |d| ensures d[i] != '/' && d[i] != ')' && d[i] != '?' {
        assert IsDigit(d[i]) || d[i] == '-';
      }
    }
    var r := BadVerbOpen + [verb] + IntArgOpen + d + [')'];
    assert r[..|BadVerbOpen|] == BadVerbOpen && r[2] == verb;
    assert forall i | 0 <= i < |r| :: r[i] == verb || r[i] in BadVerbOpen || r[i] in IntArgOpen || r[i] in d || r[i] == ')';
    r
  }

  /** Reads back the integer from a bad-verb rendering for the given verb. */
  function ParseBadVerbInt(verb: byte, s: GoString): Option<int> {
    match StripPrefix(s, BadVerbOpen + [verb] + IntArgOpen)
    case None => None
    case Some(t) =>
      if t != [] && t[|t| - 1] == ')' then ParseDecimal(t[..|t| - 1]) else None
  }

  /** The rendering keeps the integer: it can be read back from `%!verb(int=N)`. */
  lemma BadVerbIntRoundTrip(verb: byte, n: int)
    ensures ParseBadVerbInt(verb, BadVerbInt(verb, n)) == Some(n)
  {
    var p, d := BadVerbOpen + [verb] + IntArgOpen, Decimal(n);
    assert BadVerbInt(verb, n) == p + (d + [')']);
    StripPrefixConcat(p, d + [')']);
    assert (d + [')'])[..|d|] == d;
    DecimalRoundTrip(n);
  }

  /** The port is not written as a bare decimal: the rendering starts with '%'. */
  lemma BadVerbIntNotDecimal(verb: byte, n: int)
    ensures ParseDecimal(BadVerbInt(verb, n)) == None
  {
    var r := BadVerbInt(verb, n);
    assert r[0] == '%';
  }
}
