/**
  What successive calls of `(*Config).String` on one receiver do. Each call
  leaves the receiver as FillDefaults of what it found (the contract of
  `Config.String`), so k calls leave it as FillDefaults applied k times. The
  port is settled by the first call; the SSL mode is escaped once more on
  every call.
 */
module RepeatedCalls {
  import opened GoBytes
  import opened QueryEscaping
  import opened Postgresql
  import opened ConnStringLayout

  /** The receiver's value after k calls of `String`. */
  function Calls(c: ConfigValue, k: nat): ConfigValue {
    if k == 0 then c else FillDefaults(Calls(c, k - 1))
  }

  /** After the first call the port is fixed, as are user, password, host and database name. */
  lemma {:induction false} CallsKeepPort(c: ConfigValue, k: nat)
    requires k >= 1
    ensures Calls(c, k).port == FillDefaults(c).port && Calls(c, k).port != 0
    ensures Calls(c, k).user == c.user && Calls(c, k).pw == c.pw
    ensures Calls(c, k).host == c.host && Calls(c, k).dbName == c.dbName
  {
    if k > 1 {
      CallsKeepPort(c, k - 1);
    }
  }

  /**
    A second call leaves the receiver as the first one left it exactly when
    the SSL mode was empty or held only unreserved bytes.
   */
  lemma FillDefaultsIdempotentIff(c: ConfigValue)
    ensures FillDefaults(FillDefaults(c)) == FillDefaults(c) <==> c.sslMode == [] || AllUnreserved(c.sslMode)
  {
    var once := FillDefaults(c);
    EscapeFixpoint(once.sslMode);
    assert FillDefaults(once) == once.(sslMode := QueryEscape(once.sslMode));
    if c.sslMode == [] {
      DefaultSslModeIsUnreserved();
    } else {
      EscapeKeepsUnreserved(c.sslMode);
    }
  }

  /** The same holds of the strings that two successive calls return. */
  lemma SecondStringSameIff(c: ConfigValue)
    ensures ConnString(FillDefaults(FillDefaults(c))) == ConnString(FillDefaults(c))
        <==> c.sslMode == [] || AllUnreserved(c.sslMode)
  {
    var once := FillDefaults(c);
    var twice := FillDefaults(once);
    FillDefaultsIdempotentIff(c);
    assert twice == once.(sslMode := twice.sslMode);
    if ConnString(twice) == ConnString(once) {
      ConnStringSslModeInjective(once, twice.sslMode);
    }
  }

  /** k copies of "25". */
  function Repeat25(k: nat): (r: GoString)
    ensures AllUnreserved(r)
  {
    if k == 0 then [] else "25" + Repeat25(k - 1)
  }

  /** Escaping "%2525...25" escapes the '%' alone. */
  lemma EscapePercentRepeat(k: nat)
    ensures QueryEscape(['%'] + Repeat25(k)) == ['%'] + Repeat25(k + 1)
  {
    var r := Repeat25(k);
    EscapeCons('%', r);
    EscapeFixpoint(r);
    assert EscapeByte('%') == ['%'] + "25";
    ConcatAssoc(['%'], "25", r);
  }

  /**
    Every call escapes the stored SSL mode once more: from the second call on
    always, and on the first call whenever a mode was set.
   */
  lemma CallsEscapeAgain(c: ConfigValue, k: nat)
    requires k >= 1 || c.sslMode != []
    ensures Calls(c, k + 1).sslMode == QueryEscape(Calls(c, k).sslMode)
  {
    if k >= 1 {
      CallsKeepPort(c, k);
    }
  }

  /** An SSL mode of "%" grows by "25" on every call: "%25", "%2525", ... */
  lemma {:induction false} PercentGrowsEachCall(c: ConfigValue, k: nat)
    requires c.sslMode == "%"
    ensures Calls(c, k).sslMode == ['%'] + Repeat25(k)
  {
    if k == 1 {
      EscapePercentRepeat(0);
    } else if k > 1 {
      PercentGrowsEachCall(c, k - 1);
      CallsEscapeAgain(c, k - 1);
      EscapePercentRepeat(k - 1);
    }
  }
}
