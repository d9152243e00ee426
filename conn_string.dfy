/**
  What the connection string says about the config it was built from. Since
  the builder escapes only the SSL mode, the other fields can be read back
  only when none of them holds the separator that follows it; and a ':' moved
  between user and password goes unnoticed.
 */
module ConnStringLayout {
  import opened GoBytes
  import opened GoFmt
  import opened Postgresql

  /** The connection string, written out as the format string lays it out. */
  lemma ConnStringTemplate(c: ConfigValue)
    ensures ConnString(c)
         == "postgres://" + c.user + ":" + c.pw + "@" + c.host + ":" + "%!i(int=" + Decimal(c.port as int) + ")"
            + "/" + c.dbName + "?" + "sslmode=" + c.sslMode
  {
  }

  /**
    Reads the fields back from a connection string, each up to the first
    separator that follows it; the SSL mode is the rest.
   */
  function ParseConnString(s: GoString): Option<ConfigValue> {
    match StripPrefix(s, Scheme)
    case None => None
    case Some(t) => ParseFromUser(t)
  }

  function ParseFromUser(s: GoString): Option<ConfigValue> {
    match SplitAt(s, ':')
    case None => None
    case Some((user, t)) => ParseFromPassword(user, t)
  }

  function ParseFromPassword(user: GoString, s: GoString): Option<ConfigValue> {
    match SplitAt(s, '@')
    case None => None
    case Some((pw, t)) => ParseFromHost(user, pw, t)
  }

  function ParseFromHost(user: GoString, pw: GoString, s: GoString): Option<ConfigValue> {
    match SplitAt(s, ':')
    case None => None
    case Some((host, t)) => ParseFromPort(user, pw, host, t)
  }

  function ParseFromPort(user: GoString, pw: GoString, host: GoString, s: GoString): Option<ConfigValue> {
    match SplitAt(s, '/')
    case None => None
    case Some((portText, t)) =>
      match ParsePortText(portText)
      case None => None
      case Some(port) => ParseFromDbName(user, pw, host, port, t)
  }

  function ParseFromDbName(user: GoString, pw: GoString, host: GoString, port: int64, s: GoString): Option<ConfigValue> {
    match SplitAt(s, '?')
    case None => None
    case Some((dbName, t)) =>
      match StripPrefix(t, SslModeParam)
      case None => None
      case Some(sslMode) => Some(ConfigValue(user, pw, host, port, dbName, sslMode))
  }

  /** The port from its `%!i(int=N)` rendering, when N fits a Go int. */
  function ParsePortText(s: GoString): Option<int64> {
    match ParseBadVerbInt(PortVerb, s)
    case None => None
    case Some(n) => if -0x8000_0000_0000_0000 <= n < 0x8000_0000_0000_0000 then Some(n as int64) else None
  }

  lemma PortTextRoundTrip(port: int64)
    ensures ParsePortText(PortText(port)) == Some(port)
  {
    BadVerbIntRoundTrip(PortVerb, port as int);
  }

  lemma FromDbNameRoundTrip(c: ConfigValue)
    requires '?' !in c.dbName
    ensures ParseFromDbName(c.user, c.pw, c.host, c.port, FromDbName(c)) == Some(c)
  {
    SplitAtConcat(c.dbName, '?', SslModeParam + c.sslMode);
    StripPrefixConcat(SslModeParam, c.sslMode);
  }

  lemma FromPortRoundTrip(c: ConfigValue)
    requires '?' !in c.dbName
    ensures ParseFromPort(c.user, c.pw, c.host, FromPort(c)) == Some(c)
  {
    SplitAtConcat(PortText(c.port), '/', FromDbName(c));
    PortTextRoundTrip(c.port);
    FromDbNameRoundTrip(c);
  }

  lemma FromHostRoundTrip(c: ConfigValue)
    requires ':' !in c.host && '?' !in c.dbName
    ensures ParseFromHost(c.user, c.pw, FromHost(c)) == Some(c)
  {
    SplitAtConcat(c.host, ':', FromPort(c));
    FromPortRoundTrip(c);
  }

  lemma FromPasswordRoundTrip(c: ConfigValue)
    requires '@' !in c.pw && ':' !in c.host && '?' !in c.dbName
    ensures ParseFromPassword(c.user, FromPassword(c)) == Some(c)
  {
    SplitAtConcat(c.pw, '@', FromHost(c));
    FromHostRoundTrip(c);
  }

  /**
    Every field comes back out of the connection string, provided the user
    and the host hold no ':', the password no '@' and the database name no
    '?': the builder escapes none of them.
   */
  lemma ConnStringRoundTrip(c: ConfigValue)
    requires ':' !in c.user && '@' !in c.pw && ':' !in c.host && '?' !in c.dbName
    ensures ParseConnString(ConnString(c)) == Some(c)
  {
    StripPrefixConcat(Scheme, FromUser(c));
    SplitAtConcat(c.user, ':', FromPassword(c));
    FromPasswordRoundTrip(c);
  }

  /**
    Without escaping, user and password reach the string only through
    `user:pw`; two configs that agree on that and on the rest give the same
    connection string.
   */
  lemma UserPasswordOnlyJoined(c: ConfigValue, user: GoString, pw: GoString)
    requires c.user + [':'] + c.pw == user + [':'] + pw
    ensures ConnString(c) == ConnString(c.(user := user, pw := pw))
  {
    var d := c.(user := user, pw := pw);
    var x := ['@'] + FromHost(c);
    assert FromHost(d) == FromHost(c);
    ConcatAssoc(c.user, [':'], c.pw + x);
    ConcatAssoc(c.user + [':'], c.pw, x);
    ConcatAssoc(user, [':'], pw + x);
    ConcatAssoc(user + [':'], pw, x);
  }

  /** For one: user "a:b" with password "c", and user "a" with password "b:c". */
  lemma UserPasswordCollide(c: ConfigValue)
    requires c.user == "a:b" && c.pw == "c"
    ensures ConnString(c) == ConnString(c.(user := "a", pw := "b:c"))
  {
    assert c.user + [':'] + c.pw == "a" + [':'] + "b:c";
    UserPasswordOnlyJoined(c, "a", "b:c");
  }

  /** Appending m at the end of the innermost part appends it to the whole. */
  lemma AppendInside(a: GoString, b: GoString, x: GoString, y: GoString, m: GoString)
    requires x == y + m
    ensures a + (b + x) == (a + (b + y)) + m
  {
    ConcatAssoc(b, y, m);
    ConcatAssoc(a, b + y, m);
  }

  /** The SSL mode closes the string: the rest does not depend on it. */
  lemma ConnStringEndsWithSslMode(c: ConfigValue)
    ensures ConnString(c) == ConnString(c.(sslMode := [])) + c.sslMode
  {
    var e := c.(sslMode := []);
    assert SslModeParam + e.sslMode == SslModeParam;
    AppendInside(c.dbName, ['?'], SslModeParam + c.sslMode, SslModeParam, c.sslMode);
    AppendInside(PortText(c.port), ['/'], FromDbName(c), FromDbName(e), c.sslMode);
    AppendInside(c.host, [':'], FromPort(c), FromPort(e), c.sslMode);
    AppendInside(c.pw, ['@'], FromHost(c), FromHost(e), c.sslMode);
    AppendInside(c.user, [':'], FromPassword(c), FromPassword(e), c.sslMode);
    ConcatAssoc(Scheme, FromUser(e), c.sslMode);
  }

  /** Configs that differ only in the SSL mode give different connection strings. */
  lemma ConnStringSslModeInjective(c: ConfigValue, m: GoString)
    requires ConnString(c.(sslMode := m)) == ConnString(c)
    ensures m == c.sslMode
  {
    var p := ConnString(c.(sslMode := []));
    ConnStringEndsWithSslMode(c);
    ConnStringEndsWithSslMode(c.(sslMode := m));
    assert (p + m)[|p|..] == m;
    assert (p + c.sslMode)[|p|..] == c.sslMode;
  }
}
