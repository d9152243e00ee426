/**
  The PostgreSQL connection-string builder. A `Config` holds the six settings
  read from the environment; `String` first writes the defaults into the
  receiver (port 5432 when the port is zero, SSL mode "disable" when it is
  empty) and query-escapes the stored SSL mode, then formats
  `postgres://%s:%s@%s:%i/%s?sslmode=%s` over the fields. The loader keeps a
  loaded `Config` only when it names a host.
 */
module Postgresql {
  import opened GoBytes
  import opened QueryEscaping
  import opened GoFmt

  /** The six settings of a `Config`, as a value. */
  datatype ConfigValue = ConfigValue(
    user: GoString,
    pw: GoString,
    host: GoString,
    port: int64,
    dbName: GoString,
    sslMode: GoString)

  const DefaultSslMode: GoString := "disable"
  const DefaultPort: int64 := 5432

  const Scheme: GoString := "postgres://"
  const SslModeParam: GoString := "sslmode="
  /** The verb the format string gives the port: `%i`, which Go's fmt does not know. */
  const PortVerb: byte := 'i'

  /** What `String` does to the receiver before formatting it. */
  function FillDefaults(c: ConfigValue): (r: ConfigValue)
    ensures r.user == c.user && r.pw == c.pw && r.host == c.host && r.dbName == c.dbName
    ensures c.port == 0 ==> r.port == DefaultPort
    ensures c.port != 0 ==> r.port == c.port
    ensures r.sslMode != [] && IsQueryEscaped(r.sslMode)
    ensures c.sslMode != [] ==> r.sslMode == QueryEscape(c.sslMode)
    ensures c.sslMode == [] ==> r.sslMode == DefaultSslMode
  {
    DefaultSslModeIsUnreserved();
    c.(port := if c.port == 0 then DefaultPort else c.port,
       sslMode := if c.sslMode != [] then QueryEscape(c.sslMode) else QueryEscape(DefaultSslMode))
  }

  /** How the format string renders the port: `%!i(int=N)`. */
  function PortText(port: int64): (r: GoString)
    ensures '/' !in r && '?' !in r
    ensures ParseDecimal(r) == None
  {
    BadVerbIntNotDecimal(PortVerb, port as int);
    BadVerbInt(PortVerb, port as int)
  }

  /**
    The Sprintf call: every field verbatim, the port as `%!i(int=N)`. It is
    written right-nested, from the user field on, in the stages in which
    ParseConnString reads it back.
   */
  function ConnString(c: ConfigValue): (r: GoString)
    ensures HasPrefix(r, Scheme)
    ensures |r| == |Scheme| + |c.user| + |c.pw| + |c.host| + |PortText(c.port)| + |c.dbName|
                   + |SslModeParam| + |c.sslMode| + 5
  {
    var r := Scheme + FromUser(c);
    assert r[..|Scheme|] == Scheme;
    r
  }

  function FromUser(c: ConfigValue): GoString {
    c.user + ([':'] + FromPassword(c))
  }

  function FromPassword(c: ConfigValue): GoString {
    c.pw + (['@'] + FromHost(c))
  }

  function FromHost(c: ConfigValue): GoString {
    c.host + ([':'] + FromPort(c))
  }

  function FromPort(c: ConfigValue): GoString {
    PortText(c.port) + (['/'] + FromDbName(c))
  }

  function FromDbName(c: ConfigValue): GoString {
    c.dbName + (['?'] + (SslModeParam + c.sslMode))
  }

  /**
    `LoadCOnfigFromEnv`, given the `Config` the environment loader filled in:
    the config when it names a host, nil (None) otherwise.
   */
  function LoadConfigFromEnv(loaded: ConfigValue): (r: Option<ConfigValue>)
    ensures r.Some? <==> loaded.host != []
    ensures r.Some? ==> r.value == loaded
  {
    if loaded.host != [] then Some(loaded) else None
  }

  /** The receiver of `String`, whose port and SSL mode it overwrites. */
  class Config {
    var user: GoString
    var pw: GoString
    var host: GoString
    var port: int64
    var dbName: GoString
    var sslMode: GoString

    constructor (v: ConfigValue)
      ensures Value() == v
    {
      user, pw, host, port, dbName, sslMode := v.user, v.pw, v.host, v.port, v.dbName, v.sslMode;
    }

    function Value(): ConfigValue
      reads this
    {
      ConfigValue(user, pw, host, port, dbName, sslMode)
    }

    /** `(*Config).String`: fills in the defaults in place, then formats the connection string. */
    method String() returns (s: GoString)
      modifies this
      ensures Value() == FillDefaults(old(Value()))
      ensures user == old(user) && pw == old(pw) && host == old(host) && dbName == old(dbName)
      ensures port != 0 && sslMode != []
      ensures s == ConnString(Value())
    {
      if port == 0 {
        port := DefaultPort;
      }
      if sslMode != [] {
        sslMode := QueryEscape(sslMode);
      } else {
        sslMode := QueryEscape(DefaultSslMode);
      }
      s := ConnString(Value());
    }
  }

  lemma DefaultSslModeIsUnreserved()
    ensures AllUnreserved(DefaultSslMode) && QueryEscape(DefaultSslMode) == DefaultSslMode
  {
    EscapeFixpoint(DefaultSslMode);
  }
}
