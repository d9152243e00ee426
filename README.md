# PostgreSQL connection-string builder, modelled in Dafny

This project models the PostgreSQL configuration package of the gizmo
toolkit (`config/postgresql/postgresql.go`) and proves properties of it.
That package has three parts:

- `Config` holds six settings: user, password, host, port, database name and
  SSL mode.
- `(*Config).String` builds the connection string. First it writes the
  defaults into its own receiver: a zero port becomes `DefaultPort` (5432).
  The SSL mode is replaced by its `url.QueryEscape` form, and an empty mode by
  the escaped `DefaultSSLMode` ("disable"). Then it formats
  `postgres://%s:%s@%s:%i/%s?sslmode=%s` over the fields.
- `LoadCOnfigFromEnv` returns the loaded config only when its host is
  non-empty, and nil otherwise.

Model layout, one module per file:

- `gobytes.dfy` (`GoBytes`): Go strings as byte sequences
  (`byte` is a character below 256, so literals read as text). Go's 64-bit
  `int`. The decimal rendering of integers, with a parser that inverts it.
  Splitting at a separator.
- `query_escape.dfy` (`QueryEscaping`): `url.QueryEscape`, byte by byte.
  The unreserved characters of section 2.3 of RFC 3986 are kept, a space
  becomes `+`, and every other byte becomes `%XX` in upper-case hex.
  `url.QueryUnescape` is given as its inverse.
- `fmt.dfy` (`GoFmt`): what `fmt.Sprintf` writes for an `int` under a verb it
  does not know. `%i` is such a verb, so the port comes out as
  `%!i(int=5432)` and not as `5432`.
- `postgresql.dfy` (`Postgresql`): the `ConfigValue` record and the
  constants. `FillDefaults` is the receiver update (lines 42-50).
  `ConnString` is the Sprintf call (lines 52-59). `LoadConfigFromEnv` is the
  host check. The class `Config` carries the six fields, and its method
  `String` updates `port` and `sslMode` in place under `modifies this`.
- `conn_string.dfy` (`ConnStringLayout`): the layout of the result. It
  contains a parser that reads the fields back, and the facts that follow
  from only the SSL mode being escaped.
- `repeated_calls.dfy` (`RepeatedCalls`): what successive `String` calls on
  one receiver do.

The model follows the code where the repository's own description differs
from it. That description is the doc comments at
`config/postgresql/postgresql.go:23-26` and `:40`. They say only that the port
defaults to 5432 and the SSL mode to "disable", and that `String` returns the
connection string. The code also re-escapes the stored SSL mode on every
call, and it renders the port through the invalid verb `%i`. The model keeps
both behaviours.

## Model

| member | source | states |
|---|---|---|
| `Postgresql.FillDefaults` | config/postgresql/postgresql.go:42-50 | User, password, host and database name are unchanged. A zero port becomes `DefaultPort` (5432); a non-zero port is kept. The new SSL mode is non-empty and is well-formed QueryEscape output: only unreserved bytes, `+`, and `%` followed by two upper-case hex digits. A non-empty SSL mode becomes exactly `QueryEscape` of it, so `UnescapeEscape` recovers it. An empty SSL mode becomes exactly "disable". |
| `Postgresql.Config.String` | config/postgresql/postgresql.go:41-59 | The receiver's new value is `FillDefaults` of its old value. Only port and SSL mode change, and afterwards the port is non-zero and the SSL mode non-empty. The returned string is `ConnString` of the updated receiver, so it uses the defaulted port and the already-escaped SSL mode. |
| `Postgresql.LoadConfigFromEnv` | config/postgresql/postgresql.go:65-72 | For the config the environment loader filled in, the result is present exactly when the host is non-empty, and then it is that config unchanged. |
| `Postgresql.DefaultSslModeIsUnreserved` | config/postgresql/postgresql.go:24 | "disable" consists of unreserved bytes, so escaping it yields "disable" again. |
| `QueryEscaping.QueryEscape` | config/postgresql/postgresql.go:47 | The output is well-formed QueryEscape output, at least as long as the input, and empty exactly when the input is. |
| `QueryEscaping.UnescapeEscape` | config/postgresql/postgresql.go:47 | QueryUnescape recovers every input from its escaped form. |
| `QueryEscaping.EscapeInjective` | config/postgresql/postgresql.go:47 | Two SSL modes with the same escaped form are equal. |
| `QueryEscaping.EscapeFixpoint` | config/postgresql/postgresql.go:46-50 | Escaping leaves a string unchanged if and only if every byte of it is unreserved. |
| `QueryEscaping.EscapeKeepsUnreserved` | config/postgresql/postgresql.go:46-50 | The escaped form is all unreserved if and only if the original is. |
| `Postgresql.PortText` | config/postgresql/postgresql.go:52-56 | The port as the `%i` verb renders it holds no `/` and no `?`, and it is never a decimal number. `ConnStringLayout.PortTextRoundTrip` reads the port back from it. |
| `ConnStringLayout.PortTextRoundTrip` | config/postgresql/postgresql.go:52-56 | Every 64-bit port is recovered from its `%!i(int=N)` rendering. |
| `Postgresql.ConnString` | config/postgresql/postgresql.go:52-59 | The result starts with "postgres://". Its length is the sum of the field lengths, the port's rendering, "sslmode=" and the five separators. The full layout is `ConnStringLayout.ConnStringTemplate`, and `ConnStringLayout.ConnStringRoundTrip` is its inverse. |
| `GoFmt.BadVerbInt` | config/postgresql/postgresql.go:52 | The `%!i(int=N)` rendering starts with `%!` and ends with `)`. It holds a `/` or `?` only if the verb is that character, so a port can never contain the separators that follow it. |
| `GoFmt.BadVerbIntRoundTrip` | config/postgresql/postgresql.go:52 | The port number can be read back from its `%!i(int=N)` rendering. |
| `GoFmt.BadVerbIntNotDecimal` | config/postgresql/postgresql.go:52 | The rendering of the port is never a decimal number. |
| `GoBytes.Decimal` | config/postgresql/postgresql.go:56 | The rendering of an integer is non-empty. It starts with `-` exactly when the integer is negative, and every other byte is a decimal digit. `GoBytes.DecimalRoundTrip` is its inverse. |
| `GoBytes.DecimalRoundTrip` | config/postgresql/postgresql.go:56 | The decimal digits that fmt writes inside `%!i(int=…)`, with a `-` for a negative port, parse back to the port. |
| `ConnStringLayout.ConnStringTemplate` | config/postgresql/postgresql.go:52-59 | The result is `"postgres://" + User + ":" + Pw + "@" + Host + ":" + "%!i(int=" + decimal(Port) + ")" + "/" + DBName + "?" + "sslmode=" + SSLMode`. |
| `ConnStringLayout.ConnStringRoundTrip` | config/postgresql/postgresql.go:52-59 | A parser that reads each field up to the separator after it recovers the whole config. This holds when user and host contain no `:`, the password no `@`, and the database name no `?`. So every field appears verbatim. |
| `ConnStringLayout.UserPasswordOnlyJoined` | config/postgresql/postgresql.go:52-54 | User and password are not escaped. Configs that agree on `user + ":" + pw` and on all other fields give the same connection string. |
| `ConnStringLayout.UserPasswordCollide` | config/postgresql/postgresql.go:52-54 | Example: user "a:b" with password "c" gives the same string as user "a" with password "b:c". |
| `ConnStringLayout.ConnStringEndsWithSslMode` | config/postgresql/postgresql.go:52-58 | The connection string is the string built with an empty SSL mode, followed by the SSL mode. |
| `ConnStringLayout.ConnStringSslModeInjective` | config/postgresql/postgresql.go:52-58 | Configs that differ only in SSL mode give different connection strings. |
| `RepeatedCalls.CallsKeepPort` | config/postgresql/postgresql.go:42-44 | After k ≥ 1 calls, the port is what the first call set, and it is non-zero. User, password, host and database name are those of the original config. |
| `RepeatedCalls.CallsEscapeAgain` | config/postgresql/postgresql.go:46-47 | Each call replaces the stored SSL mode with its escaped form once more: from the second call on always, and on the first call whenever the mode was set. |
| `RepeatedCalls.FillDefaultsIdempotentIff` | config/postgresql/postgresql.go:42-50 | A second call leaves the receiver as the first call left it if and only if the original SSL mode was empty or consisted of unreserved bytes only. |
| `RepeatedCalls.SecondStringSameIff` | config/postgresql/postgresql.go:41-59 | A second call returns the same string as the first if and only if the original SSL mode was empty or consisted of unreserved bytes only. |
| `RepeatedCalls.PercentGrowsEachCall` | config/postgresql/postgresql.go:46-47 | Starting from SSL mode "%", after k calls the SSL mode is "%" followed by k copies of "25": "%25", "%2525", and so on. |

## Left out

- `(*Config).DB` (lines 32-38) is not modelled as a member of its own. It gets the string through `p.String()` (line 33), so every `DB` call updates the receiver exactly as `Config.String` does: it defaults the port and escapes the SSL mode once more ("%" becomes "%25", then "%2525"). `RepeatedCalls` states this for any mix of `String` and `DB` calls. What is left out is the call to `database/sql.Open` and the driver from outside the package.
- A nil `*Config` receiver is not modelled. `LoadCOnfigFromEnv` returns nil for an empty host (line 71), and `String` or `DB` on that nil pointer panics at `m.Port` (line 42). The class `Config` receiver cannot be null, and `LoadConfigFromEnv` returns `None` in that case instead of a pointer.
- `config.LoadEnvConfig` reads environment variables, which is I/O. The `Config` it fills in is a parameter of `LoadConfigFromEnv`.
- `Postgresql.LoadConfigFromEnv` returns the config as an optional value, not as a pointer to a fresh struct. No other reference to that struct exists, so no aliasing is lost.
- `fmt.Sprintf` is modelled only for the one format string used here: `%s` for strings, and the `%!i(int=N)` rendering of the port.
- `url.QueryEscape` is modelled only by the byte-wise rule above. Its internals, such as buffer sizing and the shortcut for strings that need no escaping, do not change the result.
- The Go `int` is taken to be 64 bits wide. A 32-bit build is not modelled.
- Concurrent calls of `String` on one `Config` would race on its fields. Concurrency is not modelled.
- `server/simple_server_test.go` holds benchmarks and handler fixtures. The server, routers and JSON adapter they exercise are not part of this model.
