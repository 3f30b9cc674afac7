# sslmgr configuration resolver in Dafny

This project models `NewSecureServer`, the configuration resolver of the Go
package `sslmgr`. The package runs an HTTP and an HTTPS listener whose TLS
certificates come from `autocert`. `NewSecureServer` takes a `ServerConfig`
by value and does the following, in this order:

- It rejects a configuration without hostnames (`ErrNoHostname`), then one
  without a handler (`ErrNoHandler`).
- It replaces a missing certificate cache with `autocert.DirCache(".")`.
- It resolves the HTTPS port and then the HTTP port. An empty port becomes
  `":443"` or `":80"`. After at most one leading `":"` is stripped, the rest
  must parse with `strconv.Atoi`; otherwise the result is `ErrNotAnInteger`.
  A `":"` is then put in front if it is missing.
- It replaces each zero timeout with its own default: read 5s, write 5s,
  idle 25s, graceful shutdown 5s.
- It defaults the TLS decision to "always serve HTTPS" and the shutdown error
  handler to a no-op.
- It builds the `SecureServer`: an `http.Server` with the timeouts and the
  handler, and an `autocert.Manager` made from the hostnames and the cache.

The model is written as pure functions over datatypes, because the source
changes only its own local copy of the configuration and returns a fresh
record. There is one function per step of the resolver
(`DefaultCache`, `ResolvePorts`, `DefaultTimeouts`, `DefaultCallbacks`),
composed by `NewSecureServer`. `Resolves` is a field-by-field declarative
statement of what the resolved server must be. `NewSecureServer` is proved to
meet it, and `ResolvesIsUnique` shows that it pins the server down.

Files:
- `wrappers.dfy`: `Option` and `Result`. `Option.None` stands for a Go nil,
  and `Result` stands for the `(value, err)` pair.
- `strings.dfy`: Go's `strings.HasPrefix` and `strings.TrimPrefix`.
- `strconv.dfy`: Go's `strconv.Atoi` on a 64-bit platform: an optional `+`
  or `-`, then one or more ASCII digits, with a value in the signed 64-bit
  range. `FormatInt` is its inverse and is used to prove the round trip.
- `server.dfy`: the records, the error sentinels, the resolver and its
  properties.

Representation choices:
- `http.Handler`, a user-supplied `autocert.Cache` and a user-supplied
  shutdown error handler are opaque tokens (`HandlerRef`, `UserCache`,
  `Supplied`).
- The TLS decision function is a Dafny `() -> bool`. This lets the default
  be stated as "returns true".
- A nil `Hostnames` slice is the empty sequence. Go treats `nil` and
  `[]string{}` the same here, because `len(nil) == 0`.
- `time.Duration` is an integer number of nanoseconds in the signed 64-bit
  range.

The error text of `ErrNotAnInteger` asks for a numerical string, and the
code checks exactly that: it accepts any integer `strconv.Atoi` accepts.
The model follows the code, so `"-80"` resolves to `":-80"` and `"+80"` to
`":+80"` (`SignedPortsAccepted`), and port numbers above 65535 are accepted
too. Such addresses pass the resolver but are refused later, when the
listener is opened.

The two port failures return the same sentinel. So although the HTTPS port
is checked first, the order of the two port checks cannot be observed.

## Model

| member | source | states |
|---|---|---|
| `SslMgr.NewSecureServer` | server.go:99-172 | Empty hostnames give `ErrNoHostname`, whether or not there is a handler. With hostnames but no handler the result is `ErrNoHandler`. Past those checks it succeeds exactly when both ports are accepted, and otherwise fails with `ErrNotAnInteger`. On success the server meets `Resolves`: ports, timeouts, callbacks, handler, host whitelist and cache are each the supplied value or its default. |
| `SslMgr.DefaultCache` | server.go:107-110 | A missing cache becomes `DirCache(".")` and a supplied one is kept. No other field changes. |
| `SslMgr.ResolvePorts` | server.go:111-129 | Succeeds exactly when both ports are accepted, and otherwise fails with `ErrNotAnInteger`. Each resolved port passes the resolver's validation (a colon followed by an Atoi integer) and is the default or the supplied string with or without an added colon. No other field changes. |
| `SslMgr.ResolvePort` | server.go:112-120 | Fails only with `ErrNotAnInteger`. A non-empty port is accepted exactly when the text after one optional colon is an Atoi integer. An empty port gives the default. The result is always a colon followed by that same integer text, and is the port itself or the port with a colon in front. |
| `SslMgr.DefaultDuration` | server.go:131-132 | The result is never zero. A non-zero duration, negative ones included, is kept, and zero gives the default. |
| `SslMgr.DefaultTimeouts` | server.go:130-142 | Each of the four timeouts is defaulted on its own, to 5s, 5s, 25s and 5s, and only when it is zero. No other field changes. |
| `SslMgr.DefaultCallbacks` | server.go:143-152 | A missing TLS decision becomes one that returns true, and a missing shutdown error handler becomes `NoOp`. Supplied ones are kept, and no other field changes. |
| `SslMgr.Assemble` | server.go:154-171 | Reading the settings back from the built record gives exactly the configuration it was built from. The timeouts and the handler go into the `http.Server`, the hostnames and the cache into the manager, and the callbacks, ports and graceful timeout into their own fields; none is lost or swapped. The manager's prompt is `AcceptTOS`. |
| `SslMgr.DefaultPortsPassCheck` | server.go:112-123 | The default addresses `":443"` and `":80"` pass the resolver's own validation. |
| `SslMgr.PortResolvedFromUnique` | server.go:115-120 | At most one of the spellings `p` and `":" + p` passes the resolver's validation as a colon followed by an Atoi integer, so the resolved address is determined by the supplied port. |
| `SslMgr.ResolvesIsUnique` | server.go:154-171 | Two servers that both resolve the same configuration agree on the HTTP server, cert manager, ports, graceful timeout, error handler and the TLS decision's answer. Resolving a configuration twice therefore gives the same fields. |
| `SslMgr.RequiredFieldsSuffice` | server_test.go:37-65 | A configuration with only hostnames and a handler succeeds. It gets ports `":443"`/`":80"`, timeouts 5s/5s/25s/5s, a TLS decision that returns true, the no-op error handler, and a manager over exactly those hostnames and `DirCache(".")`. |
| `SslMgr.PortSpellingsAgree` | server.go:115-120 | A non-empty port without a leading colon resolves exactly as the same port with one. |
| `SslMgr.ResolvePortIdempotent` | server.go:115-120 | Every colon followed by an Atoi integer, and so every address the resolver produces, resolves to itself whatever the default. Resolving a port twice therefore changes nothing. |
| `SslMgr.NumeralPortsAccepted` | server.go:115-120 | A numeral of up to 18 digits with an optional sign is accepted with or without a colon, and resolves to the colon followed by the numeral. |
| `SslMgr.SignedPortsAccepted` | server.go:115-120 | A port of 1 to 18 digits with a `-` or `+` in front is accepted and keeps its sign, so `"-80"` resolves to `":-80"` and `"+80"` to `":+80"`. |
| `SslMgr.OnlyOneColonRemoved` | server.go:115-117 | `"::"` followed by anything, and a lone `":"`, fail with `ErrNotAnInteger`, because `TrimPrefix` strips one colon only. |
| `SslMgr.NewSecureServerIdempotent` | server.go:99-172 | Writing a resolved server's settings back as a configuration and resolving that gives the same server. |
| `SslMgr.ResolvePortsSpelling` | server.go:111-129 | Adding the missing colon to either or both ports does not change the result of the port step. |
| `SslMgr.PortSpellingGivesSameServer` | server_test.go:66-77 | Configurations that differ only in whether the ports carry their colon give the same server, or the same error. |
| `SslMgr.TestRequiredFields` | server_test.go:15-36 | Empty hostnames give `ErrNoHostname`, even without a handler. Hostnames without a handler give `ErrNoHandler`. |
| `SslMgr.TestPortAddressCorrection` | server_test.go:66-77 | Digit-only ports such as `"80"` and `"443"` succeed and get a leading colon. |
| `SslMgr.TestPortAddressFailure` | server_test.go:78-95 | `"not an int"` as either the HTTP or the HTTPS port gives `ErrNotAnInteger`. |
| `Strings.HasPrefix` | server.go:118 | True exactly when `s` is `prefix` followed by the rest of `s`. |
| `Strings.TrimPrefix` | server.go:115 | With the prefix present, the prefix plus the result is the input. Otherwise the input is returned unchanged. |
| `StrConv.Atoi` | server.go:115 | An accepted string is non-empty, starts with a digit or a sign, and has a value in the signed 64-bit range. |
| `StrConv.AtoiFormatInt` | server.go:115 | Atoi parses back every signed 64-bit integer that `FormatInt` prints. |
| `StrConv.AtoiRejectsColon` | server.go:115 | A string with a colon anywhere is rejected by Atoi. |
| `StrConv.AtoiAcceptsShortNumerals` | server.go:115 | An optional sign followed by 1 to 18 digits is always accepted by Atoi. |

## Left out

- `ListenAndServe` and `serveHTTPS` (server.go:175-202) are not modelled. They bind sockets, start the TLS listener in a goroutine, and rewrite the shared `http.Server` fields `Addr`, `TLSConfig` and `Handler` while that goroutine may read them. This is network I/O plus concurrency.
- `startGracefulStopHandler` (server.go:204-220) is not modelled. It is OS signal subscription, channels, a goroutine and a context-bounded shutdown.
- `autocert.Manager`, `autocert.HostWhitelist`, `autocert.DirCache` and `http.Handler` are foreign library types. They are kept as opaque values: host-name policy (including its IDNA conversion) and certificate issuance are not modelled. The `Prompt` field is the single value `AcceptTOS`.
- The `testing` field of `SecureServer` and all log output are not modelled. The resolver never sets `testing` and never logs.
- The `http.Server` fields the resolver leaves at their zero value (`Addr`, `TLSConfig`) are not part of `HttpServer`.
- The TLS decision function is modelled as a pure `() -> bool`. A Go closure may read the environment each time it is called. The resolver only stores it, so nothing here depends on its side effects.
- The shutdown error handler is modelled only by identity, `NoOp` or `Supplied`. The resolver never calls it, and what a supplied handler does is not modelled.
- The `serveHTTPS` test in server_test.go:111-125, which checks that the listener address becomes the HTTPS port, belongs to `serveHTTPS` and is not modelled.
- `StrConv.Atoi` models Go on a 64-bit platform, where `int` is 64 bits wide. On a 32-bit platform Go's `Atoi` also rejects values outside the signed 32-bit range, so a port such as `"3000000000"` gives `ErrNotAnInteger` there; the model accepts it.
- The check Go's `net` package applies when the listener is opened is not modelled. It confines the port to 0..65535, so addresses such as `":-80"` and `":70000"` pass the resolver here but fail at bind time.
- `example/main.go` is not part of this model: it reads the environment and wires a router, and has no logic of its own.
