# DB-API client connector model

A Dafny model of `txdav/base/datastore/dbapiclient.py`. This is the calendar
server's thin layer over DB-API 2.0 drivers, and it has four parts:

- `DBAPIParameters` resolves an endpoint such as `unix:/var/run/pg:5433` or
  `tcp:db.example:1521` into a socket path, host and port.
- `DBAPIConnector.connectorFor` chooses a driver (pg8000 for `postgres`,
  cx_Oracle for `oracle`) and builds its connect arguments. For pg8000 these
  are keyword arguments, and a socket directory resolves to the socket file
  inside it. For cx_Oracle it is one DSN string.
- `connect` opens a native connection. It wraps it in a diagnostic
  connection wrapper that carries a label and a human-readable `state`. It
  then runs one preflight: two session statements on a scratch cursor, a
  commit, and closing the cursor.
- The connection wrapper's `state` records the last execute, commit,
  rollback or connection close; opening a cursor, fetching and closing a
  cursor leave it as it is. The Oracle cursor wrapper
  also rewrites arguments on the way in: byte strings are decoded, and text
  longer than 1024 characters is bound through an NCLOB variable. On the way
  out it maps every fetched column through `mapOracleOutputType`.

## How the model is built

- **Native calls.** Every native driver call goes through one
  `Native.Backend` object, which appends an `Event` to its `trace`. The call
  at trace position `k` raises exactly when `k` is in the backend's fixed
  `failures` set, so every contract covers every pattern of exceptions.
- **Native handles.** A connection or cursor handle is the trace position of
  the call that created it.
- **Exceptions.** An exception ends the operation and propagates. A method
  returns `false`, or `null`, when this happens. The trace it leaves is
  stated by `Native.CallsMade`: the calls up to and including the first one
  that raises.
- **Value-level code.** Parameter parsing, connector construction, the
  Oracle DSN and the state strings are pure functions.
- **Stateful code.** The wrappers are classes with a mutable `state` field
  and methods that `modify` it and the backend.
- **Loops.** The two loops of the Oracle cursor wrapper are methods with
  loop invariants, proved against specification functions.
- **Errors.** `connectorFor`'s errors are values of `ConnectorError`:
  - an unknown database type;
  - a malformed endpoint;
  - a missing socket file;
  - a port that `int()` would refuse.

### Behaviour at the edges

- **Endpoint with neither `unix:` nor `tcp:`.** `DBAPIParameters` never sets
  the address attributes (dbapiclient.py:213-230), so the builders fail when
  they read them. The model returns `Err(BadEndpoint(MissingScheme))`.
- **Endpoint address with more than one `:`.** `a, b = s.split(":")` raises
  (dbapiclient.py:217, 225). The model returns
  `Err(BadEndpoint(TooManyColons))`.
- **Failed connect.** A failed `connect` releases nothing: after a failing
  preflight, neither the native connection nor the scratch cursor is closed
  (dbapiclient.py:251-253, 366-376). In the model's trace nothing follows the
  call that raised.

## Model

| member | source | states |
|---|---|---|
| Parameters.ParseParameters | txdav/base/datastore/dbapiclient.py:213-230 | an endpoint with neither scheme prefix is an error; a parsed endpoint has exactly one of socket path and host |
| Parameters.SplitAddress | txdav/base/datastore/dbapiclient.py:216-227 | the address after the scheme: no `:` gives the whole address and no port; one `:` gives the two halves, neither containing `:`, that rejoin to the address; it fails exactly when there are two or more `:` |
| Parameters.UnixEndpoint | txdav/base/datastore/dbapiclient.py:214-220 | `unix:X` sets the socket path to X, or for `path:port` to path and port; the host is never set; credentials are kept verbatim; two or more `:` fail |
| Parameters.TcpEndpoint | txdav/base/datastore/dbapiclient.py:221-227 | `tcp:X` sets the host to X, or for `host:port` to host and port; the socket path is never set; credentials are kept verbatim; two or more `:` fail |
| Parameters.UnixEndpointHalves | txdav/base/datastore/dbapiclient.py:214-220 | `unix:a:b` with no other `:` parses to socket path `a`, port `b`, no host, credentials verbatim |
| Parameters.TcpEndpointHalves | txdav/base/datastore/dbapiclient.py:221-227 | `tcp:a:b` with no other `:` parses to host `a`, port `b`, no socket path, credentials verbatim |
| Decimal.ParseInt | txdav/base/datastore/dbapiclient.py:324 | `int(port)` succeeds exactly on a non-empty string of decimal digits |
| Decimal.ParseShow | txdav/base/datastore/dbapiclient.py:324 | every port number written in decimal parses back to itself |
| Connectors.UnixParams | txdav/base/datastore/dbapiclient.py:214-220 | `unix:dir[:port]` with no other `:` resolves to socket path `dir`, the port, and no host |
| Connectors.TcpParams | txdav/base/datastore/dbapiclient.py:221-227 | `tcp:host[:port]` with no other `:` resolves to that host and port, and no socket path |
| Connectors.ConnectorForModule | txdav/base/datastore/dbapiclient.py:270-277 | the builder chosen for a driver module builds a connector for that module; a malformed endpoint is refused |
| Connectors.ConnectorFor | txdav/base/datastore/dbapiclient.py:258-266 | an unknown database type is refused; `postgres` gives pg8000 with plain wrappers and the Postgres preflight; a malformed endpoint is refused; for `oracle` and a parsed endpoint the result is exactly the Oracle connector for that endpoint's DSN, with `threaded=True`, the Oracle wrappers and the Oracle preflight |
| Connectors.Pg8000Connector | txdav/base/datastore/dbapiclient.py:296-325 | a malformed endpoint is refused; a pg8000 connector has plain wrappers, the Postgres preflight, no positional arguments, the credentials as keywords, exactly one of `unix_sock` and `host`, and an integer `port` only beside `host` |
| Connectors.SocketPath | txdav/base/datastore/dbapiclient.py:310-315 | a socket directory resolves to `dir/.s.PGSQL.<port or 5432>`; any other path to itself |
| Connectors.PostgresUnixSocket | txdav/base/datastore/dbapiclient.py:300-320 | a socket directory stands for `dir/.s.PGSQL.<port or 5432>`; if the resolved path is not a socket the connector is refused with that path; otherwise pg8000 gets the credentials plus `unix_sock` and no host or port |
| Connectors.PostgresTcp | txdav/base/datastore/dbapiclient.py:300-325 | over TCP pg8000 gets the credentials and `host`; `port` is added as `int(port)` only when a port is given; a port that is not decimal is refused |
| Connectors.OracleConnector | txdav/base/datastore/dbapiclient.py:355-357 | the connector passes the DSN as its only positional argument plus `threaded=True`, and uses cx_Oracle, the Oracle wrappers and the Oracle preflight |
| Connectors.CxOracleConnector | txdav/base/datastore/dbapiclient.py:329-334 | a malformed endpoint is refused; otherwise the connector for cx_Oracle with the Oracle wrappers and preflight, the DSN of the parsed endpoint as its only positional argument, and `threaded=True` |
| Connectors.OracleDsn | txdav/base/datastore/dbapiclient.py:333 | the DSN holds user, password, host, port and database, in that order and each as Python prints it (None as `None`): when no field holds a separator, reading it back recovers all five |
| Connectors.DsnFieldsRoundTrip | txdav/base/datastore/dbapiclient.py:333 | `user/password@host:port/database` built from separator-free fields is read back into exactly those five fields |
| PyRepr.Repr | txdav/base/datastore/dbapiclient.py:77 | the repr of a statement is enclosed in a matching pair of quotes, double only when the text holds a single quote and no double quote |
| PyRepr.UnreprRepr | txdav/base/datastore/dbapiclient.py:77 | reading back the repr of any statement gives the statement |
| Diagnostic.StatusText | txdav/base/datastore/dbapiclient.py:77-191 | every state string is non-empty and only an execute's begins with `e`, so no idle or closed state reads as an execute (the full read-back is `ParseStatusText`) |
| Diagnostic.ParseStatusText | txdav/base/datastore/dbapiclient.py:77-191 | the state strings are unambiguous: every state, including `executing <repr(sql)>`, reads back as the status that wrote it |
| Diagnostic.ConnectionWrapper.constructor | txdav/base/datastore/dbapiclient.py:169-172 | a new wrapper keeps its connection and label, and its state is `idle (start)` |
| Diagnostic.ConnectionWrapper.Cursor | txdav/base/datastore/dbapiclient.py:175-176 | one native cursor call; on success a new cursor wrapper of the connection's kind whose parent is this wrapper |
| Diagnostic.ConnectionWrapper.Close | txdav/base/datastore/dbapiclient.py:179-181 | one native close; the state becomes `closed` only if it does not raise |
| Diagnostic.ConnectionWrapper.Commit | txdav/base/datastore/dbapiclient.py:184-186 | one native commit; the state becomes `idle (after commit)` only if it does not raise |
| Diagnostic.ConnectionWrapper.Rollback | txdav/base/datastore/dbapiclient.py:189-191 | one native rollback; the state becomes `idle (after rollback)` only if it does not raise |
| Diagnostic.CursorWrapper.constructor | txdav/base/datastore/dbapiclient.py:61-63 | the cursor wrapper keeps its native cursor and its parent connection wrapper |
| Diagnostic.CursorWrapper.Execute | txdav/base/datastore/dbapiclient.py:76-149 | the parent's state becomes `executing <repr(sql)>` before the native execute, so it holds even when the execute raises; exactly one native execute follows, with the arguments unchanged for the plain wrapper and bound one by one for the Oracle wrapper; when the Oracle wrapper fails to decode a byte string, it raises with no native call and the state unchanged |
| Diagnostic.CursorWrapper.FetchAll | txdav/base/datastore/dbapiclient.py:90-114 | the plain wrapper returns the native `fetchall` rows unchanged; the Oracle wrapper iterates the native cursor and returns every row with every column mapped through `mapOracleOutputType` |
| Diagnostic.CursorWrapper.Close | txdav/base/datastore/dbapiclient.py:86-87 | exactly one native cursor close |
| Diagnostic.OutgoingArgs | txdav/base/datastore/dbapiclient.py:127-149 | the plain wrapper passes the arguments unchanged; the list the driver gets has one entry per argument; it fails exactly for the Oracle wrapper with a byte string that does not decode |
| Diagnostic.OutgoingNoArgs | txdav/base/datastore/dbapiclient.py:127-149 | a statement without arguments reaches the driver without arguments, for either wrapper |
| OracleArgs.BindArg | txdav/base/datastore/dbapiclient.py:129-148 | a byte string is decoded, and fails exactly when decoding fails; text keeps its content; text over 1024 characters becomes an NCLOB variable of length + 1 and shorter text stays text; any other value passes unchanged |
| OracleArgs.BindArgs | txdav/base/datastore/dbapiclient.py:128-148 | the bound list fails exactly when some argument is a byte string that does not decode; otherwise it has one entry per argument, each the binding of that argument |
| OracleArgs.BindNoArgs | txdav/base/datastore/dbapiclient.py:127-128 | an empty argument list binds to an empty list |
| OracleArgs.BindAll | txdav/base/datastore/dbapiclient.py:128-148 | the loop's `realArgs` is each argument bound on its own, in order, or a failure when some argument fails to decode |
| OracleArgs.MapRows | txdav/base/datastore/dbapiclient.py:108-114 | the result has the same rows and columns, with every column mapped |
| Native.CallsMade | txdav/base/datastore/dbapiclient.py:366-376 | in a straight line of native calls, those made are every call up to and including the first that raises, or all of them |
| Connect.CallsMadeIs | txdav/base/datastore/dbapiclient.py:366-376 | exactly `j` calls are made when the first `j-1` succeed and the `j`-th raises or is the last |
| Connect.CallsMadeAppend | txdav/base/datastore/dbapiclient.py:366-376 | a line of `a + b` calls makes the first `a`, and then the next `b` only when none of the first `a` raised |
| Connect.ExecuteNoArgs | txdav/base/datastore/dbapiclient.py:391 | a preflight statement is one native execute with no arguments, and it sets the state to that statement |
| Connect.RunStatements | txdav/base/datastore/dbapiclient.py:367-374 | the preflight's two statements run in order, and the second runs only if the first does not raise |
| Connect.Finish | txdav/base/datastore/dbapiclient.py:375-376 | the preflight commits and then, if the commit does not raise, closes its cursor; the state is `idle (after commit)` once the commit succeeds |
| Connect.RunOnCursor | txdav/base/datastore/dbapiclient.py:366-376 | on the scratch cursor: both statements, the commit, and the cursor close, stopping at the first exception, with the state each stop leaves |
| Connect.Preflight | txdav/base/datastore/dbapiclient.py:361-408 | both preflights make exactly the calls cursor, two executes, commit and cursor close, up to the first exception; they succeed only if none raises, and then leave the state `idle (after commit)`; the statements are the two timestamp formats for Oracle, and `set standard_conforming_strings=on` then `set statement_timeout=30000` for Postgres |
| Connect.Connect | txdav/base/datastore/dbapiclient.py:250-254 | the native connect with the connector's arguments, then exactly one preflight on the new connection; a wrapper is returned only if none of the six calls raises, and it is new, carries the label (default `<unlabeled>`) and the connector's wrapper kind, and is `idle (after commit)` |

## Left out

- The process-wide `NLS_LANG` environment setting and the guarded
  `import cx_Oracle` at module load are outside the model. So is the failure
  of `connectorFor("oracle")` when cx_Oracle is not installed. These are
  process environment and import machinery.
- `_connectorFor_pgdb` is not modelled. `connectorFor` only ever dispatches
  the pg8000 and cx_Oracle modules, so no caller reaches it.
- The "Unknown DBAPI module" error of `_connectorFor_module` is not modelled
  for the same reason: both dispatched modules have a builder.
- `rowcount`, `description`, `callproc`, `callfunc` and `var` are outside the
  model. They are one-line forwards to the native cursor and change nothing.
- OracleArgs.BindArg: the 1024-character threshold and the NCLOB length + 1
  count Unicode code points, as a wide (UCS-4) Python build does; on a narrow
  (UCS-2) build `len` counts a character outside the Basic Multilingual Plane
  twice, and that count is not modelled.
- The NCLOB binding is modelled as the value `Lob(length + 1, text)`. The
  native `var` and `setvalue` calls it makes are not recorded in the trace,
  so an exception from either is not modelled.
- `mapOracleOutputType` and UTF-8 decoding belong to other libraries. They
  are opaque function parameters of the backend.
- The native driver is a trace of events with a fixed set of failing
  positions. Rows returned by a fetch come from a fixed function of the
  trace position.
- `CachingFilePath` is reduced to two sets of paths, directories and socket
  files. Path normalisation (`abspath`) and symbolic links are outside the
  model.
- Decimal.ParseInt: accepts only a non-empty string of ASCII digits. Python's
  `int()` also accepts a sign and surrounding whitespace; such a port is
  refused here.
- `DBAPIParameters` with `endpoint=None`, and keyword arguments that it does
  not accept, raise a Python `TypeError` or `AttributeError`. The model's
  parameters are always strings.
- Threading: wrappers are used by one thread at a time.
- The repr of a `unicode` statement (`u'...'` with `\u` escapes) is not
  modelled. Statements are byte strings, as in every preflight.
