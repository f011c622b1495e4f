/**
 * `DBAPIConnector.connectorFor` and the per-driver builders: from a backend
 * name and connection settings to the driver module, wrapper classes,
 * preflight and the positional and keyword arguments of the driver's
 * `connect`. The filesystem checks on the Unix socket path are given as a
 * `FileSystem` value.
 */
module Connectors {
  import opened Results
  import opened Strings
  import opened Decimal
  import opened Parameters
  import opened Native

  datatype PreflightKind = PostgresPreflight | OraclePreflight

  /** A `DBAPIConnector`: what `connect` will call and how it will wrap it. */
  datatype Connector = Connector(
    driver: DriverModule,
    kind: WrapperKind,
    preflight: PreflightKind,
    args: seq<string>,
    kwargs: map<string, KwValue>)

  /** The keyword arguments `connectorFor` passes on to `DBAPIParameters`. */
  datatype Settings = Settings(
    endpoint: string,
    user: Option<string>,
    password: Option<string>,
    database: Option<string>)

  datatype ConnectorError =
    | UnknownDatabaseType(name: string)
    | BadEndpoint(reason: EndpointError)
    | NoSuchSocket(path: string)
    | BadPort(port: string)

  /** Which paths are directories and which are Unix sockets. */
  datatype FileSystem = FileSystem(directories: set<string>, sockets: set<string>)

  function Child(dir: string, name: string): string
  {
    dir + "/" + name
  }

  /** Python truth value of an optional string: absent and "" are false. */
  predicate Truthy(o: Option<string>)
  {
    o.Some? && o.value != ""
  }

  function Kw(o: Option<string>): KwValue
  {
    if o.Some? then KwText(o.value) else KwNone
  }

  /** `"{}".format(o)`: None prints as "None". */
  function FormatField(o: Option<string>): string
  {
    if o.Some? then o.value else "None"
  }

  const DefaultPostgresPort: string := "5432"
  const SocketFilePrefix: string := ".s.PGSQL."

  /** The socket file inside a socket directory. */
  function SocketFileName(port: Option<string>): string
  {
    SocketFilePrefix + (if Truthy(port) then port.value else DefaultPostgresPort)
  }

  /** A directory stands for the socket file inside it; any other path for itself. */
  function ResolveSocket(path: string, port: Option<string>, fs: FileSystem): string
  {
    if path in fs.directories then Child(path, SocketFileName(port)) else path
  }

  /**
   * `_connectorFor_pg8000`: a pg8000 connector with plain wrappers and the
   * Postgres preflight, whose keywords are the credentials plus either
   * `unix_sock` or `host` (and then possibly `port`), never both.
   */
  function Pg8000Connector(s: Settings, fs: FileSystem): (r: Result<Connector, ConnectorError>)
    ensures ParseParameters(s.endpoint, s.user, s.password, s.database).Err? ==>
      r == Err(BadEndpoint(ParseParameters(s.endpoint, s.user, s.password, s.database).error))
    ensures r.Ok? ==>
      && r.value.driver == Pg8000 && r.value.kind == PlainWrapper && r.value.preflight == PostgresPreflight
      && r.value.args == []
      && "user" in r.value.kwargs && r.value.kwargs["user"] == Kw(s.user)
      && "password" in r.value.kwargs && r.value.kwargs["password"] == Kw(s.password)
      && "database" in r.value.kwargs && r.value.kwargs["database"] == Kw(s.database)
      && ("unix_sock" in r.value.kwargs <==> "host" !in r.value.kwargs)
      && ("port" in r.value.kwargs ==> "host" in r.value.kwargs && r.value.kwargs["port"].KwInt?)
  {
    match ParseParameters(s.endpoint, s.user, s.password, s.database)
    case Err(e) => Err(BadEndpoint(e))
    case Ok(p) =>
      var kw := map["user" := Kw(p.user), "password" := Kw(p.password), "database" := Kw(p.database)];
      if Truthy(p.unixsocket) then
        var path := ResolveSocket(p.unixsocket.value, p.port, fs);
        if path !in fs.sockets then Err(NoSuchSocket(path))
        else Ok(Connector(Pg8000, PlainWrapper, PostgresPreflight, [], kw["unix_sock" := KwText(path)]))
      else
        var kw := kw["host" := Kw(p.host)];
        if !Truthy(p.port) then Ok(Connector(Pg8000, PlainWrapper, PostgresPreflight, [], kw))
        else match ParseInt(p.port.value)
          case None => Err(BadPort(p.port.value))
          case Some(n) => Ok(Connector(Pg8000, PlainWrapper, PostgresPreflight, [], kw["port" := KwInt(n)]))
  }

  /**
   * The Oracle DSN `user/password@host:port/database`, each field as Python
   * prints it. When no field holds a separator, reading the DSN back
   * recovers all five fields in order.
   */
  function OracleDsn(p: Params): (dsn: string)
    ensures var (u, pw, h, po, d) :=
        (FormatField(p.user), FormatField(p.password), FormatField(p.host), FormatField(p.port), FormatField(p.database));
      DsnSafe(u) && DsnSafe(pw) && DsnSafe(h) && DsnSafe(po) && DsnSafe(d) ==>
        ParseDsn(dsn) == Some((u, pw, h, po, d))
  {
    var (u, pw, h, po, d) :=
      (FormatField(p.user), FormatField(p.password), FormatField(p.host), FormatField(p.port), FormatField(p.database));
    DsnFieldsRoundTrip(u, pw, h, po, d);
    u + "/" + pw + "@" + h + ":" + po + "/" + d
  }

  /** `OracleConnector(dsn)`: cx_Oracle, threaded, Oracle wrappers and preflight. */
  function OracleConnector(dsn: string): (c: Connector)
    ensures c.args == [dsn] && c.kwargs == map["threaded" := KwBool(true)]
    ensures c.driver == CxOracle && c.kind == OracleWrapper && c.preflight == OraclePreflight
  {
    Connector(CxOracle, OracleWrapper, OraclePreflight, [dsn], map["threaded" := KwBool(true)])
  }

  /** `_connectorFor_cx_Oracle`: the Oracle connector for the DSN of the
      parsed endpoint and credentials. */
  function CxOracleConnector(s: Settings): (r: Result<Connector, ConnectorError>)
    ensures match ParseParameters(s.endpoint, s.user, s.password, s.database)
      case Err(e) => r == Err(BadEndpoint(e))
      case Ok(p) =>
        && r.Ok? && r.value.args == [OracleDsn(p)] && r.value.kwargs == map["threaded" := KwBool(true)]
        && r.value.driver == CxOracle && r.value.kind == OracleWrapper && r.value.preflight == OraclePreflight
  {
    match ParseParameters(s.endpoint, s.user, s.password, s.database)
    case Err(e) => Err(BadEndpoint(e))
    case Ok(p) => Ok(OracleConnector(OracleDsn(p)))
  }

  /** `_connectorFor_module`: the builder named after the driver module,
      which builds a connector for that module. */
  function ConnectorForModule(m: DriverModule, s: Settings, fs: FileSystem): (r: Result<Connector, ConnectorError>)
    ensures r.Ok? ==> r.value.driver == m
    ensures ParseParameters(s.endpoint, s.user, s.password, s.database).Err? ==>
      r == Err(BadEndpoint(ParseParameters(s.endpoint, s.user, s.password, s.database).error))
  {
    match m
    case Pg8000 => Pg8000Connector(s, fs)
    case CxOracle => CxOracleConnector(s)
  }

  /** `connectorFor(dbtype, **kwargs)` */
  function ConnectorFor(dbtype: string, s: Settings, fs: FileSystem): (r: Result<Connector, ConnectorError>)
    ensures dbtype != "postgres" && dbtype != "oracle" ==> r == Err(UnknownDatabaseType(dbtype))
    ensures r.Ok? && dbtype == "postgres" ==>
      r.value.driver == Pg8000 && r.value.kind == PlainWrapper && r.value.preflight == PostgresPreflight
    ensures r.Ok? && dbtype == "oracle" ==>
      r.value.driver == CxOracle && r.value.kind == OracleWrapper && r.value.preflight == OraclePreflight
    ensures (dbtype == "postgres" || dbtype == "oracle") ==>
      match ParseParameters(s.endpoint, s.user, s.password, s.database)
      case Err(e) => r == Err(BadEndpoint(e))
      case Ok(p) => dbtype == "oracle" ==> r == Ok(OracleConnector(OracleDsn(p)))
  {
    if dbtype == "postgres" then ConnectorForModule(Pg8000, s, fs)
    else if dbtype == "oracle" then ConnectorForModule(CxOracle, s, fs)
    else Err(UnknownDatabaseType(dbtype))
  }

  /** Keyword arguments of pg8000's `connect` for the credentials. */
  function Credentials(s: Settings): map<string, KwValue>
  {
    map["user" := Kw(s.user), "password" := Kw(s.password), "database" := Kw(s.database)]
  }

  /** `":" + port` for a given port, nothing otherwise. */
  function PortSuffix(port: Option<string>): string
  {
    if port.Some? then ":" + port.value else ""
  }

  lemma UnixParams(s: Settings, dir: string, port: Option<string>)
    requires ':' !in dir
    requires port.Some? ==> ':' !in port.value
    requires s.endpoint == UnixScheme + dir + PortSuffix(port)
    ensures ParseParameters(s.endpoint, s.user, s.password, s.database)
         == Ok(Params(s.endpoint, Some(dir), None, port, s.user, s.password, s.database))
  {
    var rest := dir + PortSuffix(port);
    assert s.endpoint == UnixScheme + rest;
    if port.Some? {
      assert rest == dir + [':'] + port.value;
      UnixEndpointHalves(dir, port.value, s.user, s.password, s.database);
    } else {
      assert rest == dir;
      UnixEndpoint(rest, s.user, s.password, s.database);
    }
  }

  lemma TcpParams(s: Settings, host: string, port: Option<string>)
    requires ':' !in host
    requires port.Some? ==> ':' !in port.value
    requires s.endpoint == TcpScheme + host + PortSuffix(port)
    ensures ParseParameters(s.endpoint, s.user, s.password, s.database)
         == Ok(Params(s.endpoint, None, Some(host), port, s.user, s.password, s.database))
  {
    var rest := host + PortSuffix(port);
    assert s.endpoint == TcpScheme + rest;
    if port.Some? {
      assert rest == host + [':'] + port.value;
      TcpEndpointHalves(host, port.value, s.user, s.password, s.database);
    } else {
      assert rest == host;
      TcpEndpoint(rest, s.user, s.password, s.database);
    }
  }

  /** A socket directory resolves to `dir/.s.PGSQL.<port or 5432>`. */
  lemma SocketPath(dir: string, port: Option<string>, fs: FileSystem)
    ensures ResolveSocket(dir, port, fs) ==
      if dir in fs.directories
      then dir + "/.s.PGSQL." + (if port.Some? && port.value != "" then port.value else "5432")
      else dir
  {
    var q := if port.Some? && port.value != "" then port.value else "5432";
    assert "/" + SocketFilePrefix == "/.s.PGSQL.";
    assert Child(dir, SocketFileName(port)) == dir + ("/" + SocketFilePrefix) + q;
  }

  /**
   * Postgres over a Unix socket: a directory `dir` stands for
   * `dir/.s.PGSQL.<port or 5432>`; the resolved path must be a socket, or the
   * connector is refused before anything connects; otherwise pg8000 gets the
   * credentials and `unix_sock`, and no host or port.
   */
  lemma PostgresUnixSocket(s: Settings, dir: string, port: Option<string>, fs: FileSystem)
    requires dir != "" && ':' !in dir
    requires port.Some? ==> ':' !in port.value
    requires s.endpoint == UnixScheme + dir + PortSuffix(port)
    ensures var file := if dir in fs.directories
                        then dir + "/.s.PGSQL." + (if port.Some? && port.value != "" then port.value else "5432")
                        else dir;
      ConnectorFor("postgres", s, fs) ==
        if file in fs.sockets
        then Ok(Connector(Pg8000, PlainWrapper, PostgresPreflight, [], Credentials(s)["unix_sock" := KwText(file)]))
        else Err(NoSuchSocket(file))
  {
    UnixParams(s, dir, port);
    var file := ResolveSocket(dir, port, fs);
    SocketPath(dir, port, fs);
    assert ConnectorFor("postgres", s, fs) == Pg8000Connector(s, fs);
    assert Pg8000Connector(s, fs) ==
      if file in fs.sockets
      then Ok(Connector(Pg8000, PlainWrapper, PostgresPreflight, [], Credentials(s)["unix_sock" := KwText(file)]))
      else Err(NoSuchSocket(file));
  }

  /** Postgres over TCP: pg8000 gets `host`, and `port=int(port)` only when a
      port is given; a port that is not decimal is refused. */
  lemma PostgresTcp(s: Settings, host: string, port: Option<string>, fs: FileSystem)
    requires ':' !in host
    requires port.Some? ==> ':' !in port.value
    requires s.endpoint == TcpScheme + host + PortSuffix(port)
    ensures var kw := Credentials(s)["host" := KwText(host)];
      ConnectorFor("postgres", s, fs) ==
        if port.None? || port.value == "" then Ok(Connector(Pg8000, PlainWrapper, PostgresPreflight, [], kw))
        else if IsDecimal(port.value) then
          Ok(Connector(Pg8000, PlainWrapper, PostgresPreflight, [], kw["port" := KwInt(ValueOf(port.value))]))
        else Err(BadPort(port.value))
  {
    TcpParams(s, host, port);
  }

  /** A field holding none of the DSN separators. */
  predicate DsnSafe(f: string)
  {
    '/' !in f && '@' !in f && ':' !in f
  }

  /** Reads the five fields back out of `user/password@host:port/database`. */
  function ParseDsn(dsn: string): Option<(string, string, string, string, string)>
  {
    var at := Split(dsn, '@');
    if |at| != 2 then None
    else
      var login := Split(at[0], '/');
      var address := Split(at[1], ':');
      if |login| != 2 || |address| != 2 then None
      else
        var tail := Split(address[1], '/');
        if |tail| != 2 then None
        else Some((login[0], login[1], address[0], tail[0], tail[1]))
  }

  lemma DsnFieldsRoundTrip(u: string, pw: string, h: string, po: string, d: string)
    ensures DsnSafe(u) && DsnSafe(pw) && DsnSafe(h) && DsnSafe(po) && DsnSafe(d) ==>
      ParseDsn(u + "/" + pw + "@" + h + ":" + po + "/" + d) == Some((u, pw, h, po, d))
  {
    if DsnSafe(u) && DsnSafe(pw) && DsnSafe(h) && DsnSafe(po) && DsnSafe(d) {
      var login := u + ['/'] + pw;
      var tail := po + ['/'] + d;
      var address := h + [':'] + tail;
      var dsn := u + "/" + pw + "@" + h + ":" + po + "/" + d;
      assert dsn == login + ['@'] + address;
      assert Split(dsn, '@') == [login, address] by {
        SplitAfter(login, '@', address);
        SplitNone(address, '@');
      }
      assert Split(login, '/') == [u, pw] by {
        SplitAfter(u, '/', pw);
        SplitNone(pw, '/');
      }
      assert Split(address, ':') == [h, tail] by {
        SplitAfter(h, ':', tail);
        SplitNone(tail, ':');
      }
      assert Split(tail, '/') == [po, d] by {
        SplitAfter(po, '/', d);
        SplitNone(d, '/');
      }
    }
  }
}
