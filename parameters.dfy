/**
 * `DBAPIParameters`: an endpoint string `unix:<path>[:<port>]` or
 * `tcp:<host>[:<port>]` plus credentials, resolved into socket path, host
 * and port. An absent attribute (Python's None) is `None`.
 */
module Parameters {
  import opened Results
  import opened Strings

  datatype Params = Params(
    endpoint: string,
    unixsocket: Option<string>,
    host: Option<string>,
    port: Option<string>,
    user: Option<string>,
    password: Option<string>,
    database: Option<string>)

  datatype EndpointError =
    | MissingScheme  // neither prefix: the address attributes are never set
    | TooManyColons  // `a, b = s.split(":")` meets more than two pieces

  const UnixScheme: string := "unix:"
  const TcpScheme: string := "tcp:"

  /**
   * `if ":" in s: a, b = s.split(":") else: b = None`: an address without
   * `:` is all address and no port; with one `:` it is the two halves around
   * it; with more the two-way unpack fails.
   */
  function SplitAddress(s: string): (r: Result<(string, Option<string>), EndpointError>)
    ensures ':' !in s ==> r == Ok((s, None))
    ensures r.Err? <==> Count(s, ':') >= 2
    ensures r.Err? ==> r.error == TooManyColons
    ensures r.Ok? ==> (r.value.1.None? <==> ':' !in s)
    ensures r.Ok? && r.value.1.Some? ==>
      && r.value.0 + [':'] + r.value.1.value == s
      && ':' !in r.value.0 && ':' !in r.value.1.value
  {
    CountZero(s, ':');
    if ':' !in s then Ok((s, None))
    else
      var parts := Split(s, ':');
      if |parts| == 2 then
        SplitTwo(s, ':');
        Ok((parts[0], Some(parts[1])))
      else Err(TooManyColons)
  }

  /** `DBAPIParameters(endpoint, user, password, database)` */
  function ParseParameters(endpoint: string, user: Option<string>, password: Option<string>,
                           database: Option<string>): (r: Result<Params, EndpointError>)
    ensures !StartsWith(endpoint, UnixScheme) && !StartsWith(endpoint, TcpScheme) ==> r == Err(MissingScheme)
    ensures r.Ok? ==> r.value.unixsocket.Some? != r.value.host.Some?
  {
    if StartsWith(endpoint, UnixScheme) then
      match SplitAddress(endpoint[|UnixScheme|..])
      case Err(e) => Err(e)
      case Ok((path, port)) => Ok(Params(endpoint, Some(path), None, port, user, password, database))
    else if StartsWith(endpoint, TcpScheme) then
      match SplitAddress(endpoint[|TcpScheme|..])
      case Err(e) => Err(e)
      case Ok((host, port)) => Ok(Params(endpoint, None, Some(host), port, user, password, database))
    else Err(MissingScheme)
  }

  /** `unix:X`: X is the socket path when it has no ':'; with one ':' the two
      halves are socket path and port; host is never set; credentials are
      kept verbatim; two or more ':' fail. */
  lemma UnixEndpoint(rest: string, user: Option<string>, password: Option<string>, database: Option<string>)
    ensures var r := ParseParameters(UnixScheme + rest, user, password, database);
      && (':' !in rest ==> r == Ok(Params(UnixScheme + rest, Some(rest), None, None, user, password, database)))
      && (Count(rest, ':') == 1 ==>
            && r.Ok? && r.value.endpoint == UnixScheme + rest && r.value.host == None
            && r.value.unixsocket.Some? && r.value.port.Some?
            && r.value.unixsocket.value + [':'] + r.value.port.value == rest
            && ':' !in r.value.unixsocket.value && ':' !in r.value.port.value
            && r.value.user == user && r.value.password == password && r.value.database == database)
      && (Count(rest, ':') >= 2 ==> r == Err(TooManyColons))
  {
    var e := UnixScheme + rest;
    assert StartsWith(e, UnixScheme) && e[|UnixScheme|..] == rest;
    CountZero(rest, ':');
  }

  /** `tcp:X`: X is the host when it has no ':'; with one ':' the two halves
      are host and port; no socket path is set; credentials are kept
      verbatim; two or more ':' fail. */
  lemma TcpEndpoint(rest: string, user: Option<string>, password: Option<string>, database: Option<string>)
    ensures var r := ParseParameters(TcpScheme + rest, user, password, database);
      && (':' !in rest ==> r == Ok(Params(TcpScheme + rest, None, Some(rest), None, user, password, database)))
      && (Count(rest, ':') == 1 ==>
            && r.Ok? && r.value.endpoint == TcpScheme + rest && r.value.unixsocket == None
            && r.value.host.Some? && r.value.port.Some?
            && r.value.host.value + [':'] + r.value.port.value == rest
            && ':' !in r.value.host.value && ':' !in r.value.port.value
            && r.value.user == user && r.value.password == password && r.value.database == database)
      && (Count(rest, ':') >= 2 ==> r == Err(TooManyColons))
  {
    var e := TcpScheme + rest;
    assert StartsWith(e, TcpScheme) && e[|TcpScheme|..] == rest;
    assert !StartsWith(e, UnixScheme) by {
      assert e[0] == 't';
    }
    CountZero(rest, ':');
  }

  /** `unix:a:b` with neither half holding `:` is socket path `a`, port `b`. */
  lemma UnixEndpointHalves(a: string, b: string, user: Option<string>, password: Option<string>, database: Option<string>)
    requires ':' !in a && ':' !in b
    ensures ParseParameters(UnixScheme + (a + [':'] + b), user, password, database)
         == Ok(Params(UnixScheme + (a + [':'] + b), Some(a), None, Some(b), user, password, database))
  {
    var rest := a + [':'] + b;
    assert Count(rest, ':') == 1 by {
      SplitAfter(a, ':', b);
      SplitNone(b, ':');
    }
    UnixEndpoint(rest, user, password, database);
    var r := ParseParameters(UnixScheme + rest, user, password, database);
    JoinUnique(r.value.unixsocket.value, r.value.port.value, a, b, ':');
  }

  /** `tcp:a:b` with neither half holding `:` is host `a`, port `b`. */
  lemma TcpEndpointHalves(a: string, b: string, user: Option<string>, password: Option<string>, database: Option<string>)
    requires ':' !in a && ':' !in b
    ensures ParseParameters(TcpScheme + (a + [':'] + b), user, password, database)
         == Ok(Params(TcpScheme + (a + [':'] + b), None, Some(a), Some(b), user, password, database))
  {
    var rest := a + [':'] + b;
    assert Count(rest, ':') == 1 by {
      SplitAfter(a, ':', b);
      SplitNone(b, ':');
    }
    TcpEndpoint(rest, user, password, database);
    var r := ParseParameters(TcpScheme + rest, user, password, database);
    JoinUnique(r.value.host.value, r.value.port.value, a, b, ':');
  }
}
