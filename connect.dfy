/**
 * `DBAPIConnector.connect` and the two preflight functions: one native
 * connect, a wrapper with the given label, then exactly one preflight that
 * runs two session statements on a scratch cursor, commits and closes the
 * cursor. An exception at any native call ends the sequence and propagates;
 * nothing is cleaned up.
 */
module Connect {
  import opened Results
  import opened Native
  import opened Connectors
  import opened Diagnostic
  import opened OracleArgs

  const StandardConformingStrings: string := "set standard_conforming_strings=on"
  const StatementTimeout: string := "set statement_timeout=30000"
  const TimestampFormat: string :=
    "alter session set NLS_TIMESTAMP_FORMAT = 'YYYY-MM-DD HH24:MI:SS.FF'"
  const TimestampTzFormat: string :=
    "alter session set NLS_TIMESTAMP_TZ_FORMAT = 'YYYY-MM-DD HH:MI:SS.FF+TZH:TZM'"
  const DefaultLabel: string := "<unlabeled>"

  /** The two statements each preflight executes, in order. */
  function PreflightStatements(p: PreflightKind): (string, string)
  {
    match p
    case PostgresPreflight => (StandardConformingStrings, StatementTimeout)
    case OraclePreflight => (TimestampFormat, TimestampTzFormat)
  }

  /** The native calls of a preflight running `first` and `second` on
      connection `conn` whose scratch cursor is opened at trace position `k`. */
  function PreflightCalls(first: string, second: string, conn: nat, k: nat): seq<Event>
  {
    [OpenCursor(conn), Execute(k, first, []), Execute(k, second, []), Native.Commit(conn), CloseCursor(k)]
  }

  /** The wrapper's state once `n` of the preflight's calls have been made. */
  function PreflightState(first: string, second: string, before: string, n: nat): string
  {
    if n <= 1 then before
    else if n == 2 then StatusText(Executing(first))
    else if n <= 4 then StatusText(Executing(second))
    else StatusText(AfterCommit)
  }

  /** `j` calls are made when the first j-1 succeed and the j-th raises or is the last. */
  lemma CallsMadeIs(k: nat, len: nat, j: nat, failures: set<nat>)
    requires 1 <= j <= len
    requires forall i :: k <= i < k + j - 1 ==> i !in failures
    requires j < len ==> k + j - 1 in failures
    ensures CallsMade(k, len, failures) == j
  {
  }

  /** `cursor.execute(sql)` with no arguments, as both preflights issue it. */
  method ExecuteNoArgs(c: CursorWrapper, sql: string) returns (ok: bool)
    modifies c.parent`state, c.backend
    ensures c.parent.state == StatusText(Executing(sql))
    ensures c.backend.trace == old(c.backend.trace) + [Execute(c.cursor, sql, [])]
    ensures ok <==> |old(c.backend.trace)| !in c.backend.failures
  {
    OutgoingNoArgs(c.kind, c.backend.decodeUtf8);
    ok := c.Execute(sql, []);
  }

  /** The first two of the preflight's calls on its scratch cursor `c`:
      both statements, the second only when the first does not raise. */
  method RunStatements(first: string, second: string, c: CursorWrapper) returns (ok: bool)
    modifies c.parent`state, c.backend
    ensures var k := |old(c.backend.trace)|;
      var n := CallsMade(k, 2, c.backend.failures);
      && c.backend.trace == old(c.backend.trace) + [Execute(c.cursor, first, []), Execute(c.cursor, second, [])][..n]
      && (ok <==> AllSucceed(k, 2, c.backend.failures))
      && c.parent.state == StatusText(Executing(if n == 1 then first else second))
  {
    ghost var k := |c.backend.trace|;
    ok := ExecuteNoArgs(c, first);
    if !ok {
      CallsMadeIs(k, 2, 1, c.backend.failures);
      return;
    }
    ok := ExecuteNoArgs(c, second);
    CallsMadeIs(k, 2, 2, c.backend.failures);
  }

  /** The last two of the preflight's calls: the commit on the connection,
      then, when the commit does not raise, closing the scratch cursor. */
  method Finish(c: CursorWrapper) returns (ok: bool)
    requires c.parent.backend == c.backend
    modifies c.parent`state, c.backend
    ensures var k := |old(c.backend.trace)|;
      var n := CallsMade(k, 2, c.backend.failures);
      && c.backend.trace == old(c.backend.trace) + [Native.Commit(c.parent.conn), CloseCursor(c.cursor)][..n]
      && (ok <==> AllSucceed(k, 2, c.backend.failures))
      && c.parent.state == if k in c.backend.failures then old(c.parent.state) else StatusText(AfterCommit)
  {
    ghost var k := |c.backend.trace|;
    ok := c.parent.Commit();
    if !ok {
      CallsMadeIs(k, 2, 1, c.backend.failures);
      return;
    }
    ok := c.Close();
    CallsMadeIs(k, 2, 2, c.backend.failures);
  }

  /** `a + b` straight-line calls: the first `a`, and then, when none of
      them raises, the next `b`. */
  lemma {:induction false} CallsMadeAppend(k: nat, a: nat, b: nat, failures: set<nat>)
    ensures CallsMade(k, a + b, failures) ==
      if AllSucceed(k, a, failures) then a + CallsMade(k + a, b, failures) else CallsMade(k, a, failures)
    decreases a
  {
    if a > 0 && k !in failures {
      CallsMadeAppend(k + 1, a - 1, b, failures);
      assert AllSucceed(k, a, failures) <==> AllSucceed(k + 1, a - 1, failures);
    }
  }

  /** The preflight's work on its scratch cursor `c`: both statements, the
      commit, then closing the cursor, stopping at the first exception. */
  method RunOnCursor(first: string, second: string, c: CursorWrapper) returns (ok: bool)
    requires c.parent.backend == c.backend
    modifies c.parent`state, c.backend
    ensures var k := |old(c.backend.trace)|;
      var n := CallsMade(k, 4, c.backend.failures);
      && c.backend.trace == old(c.backend.trace) + PreflightCalls(first, second, c.parent.conn, c.cursor)[1..n + 1]
      && (ok <==> AllSucceed(k, 4, c.backend.failures))
      && c.parent.state == PreflightState(first, second, old(c.parent.state), n + 1)
  {
    ghost var k := |c.backend.trace|;
    ghost var calls := PreflightCalls(first, second, c.parent.conn, c.cursor);
    CallsMadeAppend(k, 2, 2, c.backend.failures);
    ok := RunStatements(first, second, c);
    if !ok {
      return;
    }
    ok := Finish(c);
    assert calls[1..CallsMade(k, 4, c.backend.failures) + 1] == calls[1..3] + calls[3..CallsMade(k + 2, 2, c.backend.failures) + 3];
  }

  /** `postgresPreflight` and `oraclePreflight`, given their two statements. */
  method Preflight(first: string, second: string, w: ConnectionWrapper) returns (ok: bool)
    modifies w`state, w.backend
    ensures var k := |old(w.backend.trace)|;
      var n := CallsMade(k, 5, w.backend.failures);
      && w.backend.trace == old(w.backend.trace) + PreflightCalls(first, second, w.conn, k)[..n]
      && (ok <==> AllSucceed(k, 5, w.backend.failures))
      && w.state == PreflightState(first, second, old(w.state), n)
  {
    ghost var k := |w.backend.trace|;
    ghost var calls := PreflightCalls(first, second, w.conn, k);
    var c := w.Cursor();
    if c == null {
      CallsMadeIs(k, 5, 1, w.backend.failures);
      return false;
    }
    ok := RunOnCursor(first, second, c);
    ghost var failures := w.backend.failures;
    ghost var n := CallsMade(k + 1, 4, failures);
    assert CallsMade(k, 5, failures) == n + 1 by {
      CallsMadeAppend(k, 1, 4, failures);
    }
    assert AllSucceed(k, 5, failures) <==> AllSucceed(k + 1, 4, failures);
    assert calls[..n + 1] == [calls[0]] + calls[1..n + 1];
  }

  /** The native calls of `connect` when the native connect is at trace
      position `k`: the connect, then the preflight on that connection. */
  function ConnectCalls(c: Connector, k: nat): seq<Event>
  {
    var (first, second) := PreflightStatements(c.preflight);
    [Native.Connect(c.args, c.kwargs)] + PreflightCalls(first, second, k, k + 1)
  }

  /** `DBAPIConnector.connect(label)`; null when an exception propagates. */
  method Connect(connector: Connector, backend: Backend, connLabel: string := DefaultLabel)
    returns (w: ConnectionWrapper?)
    requires backend.driver == connector.driver
    modifies backend
    ensures var k := |old(backend.trace)|;
      backend.trace == old(backend.trace) + ConnectCalls(connector, k)[..CallsMade(k, 6, backend.failures)]
    ensures w != null <==> AllSucceed(|old(backend.trace)|, 6, backend.failures)
    ensures w != null ==>
      && fresh(w) && w.backend == backend && w.conn == |old(backend.trace)|
      && w.connLabel == connLabel && w.kind == connector.kind
      && w.state == StatusText(AfterCommit)
  {
    var k := |backend.trace|;
    var ok := backend.Call(Native.Connect(connector.args, connector.kwargs));
    if !ok {
      return null;
    }
    w := new ConnectionWrapper(backend, k, connLabel, connector.kind);
    var (first, second) := PreflightStatements(connector.preflight);
    ok := Preflight(first, second, w);
    if !ok {
      w := null;
    }
  }
}
