/**
 * `DiagnosticConnectionWrapper` and `DiagnosticCursorWrapper` (with the Oracle
 * variants selected by `WrapperKind`): wrappers over native connections and
 * cursors that keep a human-readable `state` string on the connection.
 */
module Diagnostic {
  import opened Results
  import opened PyRepr
  import opened Native
  import opened OracleArgs

  /** The statuses the `state` string encodes. */
  datatype Status = Start | AfterCommit | AfterRollback | Closed | Executing(sql: string)

  const ExecutingPrefix: string := "executing "

  /** The `state` string of each status; only an execute's begins with `e`,
      so no idle or closed state reads as an execute. */
  function StatusText(st: Status): (s: string)
    ensures |s| > 0 && (s[0] == 'e' <==> st.Executing?)
  {
    assert ExecutingPrefix[0] == 'e';
    match st
    case Start => "idle (start)"
    case AfterCommit => "idle (after commit)"
    case AfterRollback => "idle (after rollback)"
    case Closed => "closed"
    case Executing(sql) => ExecutingPrefix + Repr(sql)
  }

  /** Reads a `state` string back as a status. */
  function ParseStatus(s: string): Option<Status>
  {
    if s == "idle (start)" then Some(Start)
    else if s == "idle (after commit)" then Some(AfterCommit)
    else if s == "idle (after rollback)" then Some(AfterRollback)
    else if s == "closed" then Some(Closed)
    else if |s| >= |ExecutingPrefix| && s[..|ExecutingPrefix|] == ExecutingPrefix then
      match Unrepr(s[|ExecutingPrefix|..])
      case None => None
      case Some(sql) => Some(Executing(sql))
    else None
  }

  /** Distinct statuses have distinct texts: the state names the operation,
      and for an execute the exact statement. */
  lemma ParseStatusText(st: Status)
    ensures ParseStatus(StatusText(st)) == Some(st)
  {
    if st.Executing? {
      var s := StatusText(st);
      var r := Repr(st.sql);
      assert s[|ExecutingPrefix|..] == r;
      assert s[..|ExecutingPrefix|] == ExecutingPrefix;
      UnreprRepr(st.sql);
      assert s != "idle (start)" && s != "idle (after commit)" by {
        assert s[0] == 'e';
      }
      assert s != "idle (after rollback)" && s != "closed" by {
        assert s[0] == 'e';
      }
    }
  }

  /** The arguments the wrapper hands to the native `execute`, or None when
      the Oracle wrapper fails to decode one. */
  function OutgoingArgs(kind: WrapperKind, args: seq<Value>, decode: seq<bv8> -> Option<string>): (r: Option<seq<Value>>)
    ensures kind == PlainWrapper ==> r == Some(args)
    ensures r.None? <==>
      kind == OracleWrapper && exists i :: 0 <= i < |args| && args[i].Bytes? && decode(args[i].raw).None?
    ensures r.Some? ==> |r.value| == |args|
  {
    match kind
    case PlainWrapper => Some(args)
    case OracleWrapper => BindArgs(args, decode)
  }

  /** A statement without arguments reaches the driver without arguments,
      whichever the wrapper. */
  lemma OutgoingNoArgs(kind: WrapperKind, decode: seq<bv8> -> Option<string>)
    ensures OutgoingArgs(kind, [], decode) == Some([])
  {
    BindNoArgs(decode);
  }

  class ConnectionWrapper {
    const backend: Backend
    const conn: nat
    const kind: WrapperKind
    var connLabel: string
    var state: string

    constructor (backend: Backend, conn: nat, connLabel: string, kind: WrapperKind)
      ensures this.backend == backend && this.conn == conn && this.kind == kind
      ensures this.connLabel == connLabel && state == StatusText(Start)
    {
      this.backend := backend;
      this.conn := conn;
      this.kind := kind;
      this.connLabel := connLabel;
      state := StatusText(Start);
    }

    /** A cursor wrapper over a new native cursor, or null when the native
        call raises. */
    method Cursor() returns (c: CursorWrapper?)
      modifies backend
      ensures backend.trace == old(backend.trace) + [OpenCursor(conn)]
      ensures c != null <==> |old(backend.trace)| !in backend.failures
      ensures c != null ==>
        && fresh(c) && c.parent == this && c.backend == backend && c.kind == kind
        && c.cursor == |old(backend.trace)|
    {
      var k := |backend.trace|;
      var ok := backend.Call(OpenCursor(conn));
      c := null;
      if ok {
        c := new CursorWrapper(backend, k, this, kind);
      }
    }

    method Close() returns (ok: bool)
      modifies this`state, backend
      ensures backend.trace == old(backend.trace) + [Native.Close(conn)]
      ensures ok <==> |old(backend.trace)| !in backend.failures
      ensures state == if ok then StatusText(Closed) else old(state)
    {
      ok := backend.Call(Native.Close(conn));
      if ok {
        state := StatusText(Closed);
      }
    }

    method Commit() returns (ok: bool)
      modifies this`state, backend
      ensures backend.trace == old(backend.trace) + [Native.Commit(conn)]
      ensures ok <==> |old(backend.trace)| !in backend.failures
      ensures state == if ok then StatusText(AfterCommit) else old(state)
    {
      ok := backend.Call(Native.Commit(conn));
      if ok {
        state := StatusText(AfterCommit);
      }
    }

    method Rollback() returns (ok: bool)
      modifies this`state, backend
      ensures backend.trace == old(backend.trace) + [Native.Rollback(conn)]
      ensures ok <==> |old(backend.trace)| !in backend.failures
      ensures state == if ok then StatusText(AfterRollback) else old(state)
    {
      ok := backend.Call(Native.Rollback(conn));
      if ok {
        state := StatusText(AfterRollback);
      }
    }
  }

  class CursorWrapper {
    const backend: Backend
    const cursor: nat
    const parent: ConnectionWrapper
    const kind: WrapperKind

    constructor (backend: Backend, cursor: nat, parent: ConnectionWrapper, kind: WrapperKind)
      ensures this.backend == backend && this.cursor == cursor && this.parent == parent && this.kind == kind
    {
      this.backend := backend;
      this.cursor := cursor;
      this.parent := parent;
      this.kind := kind;
    }

    /**
     * Sets the parent's state to the statement, then executes it natively, so
     * the state names the statement even when the native call raises. The
     * Oracle wrapper first binds the arguments; a failed decode raises before
     * anything changes.
     */
    method Execute(sql: string, args: seq<Value>) returns (ok: bool)
      modifies parent`state, backend
      ensures match OutgoingArgs(kind, args, backend.decodeUtf8)
        case None =>
          && !ok && backend.trace == old(backend.trace) && parent.state == old(parent.state)
        case Some(realArgs) =>
          && parent.state == StatusText(Executing(sql))
          && backend.trace == old(backend.trace) + [Native.Execute(cursor, sql, realArgs)]
          && (ok <==> |old(backend.trace)| !in backend.failures)
    {
      var realArgs := args;
      if kind == OracleWrapper {
        var bound := BindAll(args, backend.decodeUtf8);
        if bound.None? {
          return false;
        }
        realArgs := bound.value;
      }
      parent.state := StatusText(Executing(sql));
      ok := backend.Call(Native.Execute(cursor, sql, realArgs));
    }

    /** The native result rows; the Oracle wrapper iterates the native cursor
        and maps every column through `mapOracleOutputType`. */
    method FetchAll() returns (rows: Option<seq<Row>>)
      modifies backend
      ensures backend.trace == old(backend.trace) +
        [if kind == OracleWrapper then Iterate(cursor) else Native.FetchAll(cursor)]
      ensures rows.Some? <==> |old(backend.trace)| !in backend.failures
      ensures rows.Some? ==>
        var native := backend.rowsAt(|old(backend.trace)|);
        if kind == OracleWrapper then MappedRows(rows.value, native, backend.mapOutputType)
        else rows.value == native
    {
      if kind == OracleWrapper {
        var native := backend.Rows(Iterate(cursor));
        rows := None;
        if native.Some? {
          var accum := MapRows(native.value, backend.mapOutputType);
          rows := Some(accum);
        }
      } else {
        rows := backend.Rows(Native.FetchAll(cursor));
      }
    }

    method Close() returns (ok: bool)
      modifies backend
      ensures backend.trace == old(backend.trace) + [CloseCursor(cursor)]
      ensures ok <==> |old(backend.trace)| !in backend.failures
    {
      ok := backend.Call(CloseCursor(cursor));
    }
  }
}
