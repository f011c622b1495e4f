/**
 * The native DB-API driver and everything behind it, seen from the adapter
 * layer: every native call is recorded, in order, in one trace, and the call
 * made at trace position k raises exactly when k is in `failures`. A native
 * connection or cursor is identified by the trace position of the call that
 * created it. Rows, the UTF-8 decoder and the Oracle output-type mapper are
 * opaque and given with the backend.
 */
module Native {
  import opened Results

  /** A value passed to or read from the driver. */
  datatype Value =
    | Text(text: string)              // a unicode string
    | Bytes(raw: seq<bv8>)            // a byte string (Python 2 `str`)
    | Number(n: int)
    | Null
    | Lob(size: nat, content: string) // an NCLOB variable of `size`, holding `content`
    | Handle(id: nat)                 // any other driver object, e.g. a LOB locator

  type Row = seq<Value>

  /** A keyword argument of a driver's `connect`. */
  datatype KwValue = KwText(s: string) | KwInt(n: int) | KwBool(b: bool) | KwNone

  /** The driver modules the connectors use. */
  datatype DriverModule = Pg8000 | CxOracle

  /** Which wrapper classes sit over the native objects. */
  datatype WrapperKind = PlainWrapper | OracleWrapper

  /** One native call. */
  datatype Event =
    | Connect(connectArgs: seq<string>, kwargs: map<string, KwValue>)
    | OpenCursor(conn: nat)
    | Execute(cursor: nat, sql: string, args: seq<Value>)
    | FetchAll(cursor: nat)
    | Iterate(cursor: nat)
    | CloseCursor(cursor: nat)
    | Commit(conn: nat)
    | Rollback(conn: nat)
    | Close(conn: nat)

  class Backend {
    const driver: DriverModule
    const failures: set<nat>
    const rowsAt: nat -> seq<Row>
    const decodeUtf8: seq<bv8> -> Option<string>
    const mapOutputType: Value -> Value
    var trace: seq<Event>

    constructor (driver: DriverModule, failures: set<nat>, rowsAt: nat -> seq<Row>,
                 decodeUtf8: seq<bv8> -> Option<string>, mapOutputType: Value -> Value)
      ensures this.driver == driver && this.failures == failures && this.rowsAt == rowsAt
      ensures this.decodeUtf8 == decodeUtf8 && this.mapOutputType == mapOutputType
      ensures trace == []
    {
      this.driver := driver;
      this.failures := failures;
      this.rowsAt := rowsAt;
      this.decodeUtf8 := decodeUtf8;
      this.mapOutputType := mapOutputType;
      trace := [];
    }

    /** Makes the native call `e`; `ok` is false when it raises. */
    method Call(e: Event) returns (ok: bool)
      modifies this
      ensures trace == old(trace) + [e]
      ensures ok <==> |old(trace)| !in failures
    {
      ok := |trace| !in failures;
      trace := trace + [e];
    }

    /** Makes the native call `e` that yields the current result rows. */
    method Rows(e: Event) returns (rows: Option<seq<Row>>)
      modifies this
      ensures trace == old(trace) + [e]
      ensures rows == if |old(trace)| in failures then None else Some(rowsAt(|old(trace)|))
    {
      rows := if |trace| in failures then None else Some(rowsAt(|trace|));
      trace := trace + [e];
    }
  }

  /** No native call at positions k .. k+len-1 raises. */
  predicate AllSucceed(k: nat, len: nat, failures: set<nat>)
  {
    forall i :: k <= i < k + len ==> i !in failures
  }

  /**
   * How many of `len` straight-line native calls, the first at trace position
   * k, are made when an exception ends the sequence: every call up to and
   * including the first one that raises.
   */
  function CallsMade(k: nat, len: nat, failures: set<nat>): (n: nat)
    ensures n <= len && (len > 0 ==> n > 0)
    ensures forall i :: k <= i < k + n - 1 ==> i !in failures
    ensures n < len ==> k + n - 1 in failures
    ensures n == len <==> len == 0 || AllSucceed(k, len - 1, failures)
    decreases len
  {
    if len == 0 then 0
    else if k in failures then 1
    else 1 + CallsMade(k + 1, len - 1, failures)
  }
}
