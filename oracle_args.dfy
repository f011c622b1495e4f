/**
 * What the Oracle cursor wrapper does to values on their way in and out:
 * `execute` decodes byte strings and binds long text through an NCLOB
 * variable; `fetchall` passes every column through `mapOracleOutputType`.
 */
module OracleArgs {
  import opened Results
  import opened Native

  /** Longest text still bound as a plain parameter. */
  const LobThreshold: nat := 1024

  /** The text a bound value carries, if any. */
  function TextOf(v: Value): Option<string>
  {
    match v
    case Text(t) => Some(t)
    case Lob(_, t) => Some(t)
    case _ => None
  }

  /** A byte string becomes the unicode text it decodes to; decoding may fail. */
  function Decoded(a: Value, decode: seq<bv8> -> Option<string>): Option<Value>
  {
    match a
    case Bytes(raw) =>
      (match decode(raw)
       case None => None
       case Some(t) => Some(Text(t)))
    case _ => Some(a)
  }

  /** Text over the threshold goes into an NCLOB variable one longer than it. */
  function BindDecoded(a: Value): Value
  {
    if a.Text? && |a.text| > LobThreshold then Lob(|a.text| + 1, a.text) else a
  }

  /** One argument as `execute` hands it to the driver. */
  function BindArg(a: Value, decode: seq<bv8> -> Option<string>): (r: Option<Value>)
    ensures r.None? <==> a.Bytes? && decode(a.raw).None?
    ensures r.Some? && a.Text? ==> TextOf(r.value) == Some(a.text)
    ensures r.Some? && a.Bytes? ==> TextOf(r.value) == decode(a.raw)
    ensures r.Some? && (a.Text? || a.Bytes?) ==>
      (r.value.Lob? <==> |TextOf(r.value).value| > LobThreshold) &&
      (r.value.Lob? ==> r.value.size == |TextOf(r.value).value| + 1) &&
      (!r.value.Lob? ==> r.value.Text?)
    ensures !a.Text? && !a.Bytes? ==> r == Some(a)
  {
    match Decoded(a, decode)
    case None => None
    case Some(d) => Some(BindDecoded(d))
  }

  /** The argument list `execute` hands to the driver: each argument bound on
      its own, in order; None when some byte string fails to decode. */
  function BindArgs(args: seq<Value>, decode: seq<bv8> -> Option<string>): (r: Option<seq<Value>>)
    ensures r.None? <==> exists i :: 0 <= i < |args| && args[i].Bytes? && decode(args[i].raw).None?
    ensures r.Some? ==>
      && |r.value| == |args|
      && forall i :: 0 <= i < |args| ==> BindArg(args[i], decode) == Some(r.value[i])
  {
    if forall i :: 0 <= i < |args| ==> BindArg(args[i], decode).Some? then
      Some(seq(|args|, i requires 0 <= i < |args| => BindArg(args[i], decode).value))
    else None
  }

  /** An empty argument list is passed on empty. */
  lemma BindNoArgs(decode: seq<bv8> -> Option<string>)
    ensures BindArgs([], decode) == Some([])
  {
    assert |BindArgs([], decode).value| == 0;
  }

  /** `OracleCursorWrapper.execute`'s loop building `realArgs`. */
  method BindAll(args: seq<Value>, decode: seq<bv8> -> Option<string>) returns (realArgs: Option<seq<Value>>)
    ensures realArgs == BindArgs(args, decode)
  {
    var bound: seq<Value> := [];
    var i := 0;
    while i < |args|
      invariant 0 <= i <= |args| && |bound| == i
      invariant forall k :: 0 <= k < i ==> BindArg(args[k], decode) == Some(bound[k])
    {
      var arg := args[i];
      if arg.Bytes? {
        var text := decode(arg.raw);
        if text.None? {
          assert BindArg(args[i], decode).None?;
          return None;
        }
        arg := Text(text.value);
      }
      var v := if arg.Text? && |arg.text| > LobThreshold then Lob(|arg.text| + 1, arg.text) else arg;
      bound := bound + [v];
      i := i + 1;
    }
    assert bound == seq(|args|, k requires 0 <= k < |args| => BindArg(args[k], decode).value);
    return Some(bound);
  }

  /** `out` is `rows` with `f` applied to every column of every row. */
  predicate MappedRows(out: seq<Row>, rows: seq<Row>, f: Value -> Value)
  {
    && |out| == |rows|
    && forall i :: 0 <= i < |rows| ==>
         |out[i]| == |rows[i]| && forall j :: 0 <= j < |rows[i]| ==> out[i][j] == f(rows[i][j])
  }

  /** `OracleCursorWrapper.fetchall`'s loops building `accum` and `newRow`. */
  method MapRows(rows: seq<Row>, f: Value -> Value) returns (accum: seq<Row>)
    ensures MappedRows(accum, rows, f)
  {
    accum := [];
    var i := 0;
    while i < |rows|
      invariant 0 <= i <= |rows|
      invariant MappedRows(accum, rows[..i], f)
    {
      var row := rows[i];
      var newRow: Row := [];
      var j := 0;
      while j < |row|
        invariant 0 <= j <= |row|
        invariant |newRow| == j
        invariant forall k :: 0 <= k < j ==> newRow[k] == f(row[k])
      {
        newRow := newRow + [f(row[j])];
        j := j + 1;
      }
      accum := accum + [newRow];
      i := i + 1;
    }
    assert rows[..i] == rows;
  }
}
