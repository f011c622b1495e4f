/**
 * Python 2's `repr` of a byte string, as used by the `'executing %r'` status
 * text, and the reading that inverts it.
 *
 * Characters above 0xFF cannot occur in a byte string; they are passed through
 * unescaped so that the functions stay total on `string`.
 */
module PyRepr {
  import opened Results

  /** The quote `repr` chooses: double quotes only when the text holds a single
      quote and no double quote. */
  function QuoteFor(s: string): char
  {
    if '\'' in s && '"' !in s then '"' else '\''
  }

  function HexDigit(d: nat): (c: char)
    requires d < 16
  {
    if d < 10 then (('0' as int) + d) as char else (('a' as int) + d - 10) as char
  }

  function HexValue(c: char): Option<nat>
  {
    if '0' <= c <= '9' then Some((c as int) - ('0' as int))
    else if 'a' <= c <= 'f' then Some((c as int) - ('a' as int) + 10)
    else None
  }

  /** One character as `repr` writes it inside quote `q`. */
  function EscapeChar(c: char, q: char): (e: string)
    ensures |e| > 0
  {
    if c == q || c == '\\' then ['\\', c]
    else if c == '\t' then "\\t"
    else if c == '\n' then "\\n"
    else if c == '\r' then "\\r"
    else if c < ' ' || ('\U{7F}' <= c <= '\U{FF}') then
      ['\\', 'x', HexDigit((c as int) / 16), HexDigit((c as int) % 16)]
    else [c]
  }

  function Escape(s: string, q: char): string
  {
    if s == [] then [] else EscapeChar(s[0], q) + Escape(s[1..], q)
  }

  /** `repr(s)` for a byte string `s`. */
  function Repr(s: string): (r: string)
    ensures |r| >= 2 && r[0] == r[|r| - 1] == QuoteFor(s)
  {
    var q := QuoteFor(s);
    [q] + Escape(s, q) + [q]
  }

  function Prepend(c: char, o: Option<string>): Option<string>
  {
    match o
    case None => None
    case Some(t) => Some([c] + t)
  }

  /** Reads back the text between the quotes of a `repr`. */
  function Unescape(e: string): Option<string>
  {
    if e == [] then Some([])
    else if e[0] != '\\' then Prepend(e[0], Unescape(e[1..]))
    else if |e| < 2 then None
    else if e[1] == '\\' || e[1] == '\'' || e[1] == '"' then Prepend(e[1], Unescape(e[2..]))
    else if e[1] == 't' then Prepend('\t', Unescape(e[2..]))
    else if e[1] == 'n' then Prepend('\n', Unescape(e[2..]))
    else if e[1] == 'r' then Prepend('\r', Unescape(e[2..]))
    else if e[1] == 'x' && |e| >= 4 && HexValue(e[2]).Some? && HexValue(e[3]).Some? then
      Prepend((HexValue(e[2]).value * 16 + HexValue(e[3]).value) as char, Unescape(e[4..]))
    else None
  }

  /** Reads back a quoted `repr`. */
  function Unrepr(r: string): Option<string>
  {
    if |r| >= 2 && (r[0] == '\'' || r[0] == '"') && r[|r| - 1] == r[0] then
      Unescape(r[1..|r| - 1])
    else None
  }

  lemma HexRoundTrip(d: nat)
    requires d < 16
    ensures HexValue(HexDigit(d)) == Some(d)
  {
  }

  lemma EscapeCharRead(c: char, q: char, rest: string)
    requires q == '\'' || q == '"'
    ensures Unescape(EscapeChar(c, q) + rest) == Prepend(c, Unescape(rest))
  {
    var e := EscapeChar(c, q) + rest;
    if c == q || c == '\\' {
      assert e[2..] == rest;
    } else if c == '\t' || c == '\n' || c == '\r' {
      assert e[2..] == rest;
    } else if c < ' ' || ('\U{7F}' <= c <= '\U{FF}') {
      var hi, lo := (c as int) / 16, (c as int) % 16;
      HexRoundTrip(hi);
      HexRoundTrip(lo);
      assert e[2] == HexDigit(hi) && e[3] == HexDigit(lo);
      assert e[4..] == rest;
    } else {
      assert e[1..] == rest;
    }
  }

  lemma {:induction false} UnescapeEscape(s: string, q: char)
    requires q == '\'' || q == '"'
    ensures Unescape(Escape(s, q)) == Some(s)
  {
    if s != [] {
      UnescapeEscape(s[1..], q);
      EscapeCharRead(s[0], q, Escape(s[1..], q));
      assert [s[0]] + s[1..] == s;
    }
  }

  /** `repr` loses nothing: the text is recovered from its `repr`. */
  lemma UnreprRepr(s: string)
    ensures Unrepr(Repr(s)) == Some(s)
  {
    var r := Repr(s);
    assert r[1..|r| - 1] == Escape(s, QuoteFor(s));
    UnescapeEscape(s, QuoteFor(s));
  }
}
