/**
 * The Python values that `json.loads` and `ast.literal_eval` produce
 * (floats left out), with Python's truthiness, `len`, `repr` and `str`; `repr`
 * escapes strings as Python does for characters up to U+00FF.
 */
module Json {
  import opened Wrappers
  import opened Text
  import opened ODict

  datatype Value =
    | Null
    | Bool(b: bool)
    | Int(i: int)
    | Str(s: string)
    | List(items: seq<Value>)
    | Object(fields: Dict<Value>)

  /** A partial parser such as `json.loads`: `None` when it raises. */
  type Decoder = string -> Option<Value>

  /** `bool(v)` in Python. */
  predicate Truthy(v: Value)
  {
    match v
    case Null => false
    case Bool(b) => b
    case Int(i) => i != 0
    case Str(s) => s != []
    case List(items) => items != []
    case Object(fields) => fields != []
  }

  /** Whether `len(v)` is defined rather than raising `TypeError`. */
  predicate HasLen(v: Value)
  {
    v.Str? || v.List? || v.Object?
  }

  /** `repr(v)`. */
  function Repr(v: Value): string
    decreases v
  {
    match v
    case Null => "None"
    case Bool(b) => if b then "True" else "False"
    case Int(i) => IntToString(i)
    case Str(s) => QuoteString(s)
    case List(items) => "[" + ReprItems(items) + "]"
    case Object(fields) => "{" + ReprFields(fields) + "}"
  }

  /** The quote `repr` chooses: double quotes for a string holding an apostrophe and
      no double quote, single quotes otherwise. */
  function QuoteChar(s: string): char
  {
    if '\'' in s && '"' !in s then '"' else '\''
  }

  /** `repr` of a string: the chosen quote around the escaped characters. */
  function QuoteString(s: string): string
  {
    var q := QuoteChar(s);
    [q] + Escaped(s, q) + [q]
  }

  function Escaped(s: string, q: char): string
  {
    if s == [] then [] else EscapeChar(s[0], q) + Escaped(s[1..], q)
  }

  /** Characters `repr` writes as `\xhh`: the C0 controls, DEL, the C1 controls with
      the no-break space, and the soft hyphen. */
  predicate NeedsHex(c: char)
  {
    c as int < 0x20 || (0x7F <= c as int <= 0xA0) || c as int == 0xAD
  }

  function HexDigit(d: nat): char
    requires d < 16
  {
    if d < 10 then ('0' as int + d) as char else ('a' as int + d - 10) as char
  }

  function EscapeChar(c: char, q: char): string
  {
    if c == q || c == '\\' then ['\\', c]
    else if c == '\t' then "\\t"
    else if c == '\n' then "\\n"
    else if c == '\r' then "\\r"
    else if NeedsHex(c) then ['\\', 'x', HexDigit(c as int / 16), HexDigit(c as int % 16)]
    else [c]
  }

  function HexValue(c: char): Option<nat>
  {
    if '0' <= c <= '9' then Some(c as int - '0' as int)
    else if 'a' <= c <= 'f' then Some(c as int - 'a' as int + 10)
    else None
  }

  /** Reads back the inside of a string literal quoted with `q`, as evaluating the
      literal does; `None` for a bare quote or an escape `repr` never writes. */
  function Unescape(t: string, q: char): Option<string>
    decreases |t|
  {
    if t == [] then Some([])
    else if t[0] == q then None
    else if t[0] != '\\' then Prepend(t[0], Unescape(t[1..], q))
    else if |t| < 2 then None
    else if t[1] == q || t[1] == '\\' then Prepend(t[1], Unescape(t[2..], q))
    else if t[1] == 't' then Prepend('\t', Unescape(t[2..], q))
    else if t[1] == 'n' then Prepend('\n', Unescape(t[2..], q))
    else if t[1] == 'r' then Prepend('\r', Unescape(t[2..], q))
    else if t[1] == 'x' && |t| >= 4 && HexValue(t[2]).Some? && HexValue(t[3]).Some? then
      Prepend((16 * HexValue(t[2]).value + HexValue(t[3]).value) as char, Unescape(t[4..], q))
    else None
  }

  function Prepend(c: char, r: Option<string>): Option<string>
  {
    if r.Some? then Some([c] + r.value) else None
  }

  lemma HexRoundTrip(d: nat)
    requires d < 16
    ensures HexValue(HexDigit(d)) == Some(d)
  {
  }

  lemma UnescapeEscapeChar(c: char, q: char, rest: string)
    requires q == '\'' || q == '"'
    ensures Unescape(EscapeChar(c, q) + rest, q) == Prepend(c, Unescape(rest, q))
  {
    var e := EscapeChar(c, q);
    var t := e + rest;
    if c == q || c == '\\' || c == '\t' || c == '\n' || c == '\r' {
      assert t[2..] == rest;
    } else if NeedsHex(c) {
      var hi, lo := c as int / 16, c as int % 16;
      HexRoundTrip(hi);
      HexRoundTrip(lo);
      assert t[2] == HexDigit(hi) && t[3] == HexDigit(lo);
      assert t[4..] == rest;
    } else {
      assert t[1..] == rest;
    }
  }

  /** Evaluating the escaped text gives the string back, and it holds no bare quote. */
  lemma {:induction false} UnescapeEscaped(s: string, q: char)
    requires q == '\'' || q == '"'
    ensures Unescape(Escaped(s, q), q) == Some(s)
  {
    if s != [] {
      UnescapeEscaped(s[1..], q);
      UnescapeEscapeChar(s[0], q, Escaped(s[1..], q));
      assert [s[0]] + s[1..] == s;
    }
  }

  /** `repr` of a string is a literal that reads back as the string: it opens and
      closes with the chosen quote, and its inside unescapes to `s`. */
  lemma QuoteStringRoundTrip(s: string)
    ensures var r := QuoteString(s);
      |r| >= 2 && r[0] == r[|r| - 1] == QuoteChar(s) && Unescape(r[1..|r| - 1], r[0]) == Some(s)
  {
    var q := QuoteChar(s);
    var r := QuoteString(s);
    assert r[1..|r| - 1] == Escaped(s, q);
    UnescapeEscaped(s, q);
  }

  /** A character `repr` writes as itself. */
  predicate Plain(c: char)
  {
    c != '\'' && c != '"' && c != '\\' && c != '\t' && c != '\n' && c != '\r' && !NeedsHex(c)
  }

  lemma {:induction false} EscapedPlain(s: string, q: char)
    requires q == '\'' || q == '"'
    requires forall i :: 0 <= i < |s| ==> Plain(s[i]) || (s[i] == '\'' && q == '"')
    ensures Escaped(s, q) == s
  {
    if s != [] {
      assert EscapeChar(s[0], q) == [s[0]];
      EscapedPlain(s[1..], q);
      assert [s[0]] + s[1..] == s;
    }
  }

  /** Text without quotes, backslashes or control characters is written in single
      quotes as it is. */
  lemma QuotePlain(s: string)
    requires forall i :: 0 <= i < |s| ==> Plain(s[i])
    ensures QuoteString(s) == "'" + s + "'"
  {
    assert '\'' !in s;
    EscapedPlain(s, '\'');
  }

  /** Text holding an apostrophe but no double quote is written in double quotes,
      the apostrophe unescaped: `repr("Austria's")` is `"Austria's"`. */
  lemma QuoteApostrophe(s: string, i: nat)
    requires i < |s| && s[i] == '\''
    requires forall j :: 0 <= j < |s| ==> s[j] == '\'' || Plain(s[j])
    ensures QuoteString(s) == "\"" + s + "\""
  {
    assert '"' !in s;
    EscapedPlain(s, '"');
  }

  function ReprItems(items: seq<Value>): string
    decreases items
  {
    if items == [] then ""
    else if |items| == 1 then Repr(items[0])
    else Repr(items[0]) + ", " + ReprItems(items[1..])
  }

  function ReprFields(fields: Dict<Value>): string
    decreases fields
  {
    if fields == [] then ""
    else
      var entry := ReprEntry(fields[0]);
      if |fields| == 1 then entry else entry + ", " + ReprFields(fields[1..])
  }

  function ReprEntry(entry: (string, Value)): string
    decreases entry
  {
    QuoteString(entry.0) + ": " + Repr(entry.1)
  }

  /** `str(v)`: a string is itself, anything else its `repr`. */
  function ToStr(v: Value): string
  {
    if v.Str? then v.s else Repr(v)
  }
}
