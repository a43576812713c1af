/** `JSON.stringify` for the values the loggers serialise: strings and flat objects
    whose property values are strings. */
module Json {
  import opened Wrappers
  import opened Metadata

  function HexLower(n: nat): (c: char)
    requires n < 16
  {
    if n < 10 then (('0' as int) + n) as char else (('a' as int) + n - 10) as char
  }

  function HexLowerValue(c: char): Option<nat> {
    if '0' <= c <= '9' then Some((c as int) - ('0' as int))
    else if 'a' <= c <= 'f' then Some((c as int) - ('a' as int) + 10)
    else if 'A' <= c <= 'F' then Some((c as int) - ('A' as int) + 10)
    else None
  }

  /** The escape of one character inside a JSON string literal: `"` and `\` get a
      backslash, five control characters have short names, the other characters below
      U+0020 become `\u00xx` with lower-case hex digits, and everything else is kept. */
  function EscapeChar(c: char): (r: string)
    ensures |r| >= 1
    ensures forall x | x in r :: ' ' <= x
  {
    if c == '"' then "\\\""
    else if c == '\\' then "\\\\"
    else if c == '\U{8}' then "\\b"
    else if c == '\t' then "\\t"
    else if c == '\n' then "\\n"
    else if c == '\U{C}' then "\\f"
    else if c == '\r' then "\\r"
    else if c < ' ' then "\\u00" + [HexLower((c as int) / 16), HexLower((c as int) % 16)]
    else [c]
  }

  /** The body of `JSON.stringify(s)`, without the quotes. */
  function Escape(s: string): (r: string)
    ensures forall x | x in r :: ' ' <= x
    ensures '"' in r ==> '"' in s
  {
    if |s| == 0 then "" else EscapeChar(s[0]) + Escape(s[1..])
  }

  /** `JSON.stringify(s)` for a string `s`. */
  function Quote(s: string): (r: string)
    ensures |r| >= 2 && r[0] == '"' && r[|r| - 1] == '"'
    ensures '\n' !in r
  {
    "\"" + Escape(s) + "\""
  }

  /** Reading the body of a JSON string literal back (section 7 of RFC 8259); `None`
      for a raw quote or control character, an unknown escape, or a `\u` escape that
      does not denote a Unicode scalar value. */
  function Unescape(r: string): (s: Option<string>)
    decreases |r|
  {
    if |r| == 0 then Some("")
    else if r[0] == '"' || r[0] < ' ' then None
    else if r[0] != '\\' then
      match Unescape(r[1..])
      case Some(t) => Some([r[0]] + t)
      case None => None
    else if |r| < 2 then None
    else
      var e := r[1];
      var named :=
        if e == '"' then Some('"') else if e == '\\' then Some('\\') else if e == '/' then Some('/')
        else if e == 'b' then Some('\U{8}') else if e == 't' then Some('\t')
        else if e == 'n' then Some('\n') else if e == 'f' then Some('\U{C}')
        else if e == 'r' then Some('\r') else None;
      if named.Some? then
        match Unescape(r[2..])
        case Some(t) => Some([named.value] + t)
        case None => None
      else if e == 'u' && |r| >= 6 then
        var h := [HexLowerValue(r[2]), HexLowerValue(r[3]), HexLowerValue(r[4]), HexLowerValue(r[5])];
        if h[0].None? || h[1].None? || h[2].None? || h[3].None? then None
        else
          var v := ((h[0].value * 16 + h[1].value) * 16 + h[2].value) * 16 + h[3].value;
          if 0xD800 <= v < 0xE000 then None
          else
            match Unescape(r[6..])
            case Some(t) => Some([v as char] + t)
            case None => None
      else None
  }

  lemma {:induction false} UnescapeEscapeChar(c: char, rest: string)
    ensures Unescape(EscapeChar(c) + rest)
            == match Unescape(rest) case Some(t) => Some([c] + t) case None => None
  {
    var r := EscapeChar(c) + rest;
    if c == '"' || c == '\\' || c == '\U{8}' || c == '\t' || c == '\n' || c == '\U{C}' || c == '\r' {
      assert r[2..] == rest;
    } else if c < ' ' {
      var n := c as int;
      assert r[0] == '\\' && r[1] == 'u' && r[2] == '0' && r[3] == '0';
      assert r[4] == HexLower(n / 16) && r[5] == HexLower(n % 16);
      assert HexLowerValue(r[4]) == Some(n / 16);
      assert HexLowerValue(r[5]) == Some(n % 16);
      assert ((0 * 16 + 0) * 16 + n / 16) * 16 + n % 16 == n;
      assert r[6..] == rest;
    } else {
      assert r[1..] == rest;
    }
  }

  /** Reading an escaped string back gives the original string. */
  lemma {:induction false} UnescapeEscape(s: string)
    ensures Unescape(Escape(s)) == Some(s)
  {
    if |s| > 0 {
      UnescapeEscape(s[1..]);
      UnescapeEscapeChar(s[0], Escape(s[1..]));
      assert [s[0]] + s[1..] == s;
    }
  }

  /** The members of a flat object, `"key":"value"` separated by commas. */
  function Members(m: Entries): (r: string)
    ensures '\n' !in r
  {
    if |m| == 0 then ""
    else
      var first := Quote(m[0].0) + ":" + Quote(m[0].1);
      if |m| == 1 then first else first + "," + Members(m[1..])
  }

  /** `JSON.stringify(m)` for a flat object with string values, in property order. */
  function Object(m: Entries): (r: string)
    ensures '\n' !in r
    ensures |m| == 0 <==> r == "{}"
  {
    "{" + Members(m) + "}"
  }

  /** A property value of a nested object: a string or a flat object of strings. */
  datatype Value = Str(s: string) | Flat(m: Entries)

  function ValueText(v: Value): (r: string)
    ensures '\n' !in r
  {
    match v
    case Str(s) => Quote(s)
    case Flat(m) => Object(m)
  }

  /** The members of a nested object, `"key":value` separated by commas. */
  function Fields(fields: seq<(string, Value)>): (r: string)
    ensures '\n' !in r
  {
    if |fields| == 0 then ""
    else
      var first := Quote(fields[0].0) + ":" + ValueText(fields[0].1);
      if |fields| == 1 then first else first + "," + Fields(fields[1..])
  }

  /** `JSON.stringify` of an object whose property values are strings or flat objects,
      in property order. */
  function NestedObject(fields: seq<(string, Value)>): (r: string)
    ensures '\n' !in r
    ensures |fields| == 0 <==> r == "{}"
  {
    "{" + Fields(fields) + "}"
  }
}
