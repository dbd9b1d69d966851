/**
 * What `JSON.stringify` writes for an object whose members are all strings
 * (section 25.5.2 of ECMA-262, no indentation), and a reader for that text.
 * The reader inverts the writer for every such object.
 */
module Json {
  import opened Results
  import JsNumbers

  /** Lower-case hexadecimal digit of `n`. */
  function HexDigit(n: nat): char
    requires n < 16
  {
    if n < 10 then ('0' as int + n) as char else ('a' as int + n - 10) as char
  }

  /**
   * QuoteJSONString for one character: the two-character escapes for
   * backspace, tab, line feed, form feed, carriage return, quote and
   * backslash; `\u00xx` for the other control characters; the character
   * itself otherwise.
   */
  function EscapeChar(c: char): (e: string)
    ensures |e| > 0
  {
    if c == '"' then "\\\""
    else if c == '\\' then "\\\\"
    else if c == '\U{8}' then "\\b"
    else if c == '\t' then "\\t"
    else if c == '\n' then "\\n"
    else if c == '\U{C}' then "\\f"
    else if c == '\r' then "\\r"
    else if (c as int) < 0x20 then "\\u00" + [HexDigit(c as int / 16), HexDigit(c as int % 16)]
    else [c]
  }

  function Escape(s: string): string
  {
    if s == [] then [] else EscapeChar(s[0]) + Escape(s[1..])
  }

  /** The JSON string literal for `s`, followed by `rest`. */
  function QuoteThen(s: string, rest: string): string
  {
    "\"" + (Escape(s) + ("\"" + rest))
  }

  /**
   * The character an escape stands for, given the text after the
   * backslash, and how many characters of that text the escape takes.
   * `\u` escapes naming a surrogate code unit are refused.
   */
  function Unescape(t: string): (r: Option<(char, nat)>)
    ensures r.Some? ==> 0 < r.value.1 <= |t|
  {
    if t == [] then None
    else if t[0] == '"' then Some(('"', 1))
    else if t[0] == '\\' then Some(('\\', 1))
    else if t[0] == '/' then Some(('/', 1))
    else if t[0] == 'b' then Some(('\U{8}', 1))
    else if t[0] == 't' then Some(('\t', 1))
    else if t[0] == 'n' then Some(('\n', 1))
    else if t[0] == 'f' then Some(('\U{C}', 1))
    else if t[0] == 'r' then Some(('\r', 1))
    else if t[0] == 'u' && |t| >= 5
         && JsNumbers.HexDigitValue(t[1]) >= 0 && JsNumbers.HexDigitValue(t[2]) >= 0
         && JsNumbers.HexDigitValue(t[3]) >= 0 && JsNumbers.HexDigitValue(t[4]) >= 0 then
      var v := ((JsNumbers.HexDigitValue(t[1]) * 16 + JsNumbers.HexDigitValue(t[2])) * 16
                + JsNumbers.HexDigitValue(t[3])) * 16 + JsNumbers.HexDigitValue(t[4]);
      if 0xD800 <= v < 0xE000 then None else Some((v as char, 5))
    else None
  }

  /**
   * Reads the rest of a JSON string literal whose opening quote has been
   * consumed: its value, and the text after the closing quote.
   */
  function ReadString(s: string): (r: Option<(string, string)>)
    ensures r.Some? ==> |r.value.1| < |s|
    decreases |s|
  {
    if s == [] then None
    else if s[0] == '"' then Some(([], s[1..]))
    else if s[0] == '\\' then
      match Unescape(s[1..])
      case None => None
      case Some(u) =>
        match ReadString(s[1 + u.1..])
        case None => None
        case Some(rest) => Some(([u.0] + rest.0, rest.1))
    else if (s[0] as int) < 0x20 then None
    else
      match ReadString(s[1..])
      case None => None
      case Some(rest) => Some(([s[0]] + rest.0, rest.1))
  }

  /** Reading one escaped character puts that character in front of what follows. */
  lemma ReadEscapedChar(c: char, tail: string)
    ensures ReadString(EscapeChar(c) + tail) ==
            match ReadString(tail)
            case None => None
            case Some(rest) => Some(([c] + rest.0, rest.1))
  {
    var s := EscapeChar(c) + tail;
    if (c as int) < 0x20 && c != '\U{8}' && c != '\t' && c != '\n' && c != '\U{C}' && c != '\r' {
      ReadUnicodeEscape(c, tail);
    } else if c == '"' || c == '\\' || c == '\U{8}' || c == '\t' || c == '\n' || c == '\U{C}' || c == '\r' {
      assert s[2..] == tail;
    } else {
      assert s[1..] == tail;
    }
  }

  /** A control character without a short escape is read back from its `\u00xx` form. */
  lemma ReadUnicodeEscape(c: char, tail: string)
    requires (c as int) < 0x20 && c != '\U{8}' && c != '\t' && c != '\n' && c != '\U{C}' && c != '\r'
    ensures Unescape((EscapeChar(c) + tail)[1..]) == Some((c, 5))
    ensures (EscapeChar(c) + tail)[1 + 5..] == tail
  {
    var s := EscapeChar(c) + tail;
    var hi, lo := c as int / 16, c as int % 16;
    assert hi * 16 + lo == c as int;
    assert JsNumbers.HexDigitValue(HexDigit(hi)) == hi;
    assert JsNumbers.HexDigitValue(HexDigit(lo)) == lo;
    assert s[1..][..5] == ['u', '0', '0', HexDigit(hi), HexDigit(lo)];
  }

  /** The reader gives back exactly the string the writer quoted, and leaves what follows. */
  lemma {:induction false} ReadEscape(v: string, rest: string)
    ensures ReadString(Escape(v) + ("\"" + rest)) == Some((v, rest))
    decreases |v|
  {
    if v == [] {
      assert Escape(v) + ("\"" + rest) == "\"" + rest;
      assert ("\"" + rest)[1..] == rest;
    } else {
      var tail := Escape(v[1..]) + ("\"" + rest);
      assert Escape(v) + ("\"" + rest) == EscapeChar(v[0]) + tail;
      ReadEscapedChar(v[0], tail);
      ReadEscape(v[1..], rest);
      assert [v[0]] + v[1..] == v;
    }
  }

  /** Reading a quoted literal from its opening quote. */
  lemma ReadQuoted(v: string, rest: string)
    ensures |QuoteThen(v, rest)| > 0 && QuoteThen(v, rest)[0] == '"'
    ensures ReadString(QuoteThen(v, rest)[1..]) == Some((v, rest))
  {
    assert QuoteThen(v, rest)[1..] == Escape(v) + ("\"" + rest);
    ReadEscape(v, rest);
  }

  // ---------------------------------------------------------------- objects

  /**
   * The members of an object, comma separated, each `"key":"value"`,
   * followed by `close`.
   */
  function MembersThen(fields: seq<(string, string)>, close: string): string
    requires |fields| > 0
  {
    var after := if |fields| == 1 then close else "," + MembersThen(fields[1..], close);
    QuoteThen(fields[0].0, ":" + QuoteThen(fields[0].1, after))
  }

  /**
   * `JSON.stringify` of an object whose members, in insertion order, are
   * `fields`, for distinct keys that are not array indices (such as the
   * draft's): `JSON.stringify` writes array-index keys first, ascending.
   */
  function EncodeObject(fields: seq<(string, string)>): string
  {
    if fields == [] then "{}" else "{" + MembersThen(fields, "}")
  }

  /** Reads `"key":"value"` members up to and including the closing brace, which must end the text. */
  function ReadMembers(s: string): Option<seq<(string, string)>>
    decreases |s|
  {
    if s == [] || s[0] != '"' then None
    else
      match ReadString(s[1..])
      case None => None
      case Some(key) =>
        var r1 := key.1;
        if |r1| < 2 || r1[0] != ':' || r1[1] != '"' then None
        else
          match ReadString(r1[2..])
          case None => None
          case Some(value) =>
            var r2 := value.1;
            if r2 == "}" then Some([(key.0, value.0)])
            else if r2 != [] && r2[0] == ',' then
              match ReadMembers(r2[1..])
              case None => None
              case Some(more) => Some([(key.0, value.0)] + more)
            else None
  }

  /** Reads an object all of whose members are strings; the text must hold nothing else. */
  function DecodeObject(s: string): Option<seq<(string, string)>>
  {
    if s == "{}" then Some([])
    else if s != [] && s[0] == '{' then ReadMembers(s[1..])
    else None
  }

  /** One member is read back, and reading continues with the text after it. */
  lemma ReadMemberStep(k: string, v: string, after: string)
    ensures ReadMembers(QuoteThen(k, ":" + QuoteThen(v, after))) ==
            if after == "}" then Some([(k, v)])
            else if after != [] && after[0] == ',' then
              match ReadMembers(after[1..])
              case None => None
              case Some(more) => Some([(k, v)] + more)
            else None
  {
    var r1 := ":" + QuoteThen(v, after);
    ReadQuoted(k, r1);
    assert r1[1..] == QuoteThen(v, after);
    ReadQuoted(v, after);
    assert r1[2..] == QuoteThen(v, after)[1..];
  }

  lemma {:induction false} ReadMembersOf(fields: seq<(string, string)>)
    requires |fields| > 0
    ensures ReadMembers(MembersThen(fields, "}")) == Some(fields)
    decreases |fields|
  {
    var k, v := fields[0].0, fields[0].1;
    if |fields| == 1 {
      ReadMemberStep(k, v, "}");
      assert fields == [(k, v)];
    } else {
      var after := "," + MembersThen(fields[1..], "}");
      ReadMemberStep(k, v, after);
      assert after[1..] == MembersThen(fields[1..], "}");
      ReadMembersOf(fields[1..]);
      assert [(k, v)] + fields[1..] == fields;
    }
  }

  /** Decoding what `JSON.stringify` wrote gives back every member, in order. */
  lemma DecodeEncode(fields: seq<(string, string)>)
    ensures DecodeObject(EncodeObject(fields)) == Some(fields)
  {
    if fields != [] {
      var s := EncodeObject(fields);
      assert s != "{}" by {
        assert |QuoteThen(fields[0].0, ":")| >= 2;
        assert |s| > 2;
      }
      assert s[1..] == MembersThen(fields, "}");
      ReadMembersOf(fields);
    }
  }
}
