/** `JSON.stringify` of a string, which the literal form uses for plain and
    `|str`-tagged strings: a JSON string per section 7 of RFC 8259, escaped the
    way ECMAScript's QuoteJSONString does it (short escapes for quotation mark,
    reverse solidus, backspace, tab, line feed, form feed and carriage return,
    `\u00xx` with lower-case hex digits for the other control characters). The
    decoder below reads any RFC 8259 string body without surrogate escapes; the
    round trip says the quoting loses nothing. */
module Json {
  import opened Wrappers

  function HexDigit(d: nat): (c: char)
    requires d < 16
  {
    "0123456789abcdef"[d]
  }

  /** The escape of one character inside a JSON string. */
  function EscapeChar(c: char): (r: string)
    ensures |r| >= 1
    ensures forall i :: 0 <= i < |r| ==> r[i] >= ' '
    ensures |r| == 1 <==> r == [c]
    ensures r[0] != '"'
  {
    if c == '"' then "\\\""
    else if c == '\\' then "\\\\"
    else if c == '\U{8}' then "\\b"
    else if c == '\t' then "\\t"
    else if c == '\n' then "\\n"
    else if c == '\U{C}' then "\\f"
    else if c == '\r' then "\\r"
    else if c < ' ' then "\\u00" + [HexDigit(c as nat / 16), HexDigit(c as nat % 16)]
    else [c]
  }

  function EscapeBody(s: string): (r: string)
    ensures forall i :: 0 <= i < |r| ==> r[i] >= ' '
  {
    if |s| == 0 then "" else EscapeChar(s[0]) + EscapeBody(s[1..])
  }

  /** Text with no control character, quotation mark or reverse solidus,
      which JSON writes as it is. */
  predicate Plain(s: string)
  {
    forall i :: 0 <= i < |s| ==> s[i] >= ' ' && s[i] != '"' && s[i] != '\\'
  }

  lemma {:induction false} EscapeBodyPlain(s: string)
    requires Plain(s)
    ensures EscapeBody(s) == s
  {
    if |s| > 0 {
      EscapeBodyPlain(s[1..]);
      assert [s[0]] + s[1..] == s;
    }
  }

  /** `JSON.stringify(s)` for a string `s`. */
  function Quote(s: string): (r: string)
    ensures |r| >= 2 && r[0] == '"' && r[|r| - 1] == '"'
    ensures forall i :: 0 <= i < |r| ==> r[i] >= ' '
  {
    "\"" + EscapeBody(s) + "\""
  }

  /** Plain text is quoted by putting quotation marks around it. */
  lemma QuotePlain(s: string)
    requires Plain(s)
    ensures Quote(s) == "\"" + s + "\""
  {
    EscapeBodyPlain(s);
  }

  function HexValue(c: char): Option<nat>
  {
    if '0' <= c <= '9' then Some(c as nat - '0' as nat)
    else if 'a' <= c <= 'f' then Some(c as nat - 'a' as nat + 10)
    else if 'A' <= c <= 'F' then Some(c as nat - 'A' as nat + 10)
    else None
  }

  /** The value of the four hex digits of a `\uXXXX` escape. */
  function Hex4(h: string): Option<nat>
    requires |h| == 4
  {
    match (HexValue(h[0]), HexValue(h[1]), HexValue(h[2]), HexValue(h[3]))
    case (Some(a), Some(b), Some(c), Some(d)) => Some(((a * 16 + b) * 16 + c) * 16 + d)
    case _ => None
  }

  function Prepend(c: char, r: Option<string>): Option<string>
  {
    match r
    case Some(t) => Some([c] + t)
    case None => None
  }

  /** The characters denoted by the body of a JSON string (the text between its
      quotation marks), or None when the body is not a valid RFC 8259 body. */
  function DecodeBody(b: string): Option<string>
    decreases |b|
  {
    if |b| == 0 then Some("")
    else if b[0] == '"' || b[0] < ' ' then None
    else if b[0] != '\\' then Prepend(b[0], DecodeBody(b[1..]))
    else if |b| < 2 then None
    else
      var e := b[1];
      if e == '"' || e == '\\' || e == '/' then Prepend(e, DecodeBody(b[2..]))
      else if e == 'b' then Prepend('\U{8}', DecodeBody(b[2..]))
      else if e == 'f' then Prepend('\U{C}', DecodeBody(b[2..]))
      else if e == 'n' then Prepend('\n', DecodeBody(b[2..]))
      else if e == 'r' then Prepend('\r', DecodeBody(b[2..]))
      else if e == 't' then Prepend('\t', DecodeBody(b[2..]))
      else if e == 'u' && |b| >= 6 then
        match Hex4(b[2..6])
        case Some(v) =>
          if v < 0xD800 || (0xDFFF < v < 0x11_0000) then Prepend(v as char, DecodeBody(b[6..]))
          else None
        case None => None
      else None
  }

  /** The string a JSON string literal denotes, or None if `t` is not one. */
  function Unquote(t: string): Option<string>
  {
    if |t| >= 2 && t[0] == '"' && t[|t| - 1] == '"' then DecodeBody(t[1..|t| - 1]) else None
  }

  /** A control character without a short escape reads back from `\u00xx`. */
  lemma DecodeControl(c: char, rest: string)
    requires c < ' ' && c != '\U{8}' && c != '\t' && c != '\n' && c != '\U{C}' && c != '\r'
    ensures DecodeBody(EscapeChar(c) + rest) == Prepend(c, DecodeBody(rest))
  {
    var e := EscapeChar(c);
    var b := e + rest;
    assert b[2..6] == e[2..6];
    assert b[6..] == rest;
    var hi, lo := c as nat / 16, c as nat % 16;
    assert HexValue(HexDigit(hi)) == Some(hi);
    assert HexValue(HexDigit(lo)) == Some(lo);
    assert Hex4(b[2..6]) == Some(c as nat);
  }

  /** A character with a two-character escape reads back from it. */
  lemma DecodeShort(c: char, rest: string)
    requires c == '"' || c == '\\' || c == '\U{8}' || c == '\t' || c == '\n' || c == '\U{C}' || c == '\r'
    ensures DecodeBody(EscapeChar(c) + rest) == Prepend(c, DecodeBody(rest))
  {
    assert (EscapeChar(c) + rest)[2..] == rest;
  }

  /** Any other character stands for itself. */
  lemma DecodeOrdinary(c: char, rest: string)
    requires c >= ' ' && c != '"' && c != '\\'
    ensures DecodeBody(EscapeChar(c) + rest) == Prepend(c, DecodeBody(rest))
  {
    assert ([c] + rest)[1..] == rest;
  }

  lemma DecodeEscapeChar(c: char, rest: string)
    ensures DecodeBody(EscapeChar(c) + rest) == Prepend(c, DecodeBody(rest))
  {
    if c == '"' || c == '\\' || c == '\U{8}' || c == '\t' || c == '\n' || c == '\U{C}' || c == '\r' {
      DecodeShort(c, rest);
    } else if c < ' ' {
      DecodeControl(c, rest);
    } else {
      DecodeOrdinary(c, rest);
    }
  }

  lemma {:induction false} DecodeEscapeBody(s: string)
    ensures DecodeBody(EscapeBody(s)) == Some(s)
  {
    if |s| > 0 {
      DecodeEscapeChar(s[0], EscapeBody(s[1..]));
      DecodeEscapeBody(s[1..]);
      assert [s[0]] + s[1..] == s;
    }
  }

  /** Quoting loses nothing: the JSON string literal denotes the original text. */
  lemma QuoteRoundTrip(s: string)
    ensures Unquote(Quote(s)) == Some(s)
  {
    var t := Quote(s);
    assert t[1..|t| - 1] == EscapeBody(s);
    DecodeEscapeBody(s);
  }

  /** Quoting is injective: different texts have different literals. */
  lemma QuoteInjective(s: string, t: string)
    requires Quote(s) == Quote(t)
    ensures s == t
  {
    QuoteRoundTrip(s);
    QuoteRoundTrip(t);
  }
}
