/** HTML escaping of text placed in markup (`_.escape`, with the six-entry table
    of Underscore 1.4: `&`, `<`, `>`, `"`, `'` and `/`) and the text a browser
    shows for a fragment (its text content: tags dropped, character references
    decoded). The lemmas say that escaped text can neither open a tag nor leave
    an attribute value, and that the shown text is exactly the escaped input. */
module Html {
  import opened Text

  /** The character reference `_.escape` writes for a character, if any. */
  function Entity(c: char): string
  {
    if c == '&' then "&amp;"
    else if c == '<' then "&lt;"
    else if c == '>' then "&gt;"
    else if c == '"' then "&quot;"
    else if c == '\'' then "&#x27;"
    else if c == '/' then "&#x2F;"
    else ""
  }

  /** The escaped form of one character. */
  function EscapeOne(c: char): string
  {
    if |Entity(c)| > 0 then Entity(c) else [c]
  }

  /** The escaped form of a character holds none of the characters that
      could open or close a tag or an attribute value. */
  lemma EscapeOneSafe(c: char)
    ensures var e := EscapeOne(c); '<' !in e && '>' !in e && '"' !in e && '\'' !in e
  {
  }

  /** `_.escape(s)`. */
  function Escape(s: string): (r: string)
    ensures '<' !in r && '>' !in r && '"' !in r && '\'' !in r
  {
    if |s| == 0 then ""
    else
      EscapeOneSafe(s[0]);
      EscapeOne(s[0]) + Escape(s[1..])
  }

  predicate StartsWith(t: string, p: string)
  {
    |p| <= |t| && t[..|p|] == p
  }

  /** The text after the `>` that closes a tag, or "" if none does. */
  function AfterTag(t: string): (r: string)
    ensures |r| < |t| || (|t| == 0 && |r| == 0)
  {
    if |t| == 0 then ""
    else if t[0] == '>' then t[1..]
    else AfterTag(t[1..])
  }

  /** The text content of a markup fragment: every tag from `<` to the next `>`
      is dropped and the character references `_.escape` writes are decoded;
      every other character stands for itself. */
  function TextContent(t: string): string
    decreases |t|
  {
    if |t| == 0 then ""
    else if t[0] == '<' then TextContent(AfterTag(t[1..]))
    else if t[0] == '&' && StartsWith(t, "&amp;") then "&" + TextContent(t[5..])
    else if t[0] == '&' && StartsWith(t, "&lt;") then "<" + TextContent(t[4..])
    else if t[0] == '&' && StartsWith(t, "&gt;") then ">" + TextContent(t[4..])
    else if t[0] == '&' && StartsWith(t, "&quot;") then "\"" + TextContent(t[6..])
    else if t[0] == '&' && StartsWith(t, "&#x27;") then "'" + TextContent(t[6..])
    else if t[0] == '&' && StartsWith(t, "&#x2F;") then "/" + TextContent(t[6..])
    else [t[0]] + TextContent(t[1..])
  }

  lemma ContentOfChar(c: char, rest: string)
    ensures TextContent(EscapeOne(c) + rest) == [c] + TextContent(rest)
  {
    var e := EscapeOne(c);
    var t := e + rest;
    assert t[..|e|] == e;
    assert t[|e|..] == rest;
    assert |e| > 1 ==> t[1] == e[1];
    assert |e| > 4 ==> t[4] == e[4];
    if c == '&' {
      assert StartsWith(t, "&amp;");
    } else if c == '<' {
      assert !StartsWith(t, "&amp;") && StartsWith(t, "&lt;");
    } else if c == '>' {
      assert !StartsWith(t, "&amp;") && !StartsWith(t, "&lt;") && StartsWith(t, "&gt;");
    } else if c == '"' {
      assert !StartsWith(t, "&amp;") && !StartsWith(t, "&lt;") && !StartsWith(t, "&gt;");
      assert StartsWith(t, "&quot;");
    } else if c == '\'' {
      assert !StartsWith(t, "&amp;") && !StartsWith(t, "&lt;") && !StartsWith(t, "&gt;");
      assert !StartsWith(t, "&quot;") && StartsWith(t, "&#x27;");
    } else if c == '/' {
      assert !StartsWith(t, "&amp;") && !StartsWith(t, "&lt;") && !StartsWith(t, "&gt;");
      assert !StartsWith(t, "&quot;") && !StartsWith(t, "&#x27;") && StartsWith(t, "&#x2F;");
    }
  }

  lemma EscapeCons(s: string, rest: string)
    requires |s| > 0
    ensures Escape(s) + rest == EscapeOne(s[0]) + (Escape(s[1..]) + rest)
  {
  }

  lemma ConsRegroup(s: string, x: string)
    requires |s| > 0
    ensures [s[0]] + (s[1..] + x) == s + x
  {
    assert [s[0]] + s[1..] == s;
  }

  /** Escaped text followed by more markup shows as the original text followed
      by whatever the rest shows. */
  lemma {:induction false} ContentOfEscaped(s: string, rest: string)
    ensures TextContent(Escape(s) + rest) == s + TextContent(rest)
  {
    if |s| > 0 {
      EscapeCons(s, rest);
      ContentOfChar(s[0], Escape(s[1..]) + rest);
      ContentOfEscaped(s[1..], rest);
      ConsRegroup(s, TextContent(rest));
    } else {
      assert Escape(s) + rest == rest;
    }
  }

  /** The text a browser shows for `_.escape(s)` is `s` itself. */
  lemma EscapeRoundTrip(s: string)
    ensures TextContent(Escape(s)) == s
  {
    ContentOfEscaped(s, "");
    assert Escape(s) + "" == Escape(s);
  }

  /** A well-formed tag (no `>` before its end) shows nothing. */
  lemma {:induction false} ContentOfTag(body: string, rest: string)
    requires '>' !in body
    ensures TextContent("<" + body + ">" + rest) == TextContent(rest)
  {
    var t := "<" + body + ">" + rest;
    assert t[1..] == body + ">" + rest;
    AfterTagSkips(body, rest);
  }

  lemma {:induction false} AfterTagSkips(body: string, rest: string)
    requires '>' !in body
    ensures AfterTag(body + ">" + rest) == rest
  {
    if |body| > 0 {
      assert (body + ">" + rest)[1..] == body[1..] + ">" + rest;
      AfterTagSkips(body[1..], rest);
    } else {
      assert (body + ">" + rest)[1..] == rest;
    }
  }

  /** Text with no `<` and no `&` shows as itself. */
  lemma {:induction false} ContentOfPlain(s: string, rest: string)
    requires '<' !in s && '&' !in s
    ensures TextContent(s + rest) == s + TextContent(rest)
  {
    if |s| > 0 {
      assert (s + rest)[1..] == s[1..] + rest;
      ContentOfPlain(s[1..], rest);
      assert [s[0]] + s[1..] == s;
    } else {
      assert s + rest == rest;
    }
  }

  /** The closing tag `</name>`. */
  function EndTag(name: string): string
  {
    "</" + name + ">"
  }

  /** An element: the opening tag `<open>`, the body, the closing tag. */
  function Element(open: string, body: string, name: string): string
  {
    "<" + open + ">" + body + EndTag(name)
  }

  /** An element shows what its body shows: the opening and the closing tag
      (neither holding a `>` before its end) add nothing. */
  lemma ContentOfElement(open: string, body: string, x: string, name: string, rest: string)
    requires '>' !in open && '>' !in name
    requires TextContent(body + (EndTag(name) + rest)) == x + TextContent(EndTag(name) + rest)
    ensures TextContent(Element(open, body, name) + rest) == x + TextContent(rest)
  {
    var tail := EndTag(name) + rest;
    assert Element(open, body, name) + rest == "<" + open + ">" + (body + tail);
    ContentOfTag(open, body + tail);
    assert tail == "<" + ("/" + name) + ">" + rest;
    ContentOfTag("/" + name, rest);
  }
  lemma Regroup(a: string, b: string, c: string, d: string)
    ensures a + b + c + d == a + (b + (c + d))
  {
  }

  /** Plain text before and after a fragment shows around what it shows. */
  lemma ContentOfFramed(left: string, mid: string, x: string, right: string, rest: string)
    requires '<' !in left && '&' !in left && '<' !in right && '&' !in right
    requires TextContent(mid + (right + rest)) == x + TextContent(right + rest)
    ensures TextContent(left + mid + right + rest) == left + x + right + TextContent(rest)
  {
    Regroup(left, mid, right, rest);
    ContentOfPlain(left, mid + (right + rest));
    ContentOfPlain(right, rest);
  }

  /** Two fragments with plain text between them show what each shows, with
      that text between. */
  lemma ContentOfPair(a: string, x: string, sep: string, b: string, y: string, rest: string)
    requires '<' !in sep && '&' !in sep
    requires TextContent(a + (sep + (b + rest))) == x + TextContent(sep + (b + rest))
    requires TextContent(b + rest) == y + TextContent(rest)
    ensures TextContent(a + sep + b + rest) == x + sep + y + TextContent(rest)
  {
    Regroup(a, sep, b, rest);
    ContentOfPlain(sep, b + rest);
  }
}
