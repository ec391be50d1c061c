/** The HTML form of a value, in which the client shows values to the user:
    `Moo.formatHTML` in 0.0.4, and the `toHTML` methods that 0.0.2 and 0.0.0
    add to the built-in prototypes. Numbers and tagged scalars become spans (an
    object number becomes a link to the object's page), lists print as
    `{ a, b }` and maps as `[ k -> v ]`. The versions differ in how they quote
    plain strings and in what happens to a null inside a list or a map. */
module Markup {
  import opened Wrappers
  import opened Text
  import opened Html
  import opened Values

  /** How plain and `|str` strings are shown: as they are (0.0.4 and 0.0.2
      with `literal` false), as a literal with every quotation mark
      backslashed (0.0.4 and 0.0.2 with `literal` true, and every list
      element, map key and map value there), or between bare quotation marks
      (0.0.0, everywhere). */
  datatype Quoting = Bare | Backslash | Quoted

  /** The quoting of the `literal` argument of 0.0.4 and 0.0.2. */
  function LiteralQuoting(literal: bool): (q: Quoting)
    ensures q != Quoted
    ensures literal <==> q == Backslash
  {
    if literal then Backslash else Bare
  }

  /** The quoting of the elements, keys and values of a container. */
  function ChildQuoting(q: Quoting): (c: Quoting)
    ensures c != Bare
    ensures c == Quoted <==> q == Quoted
  {
    if q == Quoted then Quoted else Backslash
  }

  // ---------------------------------------------------------------- pieces

  /** `<span class="c">body</span>`. */
  function Span(c: string, body: string): string
  {
    Element("span class=\"" + c + "\"", body, "span")
  }

  /** The link to an object's page, with the object number `num`. */
  function ObjectLink(num: string, text: string): string
  {
    Element(LinkOpen(num), text, "a")
  }

  /** The opening tag of an object link, without its angle brackets. */
  function LinkOpen(num: string): string
  {
    "a rel=\"object\" data-object-number=\"" + num + "\" class=\"moo-obj\" href=\"/objects/" + num + "\""
  }

  /** An object number without `>` cannot end the link's opening tag early. */
  lemma LinkOpenIsOneTag(num: string)
    requires '>' !in num
    ensures '>' !in LinkOpen(num)
  {
    var p1, p2, p3 := "a rel=\"object\" data-object-number=\"", "\" class=\"moo-obj\" href=\"/objects/", "\"";
    assert '>' !in p1 && '>' !in p2 && '>' !in p3;
    assert LinkOpen(num) == p1 + num + p2 + num + p3;
  }

  /** `s.slice(1)`. */
  function Rest(s: string): (r: string)
    ensures |s| > 0 ==> r == s[1..]
    ensures |s| == 0 ==> r == ""
  {
    if |s| == 0 then "" else s[1..]
  }

  /** `s.replace(/"/gm, '\\"')`: a reverse solidus before every quotation mark. */
  function Backslashed(s: string): (r: string)
    ensures |r| == |s| + Count('"', s)
    ensures |r| > 0 ==> r[0] != '"'
  {
    if |s| == 0 then "" else (if s[0] == '"' then "\\\"" else [s[0]]) + Backslashed(s[1..])
  }

  /** Reading backslashed text back: a reverse solidus before a quotation
      mark is dropped, every other character kept. */
  function Unbackslashed(t: string): string
  {
    if |t| == 0 then ""
    else if |t| >= 2 && t[0] == '\\' && t[1] == '"' then "\"" + Unbackslashed(t[2..])
    else [t[0]] + Unbackslashed(t[1..])
  }

  /** Backslashing loses nothing, although it leaves reverse solidi as they
      are: the reverse solidus in front of a quotation mark is always one it
      added. */
  lemma {:induction false} UnbackslashRoundTrip(s: string)
    ensures Unbackslashed(Backslashed(s)) == s
  {
    if |s| > 0 {
      UnbackslashRoundTrip(s[1..]);
      var t := Backslashed(s);
      if s[0] == '"' {
        assert t[2..] == Backslashed(s[1..]);
      } else {
        assert t[1..] == Backslashed(s[1..]);
        assert |t| >= 2 ==> t[1] != '"';
      }
      assert [s[0]] + s[1..] == s;
    }
  }

  // ---------------------------------------------------------------- markup

  /** The markup of a string, shared by every version: the tag decides the
      element, `|obj` gives a link whose number is the text after its first
      character, and plain and `|str` text is quoted as `q` says. All text is
      escaped; 0.0.0 puts its bare quotation marks outside the escape. */
  function StringHtml(s: string, q: Quoting): string
  {
    var c := Classify(s);
    match c.tag
    case Some(ErrTag) => Span("moo-err", Escape(c.base))
    case Some(ObjTag) => ObjectLink(Escape(Rest(c.base)), Escape(c.base))
    case Some(IntTag) => Span("moo-num", Escape(c.base))
    case Some(FloatTag) => Span("moo-num", Escape(c.base))
    case _ =>
      (match q
       case Bare => Span("moo-str", Escape(c.base))
       case Backslash => Span("moo-str", Escape("\"" + Backslashed(c.base) + "\""))
       case Quoted => Span("moo-str", "\"" + Escape(c.base) + "\""))
  }

  /** `Moo.formatHTML(v, literal)` of 0.0.4 is `FormatHtml(v, LiteralQuoting(literal))`;
      with `Quoted` it is the same renderer with the quoting of 0.0.0. `None`
      is `undefined`, what it returns for a null: a null element joins as
      nothing and a null map value prints as `undefined`. */
  function FormatHtml(v: Value, q: Quoting): (r: Option<string>)
    ensures r.None? <==> v.Null?
    decreases v
  {
    match v
    case Null => None
    case Num(n) => Some(Span("moo-num", NumText(n)))
    case Str(s) => Some(StringHtml(s, q))
    case List(items) => Some(Span("moo-list", "{ " + Join(HtmlItems(items, ChildQuoting(q)), ", ") + " }"))
    case Obj(f) => Some(Span("moo-map", "[ " + Join(HtmlEntries(f, ChildQuoting(q)), ", ") + " ]"))
  }

  function HtmlItems(items: seq<Value>, q: Quoting): (r: seq<string>)
    ensures |r| == |items|
    decreases items
  {
    if |items| == 0 then [] else [JoinItem(FormatHtml(items[0], q))] + HtmlItems(items[1..], q)
  }

  function HtmlEntries(f: Fields, q: Quoting): (r: seq<string>)
    ensures |r| == |f|
    decreases f
  {
    if |f| == 0 then [] else [HtmlEntry(f[0], q)] + HtmlEntries(f[1..], q)
  }

  /** `formatHTML(k, true) + ' -> ' + formatHTML(v, true)`. */
  function HtmlEntry(e: (string, Value), q: Quoting): string
    decreases e
  {
    StringHtml(e.0, q) + " -> " + Concat(FormatHtml(e.1, q))
  }

  /** `v.toHTML()` of 0.0.2 (`q` from its `literal` argument) and of 0.0.0
      (`q` is `Quoted`): the same markup, but a null anywhere is a TypeError,
      since null has no `toHTML` method. */
  function ToHtml(v: Value, q: Quoting): (r: Result<string, Exception>)
    decreases v
  {
    match v
    case Null => Err(TypeError)
    case Num(n) => Ok(Span("moo-num", NumText(n)))
    case Str(s) => Ok(StringHtml(s, q))
    case List(items) =>
      (match ToHtmlItems(items, ChildQuoting(q))
       case Ok(parts) => Ok(Span("moo-list", "{ " + Join(parts, ", ") + " }"))
       case Err(e) => Err(e))
    case Obj(f) =>
      match ToHtmlEntries(f, ChildQuoting(q))
      case Ok(parts) => Ok(Span("moo-map", "[ " + Join(parts, ", ") + " ]"))
      case Err(e) => Err(e)
  }

  function ToHtmlItems(items: seq<Value>, q: Quoting): Result<seq<string>, Exception>
    decreases items
  {
    if |items| == 0 then Ok([])
    else
      match ToHtml(items[0], q)
      case Err(e) => Err(e)
      case Ok(h) =>
        match ToHtmlItems(items[1..], q)
        case Err(e) => Err(e)
        case Ok(t) => Ok([h] + t)
  }

  function ToHtmlEntries(f: Fields, q: Quoting): Result<seq<string>, Exception>
    decreases f
  {
    if |f| == 0 then Ok([])
    else
      match ToHtmlEntry(f[0], q)
      case Err(e) => Err(e)
      case Ok(h) =>
        match ToHtmlEntries(f[1..], q)
        case Err(e) => Err(e)
        case Ok(t) => Ok([h] + t)
  }

  /** `k.toHTML(true) + ' -> ' + v.toHTML(true)`. */
  function ToHtmlEntry(e: (string, Value), q: Quoting): Result<string, Exception>
    decreases e
  {
    match ToHtml(e.1, q)
    case Err(x) => Err(x)
    case Ok(h) => Ok(StringHtml(e.0, q) + " -> " + h)
  }

  // ------------------------------------------------------------- versions

  /** 0.0.2 renders what 0.0.4 renders, except that a null anywhere inside
      the value makes it throw. */
  lemma {:induction false} ToHtmlAgrees(v: Value, q: Quoting)
    ensures ToHtml(v, q) == if HasNull(v) then Err(TypeError) else Ok(FormatHtml(v, q).value)
    decreases v
  {
    match v
    case Null =>
    case Num(_) =>
    case Str(_) =>
    case List(items) =>
      ToHtmlItemsAgree(items, ChildQuoting(q));
    case Obj(f) =>
      ToHtmlEntriesAgree(f, ChildQuoting(q));
  }

  lemma {:induction false} ToHtmlItemsAgree(items: seq<Value>, q: Quoting)
    ensures ToHtmlItems(items, q)
      == if exists i :: 0 <= i < |items| && HasNull(items[i]) then Err(TypeError) else Ok(HtmlItems(items, q))
    decreases items
  {
    if |items| > 0 {
      ToHtmlAgrees(items[0], q);
      ToHtmlItemsAgree(items[1..], q);
      var tail := items[1..];
      assert (exists i :: 0 <= i < |items| && HasNull(items[i]))
        <==> HasNull(items[0]) || exists i :: 0 <= i < |tail| && HasNull(tail[i]) by {
        if exists i :: 0 <= i < |items| && HasNull(items[i]) {
          var i :| 0 <= i < |items| && HasNull(items[i]);
          if i > 0 {
            assert HasNull(tail[i - 1]);
          }
        }
        if exists i :: 0 <= i < |tail| && HasNull(tail[i]) {
          var i :| 0 <= i < |tail| && HasNull(tail[i]);
          assert HasNull(items[i + 1]);
        }
      }
    }
  }

  lemma {:induction false} ToHtmlEntriesAgree(f: Fields, q: Quoting)
    ensures ToHtmlEntries(f, q)
      == if exists i :: 0 <= i < |f| && HasNull(f[i].1) then Err(TypeError) else Ok(HtmlEntries(f, q))
    decreases f
  {
    if |f| > 0 {
      ToHtmlEntryAgrees(f[0], q);
      ToHtmlEntriesAgree(f[1..], q);
      var tail := f[1..];
      assert (exists i :: 0 <= i < |f| && HasNull(f[i].1))
        <==> HasNull(f[0].1) || exists i :: 0 <= i < |tail| && HasNull(tail[i].1) by {
        if exists i :: 0 <= i < |f| && HasNull(f[i].1) {
          var i :| 0 <= i < |f| && HasNull(f[i].1);
          if i > 0 {
            assert HasNull(tail[i - 1].1);
          }
        }
        if exists i :: 0 <= i < |tail| && HasNull(tail[i].1) {
          var i :| 0 <= i < |tail| && HasNull(tail[i].1);
          assert HasNull(f[i + 1].1);
        }
      }
    }
  }

  lemma {:induction false} ToHtmlEntryAgrees(e: (string, Value), q: Quoting)
    ensures ToHtmlEntry(e, q) == if HasNull(e.1) then Err(TypeError) else Ok(HtmlEntry(e, q))
    decreases e
  {
    ToHtmlAgrees(e.1, q);
  }

  // ------------------------------------------------------------ what shows

  /** Plain or `|str` text as `q` quotes it. */
  function QuotedText(b: string, q: Quoting): string
  {
    match q
    case Bare => b
    case Backslash => "\"" + Backslashed(b) + "\""
    case Quoted => "\"" + b + "\""
  }

  /** The text a reader sees for a string: the text before its tag, and for
      plain and `|str` strings that text quoted as `q` says. */
  function StringText(s: string, q: Quoting): string
  {
    var c := Classify(s);
    match c.tag
    case Some(StrTag) => QuotedText(c.base, q)
    case None => QuotedText(c.base, q)
    case Some(_) => c.base
  }

  /** The text a reader sees for a value, written out directly: numbers in
      decimal, `{ a, b }` for lists and `[ k -> v ]` for maps, undefined for
      a null (nothing as a list element, `undefined` as a map value). */
  function Shown(v: Value, q: Quoting): (r: Option<string>)
    decreases v
  {
    match v
    case Null => None
    case Num(n) => Some(NumText(n))
    case Str(s) => Some(StringText(s, q))
    case List(items) => Some("{ " + Join(ShownItems(items, ChildQuoting(q)), ", ") + " }")
    case Obj(f) => Some("[ " + Join(ShownEntries(f, ChildQuoting(q)), ", ") + " ]")
  }

  function ShownItems(items: seq<Value>, q: Quoting): (r: seq<string>)
    ensures |r| == |items|
    decreases items
  {
    if |items| == 0 then [] else [JoinItem(Shown(items[0], q))] + ShownItems(items[1..], q)
  }

  function ShownEntries(f: Fields, q: Quoting): (r: seq<string>)
    ensures |r| == |f|
    decreases f
  {
    if |f| == 0 then [] else [ShownEntry(f[0], q)] + ShownEntries(f[1..], q)
  }

  function ShownEntry(e: (string, Value), q: Quoting): string
    decreases e
  {
    StringText(e.0, q) + " -> " + Concat(Shown(e.1, q))
  }

  lemma SpanShows(c: string, body: string, x: string, rest: string)
    requires '>' !in c
    requires TextContent(body + (EndTag("span") + rest)) == x + TextContent(EndTag("span") + rest)
    ensures TextContent(Span(c, body) + rest) == x + TextContent(rest)
  {
    ContentOfElement("span class=\"" + c + "\"", body, x, "span", rest);
  }

  lemma EscapedSpanShows(c: string, t: string, rest: string)
    requires '>' !in c
    ensures TextContent(Span(c, Escape(t)) + rest) == t + TextContent(rest)
  {
    ContentOfEscaped(t, EndTag("span") + rest);
    SpanShows(c, Escape(t), t, rest);
  }

  lemma ObjectLinkShows(b: string, rest: string)
    ensures TextContent(ObjectLink(Escape(Rest(b)), Escape(b)) + rest) == b + TextContent(rest)
  {
    var num := Escape(Rest(b));
    LinkOpenIsOneTag(num);
    ContentOfEscaped(b, EndTag("a") + rest);
    ContentOfElement(LinkOpen(num), Escape(b), b, "a", rest);
  }

  /** A string's markup shows its text. */
  lemma StringShows(s: string, q: Quoting, rest: string)
    ensures TextContent(StringHtml(s, q) + rest) == StringText(s, q) + TextContent(rest)
  {
    var c := Classify(s);
    match c.tag
    case Some(ErrTag) => EscapedSpanShows("moo-err", c.base, rest);
    case Some(ObjTag) => ObjectLinkShows(c.base, rest);
    case Some(IntTag) => EscapedSpanShows("moo-num", c.base, rest);
    case Some(FloatTag) => EscapedSpanShows("moo-num", c.base, rest);
    case _ =>
      match q
      case Bare => EscapedSpanShows("moo-str", c.base, rest);
      case Backslash => EscapedSpanShows("moo-str", "\"" + Backslashed(c.base) + "\"", rest);
      case Quoted => QuotedSpanShows(c.base, rest);
  }

  /** The string span of 0.0.0, with its quotation marks outside the escape. */
  lemma QuotedSpanShows(b: string, rest: string)
    ensures TextContent(Span("moo-str", "\"" + Escape(b) + "\"") + rest) == "\"" + b + "\"" + TextContent(rest)
  {
    var tail := EndTag("span") + rest;
    ContentOfEscaped(b, "\"" + tail);
    ContentOfFramed("\"", Escape(b), b, "\"", tail);
    SpanShows("moo-str", "\"" + Escape(b) + "\"", "\"" + b + "\"", rest);
  }

  lemma NumberShows(n: int, rest: string)
    ensures TextContent(Span("moo-num", NumText(n)) + rest) == NumText(n) + TextContent(rest)
  {
    ContentOfPlain(NumText(n), EndTag("span") + rest);
    SpanShows("moo-num", NumText(n), NumText(n), rest);
  }

  /** What a browser shows for the markup of a value is the value's text:
      every tag is dropped and every character of the value's strings comes
      back from its escape. */
  lemma {:induction false} FormatHtmlShows(v: Value, q: Quoting, rest: string)
    requires !v.Null?
    ensures TextContent(FormatHtml(v, q).value + rest) == Shown(v, q).value + TextContent(rest)
    decreases v, 1
  {
    match v
    case Num(n) => NumberShows(n, rest);
    case Str(s) => StringShows(s, q, rest);
    case List(items) => ListShows(items, q, rest);
    case Obj(f) => MapShows(f, q, rest);
  }

  lemma ListShows(items: seq<Value>, q: Quoting, rest: string)
    ensures TextContent(FormatHtml(List(items), q).value + rest) == Shown(List(items), q).value + TextContent(rest)
    decreases List(items), 0
  {
    var cq := ChildQuoting(q);
    var j := Join(HtmlItems(items, cq), ", ");
    var x := Join(ShownItems(items, cq), ", ");
    assert FormatHtml(List(items), q).value == Span("moo-list", "{ " + j + " }");
    assert Shown(List(items), q).value == "{ " + x + " }";
    ItemsShow(items, cq, " }" + (EndTag("span") + rest));
    ListBrackets(j, x, rest);
  }

  lemma MapShows(f: Fields, q: Quoting, rest: string)
    ensures TextContent(FormatHtml(Obj(f), q).value + rest) == Shown(Obj(f), q).value + TextContent(rest)
    decreases Obj(f), 0
  {
    var cq := ChildQuoting(q);
    var j := Join(HtmlEntries(f, cq), ", ");
    var x := Join(ShownEntries(f, cq), ", ");
    assert FormatHtml(Obj(f), q).value == Span("moo-map", "[ " + j + " ]");
    assert Shown(Obj(f), q).value == "[ " + x + " ]";
    EntriesShow(f, cq, " ]" + (EndTag("span") + rest));
    MapBrackets(j, x, rest);
  }

  lemma ListBrackets(j: string, x: string, rest: string)
    requires TextContent(j + (" }" + (EndTag("span") + rest))) == x + TextContent(" }" + (EndTag("span") + rest))
    ensures TextContent(Span("moo-list", "{ " + j + " }") + rest) == "{ " + x + " }" + TextContent(rest)
  {
    BracketsShow("moo-list", "{ ", j, x, " }", rest);
  }

  lemma MapBrackets(j: string, x: string, rest: string)
    requires TextContent(j + (" ]" + (EndTag("span") + rest))) == x + TextContent(" ]" + (EndTag("span") + rest))
    ensures TextContent(Span("moo-map", "[ " + j + " ]") + rest) == "[ " + x + " ]" + TextContent(rest)
  {
    BracketsShow("moo-map", "[ ", j, x, " ]", rest);
  }

  /** A container span: its brackets show as they are, around its contents. */
  lemma BracketsShow(c: string, left: string, j: string, x: string, right: string, rest: string)
    requires '>' !in c
    requires '<' !in left && '&' !in left && '<' !in right && '&' !in right
    requires TextContent(j + (right + (EndTag("span") + rest))) == x + TextContent(right + (EndTag("span") + rest))
    ensures TextContent(Span(c, left + j + right) + rest) == left + x + right + TextContent(rest)
  {
    ContentOfFramed(left, j, x, right, EndTag("span") + rest);
    SpanShows(c, left + j + right, left + x + right, rest);
  }

  lemma {:induction false} ItemsShow(items: seq<Value>, q: Quoting, rest: string)
    ensures TextContent(Join(HtmlItems(items, q), ", ") + rest) == Join(ShownItems(items, q), ", ") + TextContent(rest)
    decreases items
  {
    if |items| == 0 {
      assert Join(HtmlItems(items, q), ", ") + rest == rest;
    } else {
      var h := HtmlItems(items, q);
      var j' := Join(h[1..], ", ");
      if |items| == 1 {
        ItemShows(items[0], q, rest);
      } else {
        ItemsShow(items[1..], q, rest);
        ItemShows(items[0], q, ", " + (j' + rest));
        ContentOfPair(h[0], JoinItem(Shown(items[0], q)), ", ", j', Join(ShownItems(items[1..], q), ", "), rest);
      }
    }
  }

  lemma ItemShows(c: Value, q: Quoting, rest: string)
    ensures TextContent(JoinItem(FormatHtml(c, q)) + rest) == JoinItem(Shown(c, q)) + TextContent(rest)
    decreases c, 2
  {
    if c.Null? {
      assert JoinItem(FormatHtml(c, q)) + rest == rest;
    } else {
      FormatHtmlShows(c, q, rest);
    }
  }

  lemma {:induction false} EntriesShow(f: Fields, q: Quoting, rest: string)
    ensures TextContent(Join(HtmlEntries(f, q), ", ") + rest) == Join(ShownEntries(f, q), ", ") + TextContent(rest)
    decreases f
  {
    if |f| == 0 {
      assert Join(HtmlEntries(f, q), ", ") + rest == rest;
    } else {
      var h := HtmlEntries(f, q);
      var j' := Join(h[1..], ", ");
      if |f| == 1 {
        EntryShows(f[0], q, rest);
      } else {
        EntriesShow(f[1..], q, rest);
        EntryShows(f[0], q, ", " + (j' + rest));
        ContentOfPair(h[0], ShownEntry(f[0], q), ", ", j', Join(ShownEntries(f[1..], q), ", "), rest);
      }
    }
  }

  lemma EntryShows(e: (string, Value), q: Quoting, rest: string)
    ensures TextContent(HtmlEntry(e, q) + rest) == ShownEntry(e, q) + TextContent(rest)
    decreases e
  {
    var c := Concat(FormatHtml(e.1, q));
    MapValueShows(e.1, q, rest);
    StringShows(e.0, q, " -> " + (c + rest));
    ContentOfPair(StringHtml(e.0, q), StringText(e.0, q), " -> ", c, Concat(Shown(e.1, q)), rest);
  }

  lemma MapValueShows(v: Value, q: Quoting, rest: string)
    ensures TextContent(Concat(FormatHtml(v, q)) + rest) == Concat(Shown(v, q)) + TextContent(rest)
    decreases v, 2
  {
    if v.Null? {
      ContentOfPlain("undefined", rest);
    } else {
      FormatHtmlShows(v, q, rest);
    }
  }

  // ------------------------------------------------------------ consequences

  /** `Moo.formatHTML(v, literal)` of 0.0.4 shows exactly the value's text. */
  lemma FormatHtmlText(v: Value, literal: bool)
    requires !v.Null?
    ensures TextContent(FormatHtml(v, LiteralQuoting(literal)).value) == Shown(v, LiteralQuoting(literal)).value
  {
    var q := LiteralQuoting(literal);
    FormatHtmlShows(v, q, "");
    assert FormatHtml(v, q).value + "" == FormatHtml(v, q).value;
  }

  /** `v.toHTML()` of 0.0.2 and 0.0.0 returns exactly when the value holds no
      null, and then shows the value's text. */
  lemma ToHtmlText(v: Value, q: Quoting)
    ensures ToHtml(v, q).Ok? <==> !HasNull(v)
    ensures ToHtml(v, q).Ok? ==> TextContent(ToHtml(v, q).value) == Shown(v, q).value
  {
    ToHtmlAgrees(v, q);
    if !HasNull(v) {
      FormatHtmlShows(v, q, "");
      assert FormatHtml(v, q).value + "" == FormatHtml(v, q).value;
    }
  }

  /** The `literal` argument only quotes a string at the top: a list or a map
      renders the same either way. */
  lemma ContainersIgnoreLiteral(v: Value)
    requires v.List? || v.Obj?
    ensures FormatHtml(v, Bare) == FormatHtml(v, Backslash)
    ensures ToHtml(v, Bare) == ToHtml(v, Backslash)
  {
  }

  /** Object numbers in the usual form `#n` become a link to `/objects/n`. */
  lemma ObjectNumberLink(n: int, q: Quoting)
    ensures FormatHtml(Str("#" + NumText(n) + "|obj"), q) == Some(ObjectLink(NumText(n), "#" + NumText(n)))
  {
    var d := NumText(n);
    var b := "#" + d;
    ClassifyTagged(b, ObjTag);
    ObjectHtml(b + Suffix(ObjTag), b, q);
    assert Rest(b) == d;
    EscapeDigits(d);
    HashDigits(d);
    EscapeDigits(b);
  }

  /** A string classified as an object number renders as its link. */
  lemma ObjectHtml(s: string, b: string, q: Quoting)
    requires Classify(s) == Tagged(Some(ObjTag), b)
    ensures StringHtml(s, q) == ObjectLink(Escape(Rest(b)), Escape(b))
  {
  }

  /** `#` before a number's text keeps it to number characters. */
  lemma HashDigits(d: string)
    requires forall i :: 0 <= i < |d| ==> d[i] == '-' || '0' <= d[i] <= '9'
    ensures forall i :: 0 <= i < |"#" + d| ==> ("#" + d)[i] == '#' || ("#" + d)[i] == '-' || '0' <= ("#" + d)[i] <= '9'
  {
  }

  lemma {:induction false} EscapeDigits(s: string)
    requires forall i :: 0 <= i < |s| ==> s[i] == '#' || s[i] == '-' || '0' <= s[i] <= '9'
    ensures Escape(s) == s
  {
    if |s| > 0 {
      EscapeDigits(s[1..]);
      assert [s[0]] + s[1..] == s;
    }
  }

  /** No string or key anywhere inside holds a quotation mark. */
  predicate NoQuoteMarks(v: Value)
    decreases v
  {
    match v
    case Null => true
    case Num(_) => true
    case Str(s) => '"' !in s
    case List(items) => forall i :: 0 <= i < |items| ==> NoQuoteMarks(items[i])
    case Obj(f) => forall i :: 0 <= i < |f| ==> '"' !in f[i].0 && NoQuoteMarks(f[i].1)
  }

  lemma {:induction false} BackslashedPlain(s: string)
    requires '"' !in s
    ensures Backslashed(s) == s
  {
    if |s| > 0 {
      BackslashedPlain(s[1..]);
      assert [s[0]] + s[1..] == s;
    }
  }

  /** Text without quotation marks shows the same in 0.0.0 as in 0.0.4 with
      `literal` set: backslashing has nothing to do and both quote it. */
  lemma StringTextQuotings(s: string)
    requires '"' !in s
    ensures StringText(s, Backslash) == StringText(s, Quoted)
  {
    var c := Classify(s);
    if c.tag.None? || c.tag == Some(StrTag) {
      assert forall i :: 0 <= i < |c.base| ==> c.base[i] == s[i];
      assert '"' !in c.base;
      BackslashedPlain(c.base);
    }
  }

  /** So the two versions show the same text for any value whose strings hold
      no quotation mark. */
  lemma {:induction false} ShownQuotings(v: Value)
    requires NoQuoteMarks(v)
    ensures Shown(v, Backslash) == Shown(v, Quoted)
    decreases v, 0
  {
    match v
    case Null =>
    case Num(_) =>
    case Str(s) => StringTextQuotings(s);
    case List(items) => ShownItemsQuotings(items);
    case Obj(f) => ShownEntriesQuotings(f);
  }

  lemma {:induction false} ShownItemsQuotings(items: seq<Value>)
    requires forall i :: 0 <= i < |items| ==> NoQuoteMarks(items[i])
    ensures ShownItems(items, Backslash) == ShownItems(items, Quoted)
    decreases items
  {
    if |items| > 0 {
      ShownQuotings(items[0]);
      ShownItemsQuotings(items[1..]);
    }
  }

  lemma {:induction false} ShownEntriesQuotings(f: Fields)
    requires forall i :: 0 <= i < |f| ==> '"' !in f[i].0 && NoQuoteMarks(f[i].1)
    ensures ShownEntries(f, Backslash) == ShownEntries(f, Quoted)
    decreases f
  {
    if |f| > 0 {
      ShownEntryQuotings(f[0]);
      ShownEntriesQuotings(f[1..]);
    }
  }

  lemma ShownEntryQuotings(e: (string, Value))
    requires '"' !in e.0 && NoQuoteMarks(e.1)
    ensures ShownEntry(e, Backslash) == ShownEntry(e, Quoted)
    decreases e
  {
    StringTextQuotings(e.0);
    ShownQuotings(e.1);
  }

  /** 0.0.0's `toHTML` and 0.0.4's `formatHTML(v, true)` show the same text
      for a value without nulls and without quotation marks. */
  lemma QuotedAgreesWithLiteral(v: Value)
    requires !HasNull(v) && NoQuoteMarks(v)
    ensures ToHtml(v, Quoted).Ok? && !v.Null?
    ensures TextContent(ToHtml(v, Quoted).value) == TextContent(FormatHtml(v, LiteralQuoting(true)).value)
  {
    ToHtmlText(v, Quoted);
    FormatHtmlText(v, true);
    ShownQuotings(v);
  }
}
