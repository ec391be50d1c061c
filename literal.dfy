/** The literal form of a value, `Moo.Value.generate`: the text a MOO
    programmer would type for it. Tagged scalars lose their tag, plain and
    `|str` strings become JSON string literals, lists print as `{a, b}` and
    maps as `[k -> v]`, either on one line or pretty-printed with two spaces
    of indentation per level. */
module Literal {
  import opened Wrappers
  import opened Text
  import opened Json
  import opened Values

  /** The second argument of `generate`: left out, `true`, or a string. */
  datatype IndentArg = Omitted | True | Indent(s: string)

  /** The layout `generate` chooses from that argument. */
  datatype Layout = Compact | Pretty(indent: string)

  function LayoutOf(a: IndentArg): (l: Layout)
    ensures a.Omitted? <==> l.Compact?
    ensures a.True? ==> l == Pretty("")
    ensures a.Indent? ==> l == Pretty(a.s)
  {
    match a
    case Omitted => Compact
    case True => Pretty("")
    case Indent(s) => Pretty(s)
  }

  /** The literal text of a string: tags other than `|str` are stripped and
      the rest is given unquoted; `|str` and untagged strings are quoted. */
  function StringLiteral(s: string): string
  {
    var c := Classify(s);
    match c.tag
    case Some(StrTag) => Quote(c.base)
    case None => Quote(c.base)
    case Some(_) => c.base
  }

  /** `Moo.Value.generate(v, indent)`; `None` stands for `undefined`. */
  function Generate(v: Value, indent: IndentArg): Option<string>
  {
    Render(v, LayoutOf(indent))
  }

  /** `generate` once the layout is known. */
  function Render(v: Value, l: Layout): (r: Option<string>)
    ensures r.None? <==> v.Null?
    decreases v
  {
    match v
    case Null => None
    case Num(n) => Some(NumText(n))
    case Str(s) => Some(StringLiteral(s))
    case List(items) =>
      (match l
       case Compact => Some("{" + Join(CompactItems(items), ", ") + "}")
       case Pretty(p) => Some("{\n" + Join(ListLines(items, p + "  "), ",\n") + "\n" + p + "}"))
    case Obj(f) =>
      match l
      case Compact => Some("[" + Join(MapEntries(f), ", ") + "]")
      case Pretty(p) => Some("[\n" + Join(MapLines(f, p + "  "), ",\n") + "\n" + p + "]")
  }

  /** `_.map(list, one)`: the elements of a one-line list. */
  function CompactItems(items: seq<Value>): (r: seq<string>)
    ensures |r| == |items|
    decreases items
  {
    if |items| == 0 then [] else [JoinItem(Render(items[0], Compact))] + CompactItems(items[1..])
  }

  /** `_.map(list, make_one(indent))`: the lines of a pretty list, each at
      indentation `n`. */
  function ListLines(items: seq<Value>, n: string): (r: seq<string>)
    ensures |r| == |items|
    decreases items
  {
    if |items| == 0 then [] else [n + Concat(Render(items[0], Pretty(n)))] + ListLines(items[1..], n)
  }

  /** `_.map(map, two)`: the `key -> value` entries of a one-line map. */
  function MapEntries(f: Fields): (r: seq<string>)
    ensures |r| == |f|
    decreases f
  {
    if |f| == 0 then [] else [MapEntry(f[0])] + MapEntries(f[1..])
  }

  /** `two(v, k)`. */
  function MapEntry(e: (string, Value)): string
    decreases e
  {
    StringLiteral(e.0) + " -> " + Concat(Render(e.1, Compact))
  }

  /** `_.map(map, make_two(indent))`: the lines of a pretty map, each at
      indentation `n`. */
  function MapLines(f: Fields, n: string): (r: seq<string>)
    ensures |r| == |f|
    decreases f
  {
    if |f| == 0 then [] else [MapLine(f[0], n)] + MapLines(f[1..], n)
  }

  /** `make_two(indent)(v, k)`. */
  function MapLine(e: (string, Value), n: string): string
    decreases e
  {
    n + StringLiteral(e.0) + " -> " + Concat(Render(e.1, Pretty(n)))
  }

  // ------------------------------------------------------------- scalars

  /** A tag other than `|str` is stripped and the text before it returned as
      is; a `|str`-tagged string becomes the JSON literal of its text. */
  lemma GenerateTagged(base: string, t: Tag, a: IndentArg)
    ensures Generate(Str(base + Suffix(t)), a) == Some(if t == StrTag then Quote(base) else base)
  {
    ClassifyTagged(base, t);
  }

  /** An untagged string becomes the JSON literal of the whole string. */
  lemma GenerateUntagged(s: string, a: IndentArg)
    requires forall t: Tag :: !HasSuffix(s, Suffix(t))
    ensures Generate(Str(s), a) == Some(Quote(s))
  {
    ClassifyUntagged(s);
  }

  /** The literal of a `|str`-tagged or untagged string reads back, as JSON, to
      the text it was made from; tags are never confused with text. */
  lemma StringLiteralReadsBack(s: string)
    requires Classify(s).tag in {None, Some(StrTag)}
    ensures Unquote(StringLiteral(s)) == Some(Classify(s).base)
  {
    QuoteRoundTrip(Classify(s).base);
  }

  /** A string that is itself an object number, tagged `|str`, prints as the
      quoted object number rather than as the object. */
  lemma GenerateStrTaggedObjectNumber(b: string, a: IndentArg)
    ensures Generate(Str(b + "|obj" + "|str"), a) == Some(Quote(b + "|obj"))
  {
    var t := b + "|obj";
    GenerateTagged(t, StrTag, a);
    assert t + Suffix(StrTag) == b + "|obj" + "|str";
  }

  /** So `"#0|obj|str"` gives `"\"#0|obj\""`. */
  lemma GenerateQuotedObjectNumberExample(b: string)
    requires b == "#0"
    ensures Generate(Str(b + "|obj|str"), Omitted) == Some("\"" + b + "|obj\"")
  {
    GenerateStrTaggedObjectNumber(b, Omitted);
    TagRegroup(b);
    PlainObjectNumber(b);
    QuotePlain(b + "|obj");
    QuoteRegroup(b);
  }

  lemma TagRegroup(b: string)
    ensures b + "|obj" + "|str" == b + "|obj|str"
  {
  }

  lemma QuoteRegroup(b: string)
    ensures "\"" + (b + "|obj") + "\"" == "\"" + b + "|obj\""
  {
  }

  lemma PlainObjectNumber(b: string)
    requires b == "#0"
    ensures Plain(b + "|obj")
  {
    assert b + "|obj" == "#0|obj";
  }

  /** A number prints as its decimal text, in every layout. */
  lemma GenerateNumber(n: int, a: IndentArg)
    ensures Generate(Num(n), a) == Some(NumText(n))
    ensures ParseNum(Generate(Num(n), a).value) == n
  {
    NumTextRoundTrip(n);
  }

  // ------------------------------------------------------------- containers

  /** Empty containers: `{}` and `[]` on one line; a pretty empty container
      has an empty line between its delimiters. */
  lemma GenerateEmpty(p: string)
    ensures Generate(List([]), Omitted) == Some("{}")
    ensures Generate(Obj([]), Omitted) == Some("[]")
    ensures Generate(List([]), Indent(p)) == Some("{\n\n" + p + "}")
    ensures Generate(Obj([]), Indent(p)) == Some("[\n\n" + p + "]")
  {
    assert Generate(List([]), Omitted).value == "{}";
    assert Generate(Obj([]), Omitted).value == "[]";
    assert Generate(List([]), Indent(p)).value == "{\n\n" + p + "}";
    assert Generate(Obj([]), Indent(p)).value == "[\n\n" + p + "]";
  }

  /** A one-line list: elements joined by `, ` inside braces, tags stripped
      and strings quoted; `{1, "a", #7}` for instance. */
  lemma GenerateCompactListExample(n: int, a: string, o: string)
    requires Plain(a) && Classify(a).tag.None?
    ensures Generate(List([Num(n), Str(a), Str(o + "|obj")]), Omitted)
         == Some("{" + NumText(n) + ", \"" + a + "\", " + o + "}")
  {
    CompactItems3(Num(n), Str(a), Str(o + "|obj"));
    PlainLiteral(a);
    ObjectLiteral(o);
    Join3(NumText(n), "\"" + a + "\"", o, ", ");
    CompactListText(NumText(n), a, o);
  }

  /** A null element of a one-line list is written as nothing. */
  lemma GenerateCompactNullExample(x: int, y: int)
    ensures Generate(List([Num(x), Null, Num(y)]), Omitted) == Some("{" + NumText(x) + ", , " + NumText(y) + "}")
  {
    CompactItems3(Num(x), Null, Num(y));
    Join3(NumText(x), "", NumText(y), ", ");
    CompactNullText(NumText(x), NumText(y));
  }

  /** A one-line map: `key -> value` entries in field order inside
      brackets; `["a" -> 1]` for instance. */
  lemma GenerateCompactMapExample(k: string, n: int)
    requires Plain(k) && Classify(k).tag.None?
    ensures Generate(Obj([(k, Num(n))]), Omitted) == Some("[\"" + k + "\" -> " + NumText(n) + "]")
  {
    PlainLiteral(k);
    MapEntries1((k, Num(n)));
    CompactMapText(k, NumText(n));
  }

  /** Pretty lists: each element on its own line two spaces in, lines
      joined by `,` and a line feed, the closing brace alone on the last line,
      a null element written `undefined`; `true` means an empty starting
      indent. */
  lemma GeneratePrettyListExample(x: int)
    ensures Generate(List([Num(x), Null]), True) == Some("{\n" + Join(["  " + NumText(x), "  undefined"], ",\n") + "\n}")
  {
    assert "" + "  " == "  ";
    ListLines2(Num(x), Null, "  ");
    assert "  " + "undefined" == "  undefined";
    PrettyListText(Join(["  " + NumText(x), "  undefined"], ",\n"));
  }

  /** Pretty maps: the same layout with `key -> value` lines in brackets. */
  lemma GeneratePrettyMapExample(k: string, n: int, p: string)
    requires Plain(k) && Classify(k).tag.None?
    ensures Generate(Obj([(k, Num(n))]), Indent(p)) == Some("[\n" + (p + "  \"" + k + "\" -> " + NumText(n)) + "\n" + p + "]")
  {
    PlainLiteral(k);
    MapLines1((k, Num(n)), p + "  ");
    PrettyMapText(p, k, NumText(n));
  }

  // The steps of the examples above.

  lemma PlainLiteral(a: string)
    requires Plain(a) && Classify(a).tag.None?
    ensures StringLiteral(a) == "\"" + a + "\""
  {
    QuotePlain(a);
  }

  lemma ObjectLiteral(o: string)
    ensures StringLiteral(o + "|obj") == o
  {
    ClassifyTagged(o, ObjTag);
  }

  lemma CompactItems3(x: Value, y: Value, z: Value)
    ensures CompactItems([x, y, z]) ==
      [JoinItem(Render(x, Compact)), JoinItem(Render(y, Compact)), JoinItem(Render(z, Compact))]
  {
    assert [z][1..] == [];
    assert CompactItems([z]) == [JoinItem(Render(z, Compact))];
    assert [y, z][1..] == [z];
    assert CompactItems([y, z]) == [JoinItem(Render(y, Compact)), JoinItem(Render(z, Compact))];
    assert [x, y, z][1..] == [y, z];
  }

  lemma ListLines2(x: Value, y: Value, n: string)
    ensures ListLines([x, y], n) ==
      [n + Concat(Render(x, Pretty(n))), n + Concat(Render(y, Pretty(n)))]
  {
    assert [x, y][1..] == [y];
    assert [y][1..] == [];
  }

  lemma MapEntries1(e: (string, Value))
    ensures MapEntries([e]) == [MapEntry(e)]
  {
    assert [e][1..] == [];
  }

  lemma MapLines1(e: (string, Value), n: string)
    ensures MapLines([e], n) == [MapLine(e, n)]
  {
    assert [e][1..] == [];
  }

  lemma Join3(a: string, b: string, c: string, sep: string)
    ensures Join([a, b, c], sep) == a + sep + (b + sep + c)
  {
    assert [b, c][1..] == [c];
    assert Join([b, c], sep) == b + sep + c;
    assert [a, b, c][1..] == [b, c];
  }

  lemma CompactListText(m: string, a: string, o: string)
    ensures "{" + (m + ", " + ("\"" + a + "\"" + ", " + o)) + "}" == "{" + m + ", \"" + a + "\", " + o + "}"
  {
    assert ", " + "\"" == ", \"";
    assert "\"" + ", " == "\", ";
  }

  lemma CompactNullText(m: string, o: string)
    ensures "{" + (m + ", " + ("" + ", " + o)) + "}" == "{" + m + ", , " + o + "}"
  {
    assert ", " + ", " == ", , ";
  }

  lemma CompactMapText(k: string, m: string)
    ensures "[" + ("\"" + k + "\"" + " -> " + m) + "]" == "[\"" + k + "\" -> " + m + "]"
  {
    assert "[" + "\"" == "[\"";
    assert "\"" + " -> " == "\" -> ";
  }

  lemma PrettyListText(j: string)
    ensures "{\n" + j + "\n" + "" + "}" == "{\n" + j + "\n}"
  {
    assert "\n" + "" + "}" == "\n}";
  }

  lemma PrettyMapText(p: string, k: string, m: string)
    ensures (p + "  ") + ("\"" + k + "\"") + " -> " + m == p + "  \"" + k + "\" -> " + m
  {
    assert "  " + "\"" == "  \"";
    assert "\"" + " -> " == "\" -> ";
  }

  // ------------------------------------------------------------- layout

  /** No string in the value, key or element, holds a line feed. */
  predicate NoLineFeeds(v: Value)
    decreases v
  {
    match v
    case Null => true
    case Num(_) => true
    case Str(s) => '\n' !in s
    case List(items) => forall j :: 0 <= j < |items| ==> NoLineFeeds(items[j])
    case Obj(f) => forall j :: 0 <= j < |f| ==> '\n' !in f[j].0 && NoLineFeeds(f[j].1)
  }

  /** The literal of a string is on one line when the string is: JSON escapes
      line feeds, and a stripped tag leaves a prefix of the string. */
  lemma StringLiteralOneLine(s: string)
    requires '\n' !in s
    ensures '\n' !in StringLiteral(s)
  {
    var c := Classify(s);
    if c.tag.Some? && c.tag != Some(StrTag) {
      assert s == c.base + Suffix(c.tag.value);
      assert forall ch :: ch in c.base ==> ch in s;
    }
  }

  lemma NumTextOneLine(n: int)
    ensures '\n' !in NumText(n)
  {
  }

  lemma CompactItemsAt(items: seq<Value>, j: int)
    requires 0 <= j < |items|
    ensures CompactItems(items)[j] == JoinItem(Render(items[j], Compact))
    decreases j
  {
    if j > 0 {
      CompactItemsAt(items[1..], j - 1);
    }
  }

  lemma MapEntriesAt(f: Fields, j: int)
    requires 0 <= j < |f|
    ensures MapEntries(f)[j] == MapEntry(f[j])
    decreases j
  {
    if j > 0 {
      MapEntriesAt(f[1..], j - 1);
    }
  }

  lemma ListLinesAt(items: seq<Value>, n: string, j: int)
    requires 0 <= j < |items|
    ensures ListLines(items, n)[j] == n + Concat(Render(items[j], Pretty(n)))
    decreases j
  {
    if j > 0 {
      ListLinesAt(items[1..], n, j - 1);
    }
  }

  lemma MapLinesAt(f: Fields, n: string, j: int)
    requires 0 <= j < |f|
    ensures MapLines(f, n)[j] == MapLine(f[j], n)
    decreases j
  {
    if j > 0 {
      MapLinesAt(f[1..], n, j - 1);
    }
  }

  /** The one-line form is one line: for a value whose strings hold no line
      feed, the compact literal holds none either. */
  lemma {:induction false} CompactIsOneLine(v: Value)
    requires NoLineFeeds(v)
    ensures '\n' !in Concat(Render(v, Compact))
    decreases v
  {
    match v
    case Null =>
    case Num(n) => NumTextOneLine(n);
    case Str(s) => StringLiteralOneLine(s);
    case List(items) =>
      var parts := CompactItems(items);
      forall j | 0 <= j < |parts| ensures '\n' !in parts[j] {
        CompactItemsAt(items, j);
        CompactIsOneLine(items[j]);
      }
      JoinNoLineFeed(parts, ", ");
    case Obj(f) =>
      var parts := MapEntries(f);
      forall j | 0 <= j < |parts| ensures '\n' !in parts[j] {
        MapEntriesAt(f, j);
        StringLiteralOneLine(f[j].0);
        CompactIsOneLine(f[j].1);
      }
      JoinNoLineFeed(parts, ", ");
  }

  /** A pretty literal never ends with a line feed. */
  lemma PrettyEnds(v: Value, p: string)
    requires NoLineFeeds(v)
    ensures var r := Concat(Render(v, Pretty(p))); |r| == 0 || r[|r| - 1] != '\n'
  {
    match v
    case Null =>
    case Num(n) => NumTextOneLine(n);
    case Str(s) => StringLiteralOneLine(s);
    case List(_) =>
    case Obj(_) =>
  }

  /** One line of a pretty container: a prefix on one line ending in a space,
      then a child literal. Reindenting it reindents the child only. */
  lemma LineShift(pre: string, c: string, i: string)
    requires |pre| > 0 && '\n' !in pre && pre[|pre| - 1] == ' '
    requires |c| == 0 || c[|c| - 1] != '\n'
    ensures Reindent(pre + c, i) == pre + Reindent(c, i)
    ensures Solid(pre + c)
  {
    ReindentAppend(pre, c, i);
    ReindentLine(pre, i);
    assert (pre + c)[0] == pre[0];
  }

  /** Reindenting the children of a container by `i` is pretty-printing them
      at indentation `i + n`. */
  predicate ChildrenShift(children: seq<Value>, n: string, i: string)
  {
    forall j :: 0 <= j < |children| ==>
      Concat(Render(children[j], Pretty(i + n))) == Reindent(Concat(Render(children[j], Pretty(n))), i)
  }

  lemma ListLineShift(items: seq<Value>, j: int, n: string, i: string)
    requires 0 <= j < |items| && NoLineFeeds(items[j])
    requires |n| > 0 && '\n' !in n && n[|n| - 1] == ' '
    requires Concat(Render(items[j], Pretty(i + n))) == Reindent(Concat(Render(items[j], Pretty(n))), i)
    ensures Solid(ListLines(items, n)[j])
    ensures ListLines(items, i + n)[j] == i + Reindent(ListLines(items, n)[j], i)
  {
    var c := Concat(Render(items[j], Pretty(n)));
    var c' := Concat(Render(items[j], Pretty(i + n)));
    ListLinesAt(items, n, j);
    ListLinesAt(items, i + n, j);
    PrettyEnds(items[j], n);
    LineShift(n, c, i);
    ConcatAssoc(i, n, c');
  }

  lemma MapLineShift(f: Fields, j: int, n: string, i: string)
    requires 0 <= j < |f| && '\n' !in f[j].0 && NoLineFeeds(f[j].1)
    requires |n| > 0 && '\n' !in n && n[|n| - 1] == ' '
    requires Concat(Render(f[j].1, Pretty(i + n))) == Reindent(Concat(Render(f[j].1, Pretty(n))), i)
    ensures Solid(MapLines(f, n)[j])
    ensures MapLines(f, i + n)[j] == i + Reindent(MapLines(f, n)[j], i)
  {
    var c := Concat(Render(f[j].1, Pretty(n)));
    var c' := Concat(Render(f[j].1, Pretty(i + n)));
    var k := StringLiteral(f[j].0);
    MapLinesAt(f, n, j);
    MapLinesAt(f, i + n, j);
    PrettyEnds(f[j].1, n);
    StringLiteralOneLine(f[j].0);
    var pre := n + k + " -> ";
    ArrowPrefix(n, k);
    LineShift(pre, c, i);
    LineRegroup(i, n, k, " -> ", c');
  }

  /** The pretty form of a list, with its delimiters as characters. */
  lemma PrettyListForm(items: seq<Value>, p: string)
    ensures Concat(Render(List(items), Pretty(p))) ==
      ['{'] + "\n" + Join(ListLines(items, p + "  "), ",\n") + "\n" + p + ['}']
  {
    assert "{\n" == ['{'] + "\n" && "}" == ['}'];
  }

  /** The pretty form of a map, with its delimiters as characters. */
  lemma PrettyMapForm(f: Fields, p: string)
    ensures Concat(Render(Obj(f), Pretty(p))) ==
      ['['] + "\n" + Join(MapLines(f, p + "  "), ",\n") + "\n" + p + [']']
  {
    assert "[\n" == ['['] + "\n" && "]" == [']'];
  }

  /** The indentation of the children: one line, ending in a space, and
      deeper by `i` when the container is. */
  lemma ChildIndent(p: string, i: string)
    requires '\n' !in p
    ensures var n := p + "  "; |n| > 0 && '\n' !in n && n[|n| - 1] == ' '
    ensures (i + p) + "  " == i + (p + "  ")
  {
  }

  /** Each line of a pretty list, shifted. */
  lemma ListLinesShift(items: seq<Value>, n: string, i: string)
    requires forall j :: 0 <= j < |items| ==> NoLineFeeds(items[j])
    requires |n| > 0 && '\n' !in n && n[|n| - 1] == ' '
    requires ChildrenShift(items, n, i)
    ensures forall j :: 0 <= j < |items| ==>
      Solid(ListLines(items, n)[j]) && ListLines(items, i + n)[j] == i + Reindent(ListLines(items, n)[j], i)
  {
    forall j | 0 <= j < |items|
      ensures Solid(ListLines(items, n)[j]) && ListLines(items, i + n)[j] == i + Reindent(ListLines(items, n)[j], i)
    {
      ListLineShift(items, j, n, i);
    }
  }

  /** Each line of a pretty map, shifted. */
  lemma MapLinesShift(f: Fields, n: string, i: string)
    requires forall j :: 0 <= j < |f| ==> '\n' !in f[j].0 && NoLineFeeds(f[j].1)
    requires |n| > 0 && '\n' !in n && n[|n| - 1] == ' '
    requires forall j :: 0 <= j < |f| ==>
      Concat(Render(f[j].1, Pretty(i + n))) == Reindent(Concat(Render(f[j].1, Pretty(n))), i)
    ensures forall j :: 0 <= j < |f| ==>
      Solid(MapLines(f, n)[j]) && MapLines(f, i + n)[j] == i + Reindent(MapLines(f, n)[j], i)
  {
    forall j | 0 <= j < |f|
      ensures Solid(MapLines(f, n)[j]) && MapLines(f, i + n)[j] == i + Reindent(MapLines(f, n)[j], i)
    {
      MapLineShift(f, j, n, i);
    }
  }

  /** The prefix of a pretty map line is one line ending in a space. */
  lemma ArrowPrefix(n: string, k: string)
    requires '\n' !in n && '\n' !in k
    ensures var pre := n + k + " -> "; |pre| > 0 && '\n' !in pre && pre[|pre| - 1] == ' '
  {
  }

  lemma ListShift(items: seq<Value>, p: string, i: string)
    requires forall j :: 0 <= j < |items| ==> NoLineFeeds(items[j])
    requires '\n' !in p && '\n' !in i
    requires ChildrenShift(items, p + "  ", i)
    ensures Concat(Render(List(items), Pretty(i + p))) == Reindent(Concat(Render(List(items), Pretty(p))), i)
  {
    var n := p + "  ";
    ChildIndent(p, i);
    ListLinesShift(items, n, i);
    BlockReindent('{', '}', ListLines(items, n), ListLines(items, i + n), p, i);
    PrettyListForm(items, p);
    PrettyListForm(items, i + p);
  }

  lemma MapShift(f: Fields, p: string, i: string)
    requires forall j :: 0 <= j < |f| ==> '\n' !in f[j].0 && NoLineFeeds(f[j].1)
    requires '\n' !in p && '\n' !in i
    requires forall j :: 0 <= j < |f| ==>
      Concat(Render(f[j].1, Pretty(i + (p + "  ")))) == Reindent(Concat(Render(f[j].1, Pretty(p + "  "))), i)
    ensures Concat(Render(Obj(f), Pretty(i + p))) == Reindent(Concat(Render(Obj(f), Pretty(p))), i)
  {
    var n := p + "  ";
    ChildIndent(p, i);
    MapLinesShift(f, n, i);
    BlockReindent('[', ']', MapLines(f, n), MapLines(f, i + n), p, i);
    PrettyMapForm(f, p);
    PrettyMapForm(f, i + p);
  }

  /** Pretty-printing at a deeper indentation gives the same text with every
      non-empty line after the first moved right by the extra indentation:
      children recurse with the deeper indent and nothing else changes. */
  lemma {:induction false} PrettyShift(v: Value, p: string, i: string)
    requires NoLineFeeds(v) && '\n' !in p && '\n' !in i
    ensures Concat(Render(v, Pretty(i + p))) == Reindent(Concat(Render(v, Pretty(p))), i)
    decreases v
  {
    match v
    case Null => ReindentLine("undefined", i);
    case Num(k) => NumTextOneLine(k); ReindentLine(NumText(k), i);
    case Str(s) => StringLiteralOneLine(s); ReindentLine(StringLiteral(s), i);
    case List(items) =>
      var n := p + "  ";
      forall j | 0 <= j < |items|
        ensures Concat(Render(items[j], Pretty(i + n))) == Reindent(Concat(Render(items[j], Pretty(n))), i)
      {
        PrettyShift(items[j], n, i);
      }
      ListShift(items, p, i);
    case Obj(f) =>
      var n := p + "  ";
      forall j | 0 <= j < |f|
        ensures Concat(Render(f[j].1, Pretty(i + n))) == Reindent(Concat(Render(f[j].1, Pretty(n))), i)
      {
        PrettyShift(f[j].1, n, i);
      }
      MapShift(f, p, i);
  }
}
