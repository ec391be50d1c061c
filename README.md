# MOO web client library, modelled in Dafny

This project models the core of the improvise MOO web client: the
JavaScript library `Moo` in its three releases, 0.0.4, 0.0.2 and 0.0.0.
The browser client uses it to show and edit objects of a MOO server.

## The data

- **Values.** A server value (`Values.Value`) is null, an integer, a
  string, a list or an object. An object is an ordered list of fields
  in the order they were added, which is the order JavaScript enumerates
  keys that are not array indices.
- **Type tags.** A string may end in one of the tags `|err`, `|obj`,
  `|int`, `|float` or `|str`. `Values.Classify` reads the tag with the
  library's `endsWith` chain.
- **Versions.** `Values.Version` names the three releases wherever their
  behaviour differs.

## The modules

- **Text, Json, Html.** String primitives: `indexOf`/`endsWith`,
  `split`/`join` and integer `toString`. JSON string quoting and
  Underscore's `_.escape`. Each comes with an inverse (`Json.Unquote`,
  `Html.TextContent`), so that round trips can be stated.
- **Kinds.** The value predicates (`Moo.isString`, `isObjectNumber`,
  `isError`, `isBinary`, `isValidPerms`, `isValidObj`, `isValidPrep`,
  `isValidCode`, `isValidObjectNumberArray`). Also the `validate`
  functions of `Moo.Attribute`, `Moo.Value`, `Moo.Property` and
  `Moo.Verb`, as a fold over an ordered list of checks that returns the
  first failing message.
- **Literal.** `Moo.Value.generate`, the literal form a MOO programmer
  types. It is compact or pretty-printed with two spaces per level, and
  is the same in 0.0.4 and 0.0.2.
- **Markup.** The HTML form:
  - `Moo.formatHTML` (0.0.4);
  - the prototype `toHTML` methods of 0.0.2, which backslash quotation
    marks in literals;
  - the prototype `toHTML` methods of 0.0.0, which always put strings in
    bare quotation marks.

  `Markup.Shown` is an independent description of the visible text. The
  lemmas prove that the markup's text content is that text.
- **Store.** `Moo.NestedModel`, a class whose `attributes` field holds
  the record:
  - `Get` and `Has` loop over a dotted path.
  - `SetAll` follows the source's steps. It copies the top level, walks
    a `top`/`last` cursor for each pair, creates `{}` for missing steps
    and installs the copy.
  - Each method is proved equal to a pure function (`Lookup`, `Present`,
    `SetResult`). The lemmas about those functions state the promised
    behaviour.
- **Collections.** `Moo.Collection`, a class over the sequence of its
  records:
  - `add` and `reset`, with the mapped transformation of attributes and
    values;
  - the synthetic id of properties and verbs;
  - `id_g`, the positional ids;
  - `to_map`, the id-keyed map that `toJSON` rebuilds;
  - the construction of each record as a model of the collection's
    `model` class, a `NestedModel`. Its constructor writes the record in
    with the model's own `set`, so a dotted key becomes a nested object,
    and in 0.0.2 and 0.0.0 `initialize` deletes `toHTML`.
- **Objects.** `Moo.Object`, a class holding four collections:
  - `parse` fills the collections, deletes them from the response, takes
    `Meta.id` and returns what is left; the constructor passes the
    object's own attributes, so they are what is left;
  - `toJSON` writes them back;
  - `validate` checks its eleven rules in order and returns the first
    failing message.

## Modelling choices

- Every JavaScript exception the modelled code can raise is modelled as
  an error result (`Values.Exception`). These are a `TypeError` from `in`
  on a primitive, and a property of `null`. Methods that hit one leave
  their object unchanged, except `Collections.Collection.Reset`: like
  Backbone's `reset`, it empties the collection before `add` throws, so
  on an error the collection is left empty.
- The two places where the code does something narrower than its
  surroundings suggest are modelled as written:
  - `set` does not replace an existing scalar on the path. Writing below
    a number or string at the last step is silently ignored. Earlier on
    the path it throws.
  - The synthetic id of `add` is the length of the batch, not of the
    collection.
- `toJSON` keeps the `id` field in the records of properties and verbs,
  as the code does in all three versions.

## Model

| member | source | states |
|---|---|---|
| Text.SearchFrom | files/public/js/moo-0.0.4.js:10-12 | the search returns the first position at or after the start where the text occurs, and -1 exactly when it occurs nowhere after it |
| Text.IndexOf | files/public/js/moo-0.0.4.js:11 | `s.indexOf(sub, from)`: the search from the start position clamped to the string |
| Text.EndsWith | files/public/js/moo-0.0.4.js:10-12 | `endsWith` (an `indexOf` from `length - suffix.length`, clamped at 0) holds exactly when the string ends with the suffix |
| Text.Split | files/public/js/moo-0.0.4.js:112-113 | `split('.')` yields at least one part, no part contains the separator, and joining the parts with it gives back the string |
| Text.SplitJoin | files/public/js/moo-0.0.4.js:112-113 | splitting the join of separator-free parts gives back exactly those parts |
| Text.Join | files/public/js/moo-0.0.4.js:49 | `parts.join(sep)`: the parts with the separator between each two, and "" for no parts |
| Text.NumTextRoundTrip | files/public/js/moo-0.0.4.js:235 | the decimal text of an integer reads back as that integer |
| Text.NumText | files/public/js/moo-0.0.4.js:18 | a number converted to text: a minus sign for a negative number, then its decimal digits |
| Text.JoinNoLineFeed | files/public/js/moo-0.0.4.js:229-234 | joining lines without line feeds with a separator without one gives a single line |
| Json.EscapeChar | files/public/js/moo-0.0.4.js:224-226 | the escape of one character has only printable characters, never starts with a quotation mark, and is the character itself exactly when it is one character long |
| Json.Quote | files/public/js/moo-0.0.4.js:224-226 | `JSON.stringify` of a string starts and ends with a quotation mark and contains no control character |
| Json.QuotePlain | files/public/js/moo-0.0.4.js:226 | a string without quotation marks, backslashes or control characters is quoted by surrounding it with quotation marks |
| Json.DecodeEscapeBody | files/public/js/moo-0.0.4.js:224-226 | decoding the escaped body, as section 7 of RFC 8259 reads it, gives back the string |
| Json.QuoteRoundTrip | files/public/js/moo-0.0.4.js:224-226 | reading back a quoted string gives the original string |
| Json.QuoteInjective | files/public/js/moo-0.0.4.js:224-226 | two strings with the same quoted form are equal |
| Json.Unquote | files/public/js/moo-0.0.4.js:224-226 | the string a JSON string literal denotes, decoded as section 7 of RFC 8259 reads it, or nothing when the text is not one |
| Html.Escape | files/public/js/moo-0.0.4.js:23 | `_.escape` output contains no `<`, `>`, `"` or `'` |
| Html.EscapeRoundTrip | files/public/js/moo-0.0.4.js:23 | the text content of an escaped string is the string |
| Html.ContentOfEscaped | files/public/js/moo-0.0.4.js:23 | escaped text followed by more markup shows the string, then the rest |
| Html.ContentOfTag | files/public/js/moo-0.0.4.js:18 | a tag contributes no visible text |
| Html.TextContent | files/public/js/moo-0.0.4.js:16-54 | what a browser shows for markup: tags dropped, the entities `_.escape` writes decoded, every other character as itself |
| Values.GetField | files/public/js/moo-0.0.4.js:118 | `k in obj ? obj[k] : undefined` finds a value exactly when the object has the key, and the value found is that field's |
| Values.PutField | files/public/js/moo-0.0.4.js:153 | `obj[k] = v` keeps every other field and the order of the keys, and adds an absent key after the others |
| Values.DeleteField | files/public/js/moo-0.0.2.js:145 | `delete obj[k]` leaves no field `k` and leaves an object without one unchanged |
| Values.GetPutSame | files/public/js/moo-0.0.4.js:153 | after `obj[k] = v`, `obj[k]` is `v` |
| Values.GetPutOther | files/public/js/moo-0.0.4.js:153 | `obj[k] = v` does not change any other key |
| Values.GetDeleteOther | files/public/js/moo-0.0.4.js:396 | `delete obj[k]` does not change any other key |
| Values.PutKeepsDistinct | files/public/js/moo-0.0.4.js:153 | an assignment keeps the keys of an object distinct |
| Values.DeleteKeepsDistinct | files/public/js/moo-0.0.4.js:464 | a deletion keeps the keys distinct and only removes fields |
| Values.DeleteAfterAppend | files/public/js/moo-0.0.4.js:463-464 | deleting a field that was just added gives back the object |
| Values.Classify | files/public/js/moo-0.0.4.js:22-46 | the suffix chain either finds no tag and keeps the whole text, or splits the string into a text and the tag it ends with |
| Values.ClassifyTagged | files/public/js/moo-0.0.4.js:215-224 | any text followed by a tag is classified as that tag with that text, so `#0|obj|str` is a `|str` string with text `#0|obj` |
| Values.ClassifyUntagged | files/public/js/moo-0.0.4.js:225-226 | a string counts as untagged exactly when it ends in none of the five tags |
| Values.EndsWithIsSuffix | files/public/js/moo-0.0.4.js:10-12 | the library's `endsWith` is the suffix test the tag chain uses |
| Values.ArrayMember | files/public/js/moo-0.0.4.js:118 | `k in array` holds exactly for `length` and the decimal indices below the length |
| Values.Member | files/public/js/moo-0.0.4.js:118 | `k in v` throws exactly when `v` is neither an object nor an array, and on an object it is the field lookup |
| Values.DigitsIndexKey | files/public/js/moo-0.0.4.js:118 | the decimal form of every index is an array key naming that index |
| Values.Concat | files/public/js/moo-0.0.4.js:52 | `+` on a result that may be undefined writes `undefined` for it |
| Values.JoinItem | files/public/js/moo-0.0.4.js:49 | `join` writes an undefined element as nothing |
| Kinds.KindOfString | files/public/js/moo-0.0.4.js:58-68 | a string is an object number exactly when its tag is `|obj`, and an error exactly when it is `|err`. It is a string in the sense of `isString` exactly when it is neither, and never both |
| Kinds.IsString | files/public/js/moo-0.0.4.js:58-60 | `isString`: a string ending in neither `|obj` nor `|err` |
| Kinds.IsObjectNumber | files/public/js/moo-0.0.4.js:62-64 | `isObjectNumber`: a string ending in `|obj` |
| Kinds.IsError | files/public/js/moo-0.0.4.js:66-68 | `isError`: a string ending in `|err` |
| Kinds.IsBinary | files/public/js/moo-0.0.4.js:70-72 | `isBinary`: the number 0 or the number 1 |
| Kinds.IsValidPerms | files/public/js/moo-0.0.4.js:74-76 | `isValidPerms(v, set)`: a string made only of characters of the set |
| Kinds.IsValidObj | files/public/js/moo-0.0.4.js:78-80 | `isValidObj`: one of `this`, `none`, `any` |
| Kinds.IsValidPrep | files/public/js/moo-0.0.4.js:82-88 | `isValidPrep`: one of the thirty prepositions, in the library's list |
| Kinds.IsValidCode | files/public/js/moo-0.0.4.js:90-92 | `isValidCode`: an array all of whose elements pass `isString` |
| Kinds.IsValidObjectNumberArray | files/public/js/moo-0.0.4.js:94-96 | `isValidObjectNumberArray`: an array all of whose elements are object numbers |
| Kinds.CheckVerdict | files/public/js/moo-0.0.4.js:245-246 | one `if (... 'k' in body && !test(body.k)) return message` line: throws when `in` does, passes without the key, else the test decides |
| Kinds.ValidateAttribute | files/public/js/moo-0.0.4.js:162-165 | `Moo.Attribute.validate`: a `Value` that is a number or a string is `invalid attribute` |
| Kinds.ValidateValue | files/public/js/moo-0.0.4.js:170-175 | `Moo.Value.validate`: the root test, then `clear` must be 0 or 1 |
| Kinds.ValidateProperty | files/public/js/moo-0.0.4.js:242-251 | `Moo.Property.validate`: the root test, then `name`, `owner` and `perms` in that order |
| Kinds.ValidateVerb | files/public/js/moo-0.0.4.js:268-285 | `Moo.Verb.validate`: the root test, then `names`, `owner`, `perms`, `dobj`, `prep`, `iobj` and `code` in that order |
| Kinds.TaggedKinds | files/public/js/moo-0.0.4.js:58-68 | every text with `|obj` is an object number and with `|err` is an error, while with `|str` or `|int` it is a string |
| Kinds.OneTag | files/public/js/moo-0.0.4.js:58-68 | a string ends in at most one of two distinct tags of the same length |
| Kinds.PermsMonotone | files/public/js/moo-0.0.4.js:74-76 | `isValidPerms` accepts the empty string and stays true when the allowed set grows |
| Kinds.PropertyAndVerbPerms | files/public/js/moo-0.0.4.js:249-250 | property perms without `c` are valid verb perms, and any perms with `c` are not valid verb perms |
| Kinds.ArraysGrow | files/public/js/moo-0.0.4.js:90-96 | the empty array is valid code and a valid object-number array, and appending an element keeps validity exactly when the element passes the element test |
| Kinds.RunChecks | files/public/js/moo-0.0.4.js:242-251 | a chain of checks returns `Valid` or the verdict of one of its checks |
| Kinds.ChecksWellFormed | files/public/js/moo-0.0.4.js:249-250 | the perms sets `rwc` and `rwxd` are literal character classes, so the regular expression means membership |
| Kinds.FirstFailureDecides | files/public/js/moo-0.0.4.js:268-285 | `validate` returns the verdict of the first check that does not pass |
| Kinds.AllChecksPass | files/public/js/moo-0.0.4.js:268-285 | the checks pass exactly when every single check passes |
| Kinds.BodyOfValidFields | files/public/js/moo-0.0.4.js:242-251 | a body whose present fields all pass their tests is valid |
| Kinds.OddBodies | files/public/js/moo-0.0.4.js:170-174 | a null body throws at the first `in`, and an array body without index-named keys passes |
| Kinds.VerbFirstFailure | files/public/js/moo-0.0.4.js:268-285 | `Moo.Verb.validate` returns the message of the first present field that fails its test |
| Kinds.SingleFieldFails | files/public/js/moo-0.0.4.js:242-251 | a body holding only one failing field gets that field's message |
| Kinds.NumberFailsAll | files/public/js/moo-0.0.4.js:56-97 | a number other than 0 and 1 passes none of the tests |
| Kinds.NoBarInNames | files/public/js/moo-0.0.4.js:78-88 | no preposition or object specifier contains `|` |
| Kinds.ErrorFailsAll | files/public/js/moo-0.0.4.js:56-97 | an error string passes none of the tests |
| Kinds.RecordChecksDistinct | files/public/js/moo-0.0.4.js:170-285 | no record validator checks the same field twice |
| Kinds.RecordRejections | files/public/spec/MooSpec.js:107-112 | a non-object `Value`, `Property` or `Verb` is rejected with the bare message, and a body holding a number or an error in any checked field gets that field's message |
| Literal.LayoutOf | files/public/js/moo-0.0.4.js:206-211 | leaving out the indent gives the compact layout, `true` gives pretty printing from column 0, and a string gives pretty printing at that indent |
| Literal.Render | files/public/js/moo-0.0.4.js:206-238 | `generate` returns undefined exactly for null |
| Literal.Generate | files/public/js/moo-0.0.4.js:206-238 | `generate(v, indent)`: the layout chosen from `indent`, then the rendering |
| Literal.StringLiteral | files/public/js/moo-0.0.4.js:213-226 | a string without `|str` but with another tag prints its text bare; a `|str` or untagged string prints as a JSON literal |
| Literal.GenerateTagged | files/public/js/moo-0.0.4.js:213-224 | an `|err`, `|obj`, `|int` or `|float` string prints as its text without the tag, and a `|str` string as the JSON literal of its text |
| Literal.GenerateUntagged | files/public/js/moo-0.0.4.js:225-226 | an untagged string prints as its JSON literal |
| Literal.StringLiteralReadsBack | files/public/js/moo-0.0.4.js:223-226 | the literal of an untagged or `|str` string reads back as its text |
| Literal.GenerateStrTaggedObjectNumber | files/public/js/moo-0.0.4.js:223-224 | an object number tagged `|str` prints as the quoted object number |
| Literal.GenerateQuotedObjectNumberExample | files/public/js/moo-0.0.4.js:223-224 | `#0|obj|str` prints as `"#0|obj"` |
| Literal.GenerateNumber | files/public/js/moo-0.0.4.js:235 | a number prints as its decimal text, which reads back as the number |
| Literal.GenerateEmpty | files/public/js/moo-0.0.4.js:227-234 | empty containers print as `{}` and `[]`, and pretty-printed ones as an empty line closed at the indent |
| Literal.GenerateCompactListExample | files/public/js/moo-0.0.4.js:229-230 | a compact list prints its elements joined by `, ` inside braces |
| Literal.GenerateCompactNullExample | files/public/js/moo-0.0.4.js:190-192 | a null element of a compact list prints as nothing between its commas |
| Literal.GenerateCompactMapExample | files/public/js/moo-0.0.4.js:198-200 | a compact map prints `[key -> value]` with the key as a literal |
| Literal.GeneratePrettyListExample | files/public/js/moo-0.0.4.js:194-196 | pretty list elements are on their own lines, indented two spaces and joined by `,\n`. A null element prints `undefined` |
| Literal.GeneratePrettyMapExample | files/public/js/moo-0.0.4.js:202-204 | a pretty map entry is on its own line at the deeper indent, and the closing bracket is alone at the outer indent |
| Literal.CompactIsOneLine | files/public/js/moo-0.0.4.js:229-234 | the compact form of a value without line feeds is a single line |
| Literal.PrettyEnds | files/public/js/moo-0.0.4.js:227-232 | the pretty form never ends in a line feed |
| Literal.ListShift | files/public/js/moo-0.0.4.js:194-196 | a pretty list printed at a deeper indent is the same list with each line shifted by that indent |
| Literal.MapShift | files/public/js/moo-0.0.4.js:202-204 | the same for a pretty map |
| Literal.PrettyShift | files/public/js/moo-0.0.4.js:206-238 | pretty printing at indent `i + p` is pretty printing at `p` with every line after the first shifted by `i`, so children really print with the deeper indent |
| Markup.LiteralQuoting | files/public/js/moo-0.0.4.js:41-45 | the `literal` flag selects backslash quoting, and its absence selects bare text |
| Markup.ChildQuoting | files/public/js/moo-0.0.4.js:48-53 | container children are always quoted: with backslashes in 0.0.4 and 0.0.2, with bare quotation marks in 0.0.0 |
| Markup.Rest | files/public/js/moo-0.0.4.js:28 | `slice(1)` drops the first character, and an empty string stays empty |
| Markup.Backslashed | files/public/js/moo-0.0.4.js:41 | `replace(/"/gm, '\\"')` adds one character per quotation mark and never leaves a quotation mark first |
| Markup.UnbackslashRoundTrip | files/public/js/moo-0.0.4.js:41 | the backslashing is undone by removing the added backslashes |
| Markup.FormatHtml | files/public/js/moo-0.0.4.js:16-54 | `formatHTML` returns undefined exactly for null |
| Markup.StringHtml | files/public/js/moo-0.0.4.js:20-46 | the markup of a string by its tag: error span, object link, number span, or a string span quoted as `literal` says |
| Markup.ToHtml | files/public/js/moo-0.0.2.js:15-54 | the prototype `toHTML` of 0.0.2, and of 0.0.0 with `Quoted`: `formatHTML`'s markup, but a TypeError on a null anywhere |
| Markup.ToHtmlAgrees | files/public/js/moo-0.0.2.js:15-54 | the prototype renderers give the `formatHTML` markup, and throw exactly when the value holds a null (`null.toHTML`) |
| Markup.ToHtmlItemsAgree | files/public/js/moo-0.0.2.js:48-50 | the elements of a list render like `formatHTML`'s, unless one holds a null |
| Markup.ToHtmlEntriesAgree | files/public/js/moo-0.0.2.js:52-54 | the same for the entries of a map |
| Markup.ToHtmlEntryAgrees | files/public/js/moo-0.0.2.js:52-54 | the same for one entry |
| Markup.EscapedSpanShows | files/public/js/moo-0.0.4.js:22-24 | an error span shows its escaped text |
| Markup.ObjectLinkShows | files/public/js/moo-0.0.4.js:26-29 | an object link shows the object number, whatever its escaped attributes hold |
| Markup.NumberShows | files/public/js/moo-0.0.4.js:17-18 | a number span shows the decimal text |
| Markup.StringShows | files/public/js/moo-0.0.4.js:39-46 | a plain or `|str` string shows as its text, either backslash-quoted or in bare quotation marks, as the quoting says |
| Markup.QuotedSpanShows | files/public/js/moo-0.0.0.js:38-45 | a 0.0.0 string span shows its text between quotation marks |
| Markup.FormatHtmlShows | files/public/js/moo-0.0.4.js:16-54 | the text content of the markup of any non-null value is its description in `Shown` |
| Markup.ItemsShow | files/public/js/moo-0.0.4.js:49 | list elements joined by `, ` show their descriptions joined the same way |
| Markup.EntriesShow | files/public/js/moo-0.0.4.js:52 | map entries show as `key -> value` descriptions joined by `, ` |
| Markup.FormatHtmlText | files/public/js/moo-0.0.4.js:16-54 | for either value of `literal`, the visible text of `formatHTML` is `Shown` |
| Markup.ToHtmlText | files/public/js/moo-0.0.0.js:15-54 | a prototype renderer succeeds exactly when the value holds no null, and then shows `Shown` |
| Markup.ContainersIgnoreLiteral | files/public/js/moo-0.0.4.js:48-53 | lists and maps render the same whatever `literal` is |
| Markup.ObjectNumberLink | files/public/js/moo-0.0.4.js:26-29 | `#n|obj` links to `/objects/n` and is labelled `#n` |
| Markup.EscapeDigits | files/public/js/moo-0.0.4.js:27-28 | escaping leaves object numbers unchanged |
| Markup.BackslashedPlain | files/public/js/moo-0.0.4.js:41 | a string without quotation marks is not changed by the backslashing |
| Markup.StringTextQuotings | files/public/js/moo-0.0.0.js:38-45 | without inner quotation marks, 0.0.0's quoting shows the same text as the literal quoting of the later versions |
| Markup.ShownQuotings | files/public/js/moo-0.0.0.js:15-54 | the same for a whole value without quotation marks |
| Markup.QuotedAgreesWithLiteral | files/public/js/moo-0.0.0.js:19-54 | for a value without nulls or quotation marks, 0.0.0's `toHTML` shows the same text as 0.0.4's `formatHTML(v, true)` |
| Store.Walk | files/public/js/moo-0.0.4.js:117-119 | the walk of `get` returns the root for an empty path, and stays undefined once the value is undefined or null |
| Store.Present | files/public/js/moo-0.0.4.js:104-107 | `has` throws exactly when `get` throws, and holds exactly when `get` returns a value other than null |
| Store.Lookup | files/public/js/moo-0.0.4.js:109-122 | `get(attr)`: the top-level field named by the first segment, then the walk through the others |
| Store.Constructed | files/public/js/moo-0.0.2.js:101-105 | the constructor fails exactly when its `set` fails, and in 0.0.2 and 0.0.0 leaves no `toHTML` key |
| Store.Place | files/public/js/moo-0.0.4.js:143-153 | the cursor walk of one pair: missing steps become `{}`, objects are entered, `top[last] = value` at the end; a scalar as the last `top` ignores the write, null or an earlier scalar throws |
| Store.Assign | files/public/js/moo-0.0.4.js:140-153 | one `path -> value` pair: split the path and walk from the root |
| Store.ApplyAll | files/public/js/moo-0.0.4.js:140-154 | `_.each(attrs, ...)`: the pairs in order, the first failure aborting the whole `set` |
| Store.SetResult | files/public/js/moo-0.0.2.js:138-161 | the copy `set` installs; 0.0.2 deletes `toHTML` from it before writing the pairs |
| Store.NestedModel.Create | files/public/js/moo-0.0.2.js:99-105 | `new NestedModel(attrs)` holds the attributes the constructor's `set` and `initialize` produce, or fails with their error |
| Store.NestedModel.Get | files/public/js/moo-0.0.4.js:109-122 | the loop of `get` computes the dotted-path lookup |
| Store.NestedModel.Has | files/public/js/moo-0.0.4.js:104-107 | `has` computes `Present` |
| Store.NestedModel.Set | files/public/js/moo-0.0.4.js:124-134 | `set(key, value)` is `set({key: value})` |
| Store.NestedModel.SetAll | files/public/js/moo-0.0.4.js:124-157 | the attributes become the result of applying all pairs to a copy, with `toHTML` deleted first in 0.0.2. On an error they stay as they were, and the keys stay distinct |
| Store.NestedModel.Copy | files/public/js/moo-0.0.4.js:135-138 | the `_.inject` loop copies every top-level field |
| Store.NestedModel.WriteOne | files/public/js/moo-0.0.4.js:140-154 | the cursor walk and final assignment of one pair compute `Assign` and keep the keys distinct |
| Store.NestedModel.Climb | files/public/js/moo-0.0.4.js:153 | the assignment at the cursor shows through every enclosing object: rebuilding the objects passed on the way down gives what `Rebuild` describes |
| Store.PlaceKeepsDistinct | files/public/js/moo-0.0.4.js:146-153 | writing one path keeps the keys of every object distinct |
| Store.ApplyAllKeepsDistinct | files/public/js/moo-0.0.4.js:140-154 | applying all pairs keeps the keys distinct |
| Store.ApplyAllAppend | files/public/js/moo-0.0.4.js:140-154 | applying two lists of pairs is applying the first, then the second |
| Store.PlaceThenWalk | files/public/js/moo-0.0.4.js:146-153 | along a writable path, writing a value and walking back down finds it |
| Store.SetThenGet | files/public/js/moo-0.0.4.js:104-157 | after `set(path, v)` on a writable path, `get(path)` is `v` |
| Store.PutExisting | files/public/js/moo-0.0.4.js:147-149 | re-assigning a field its own value changes nothing |
| Store.BlockedPlaceIgnored | files/public/js/moo-0.0.4.js:147-153 | a write that does not fail and whose path is blocked by a number or a string leaves the object unchanged |
| Store.EmptyWritable | files/public/js/moo-0.0.4.js:147-148 | every path is writable in an empty object, because the missing steps are created |
| Store.SetKeepsOtherFields | files/public/js/moo-0.0.4.js:135-157 | `set` leaves every top-level field not named by the path unchanged |
| Store.SetKeepsOtherPaths | files/public/js/moo-0.0.4.js:135-157 | `get` of a path under another top-level key is unchanged by `set` |
| Store.PlaceKeepsOtherField | files/public/js/moo-0.0.4.js:143-153 | the cursor walk writes only the field it starts at: every other field of that object is unchanged |
| Store.PlaceKeepsDivergent | files/public/js/moo-0.0.4.js:143-153 | a path that parts from the written one, at any depth, walks to what it found before |
| Store.SetKeepsDivergentPaths | files/public/js/moo-0.0.4.js:140-153 | `get` of a path that parts from the written one is unchanged, so writing `foo.baz` keeps `foo.bar` |
| Store.ApplyAllKeepsOtherFields | files/public/js/moo-0.0.4.js:140-154 | a whole `set` leaves every top-level field that no path names unchanged |
| Store.ApplyAllKeepsDivergentPaths | files/public/js/moo-0.0.4.js:140-154 | a whole `set` leaves `get` of every path that parts from all the written paths unchanged |
| Store.SetResultKeepsOtherFields | files/public/js/moo-0.0.2.js:138-161 | in every release `set` keeps a top-level field no path names, except `toHTML` in 0.0.2 |
| Store.SetLeavesNoToHtml | files/public/js/moo-0.0.2.js:143-145 | after a 0.0.2 `set` whose paths do not start at `toHTML`, the attributes hold no `toHTML` key |
| Store.SplitPath | files/public/js/moo-0.0.4.js:112 | a dotted path made of dot-free keys splits back into those keys |
| Store.OverlappingSet | files/public/spec/MooSpec.js:30-35 | constructing with `foo.bar` and `foo.baz` gives `{foo: {bar, baz}}` in every version |
| Store.DoublyNestedConstructor | files/public/spec/MooSpec.js:23-28 | constructing with `foo.bar.baz` and `one.two.three` gives the doubly nested objects |
| Store.GetThroughString | files/public/js/moo-0.0.4.js:118 | `get` through a string throws a `TypeError` |
| Store.OverlappingGet | files/public/spec/MooSpec.js:86-91 | `get` of `foo.bar` and `foo.baz` finds both overlapping values |
| Collections.Keyed | files/public/js/moo-0.0.4.js:311-314 | `v.id = k` gives a record exactly when `v` is an object, and throws on null |
| Collections.KeyedAll | files/public/js/moo-0.0.4.js:311-314 | the mapped transformation gives one record per key, in order, each the body with `id` set to the key, and succeeds exactly when every body is an object |
| Collections.Objs | files/public/js/moo-0.0.4.js:322 | the records as objects, one for one |
| Collections.AddOne | files/public/js/moo-0.0.4.js:307-321 | one payload of `add`: an object with an `id` (or any object in 0.0.0) as it is, the mapped transform in attributes and values, the batch length as `id` in properties and verbs; `'id' in` throws on a number, string or null |
| Collections.AddAll | files/public/js/moo-0.0.4.js:307-322 | the records of every payload of the batch, flattened, or the first error |
| Collections.AddBatch | files/public/js/moo-0.0.4.js:303 | an array is the batch, anything else a batch of one |
| Collections.ResetBatch | files/public/js/moo-0.0.4.js:397 | `reset` with a falsy argument (undefined, null, 0, "") adds nothing |
| Collections.IdRecords | files/public/js/moo-0.0.4.js:389-393 | `_.reduce(payload, id_g, [])`: a map's bodies with their keys as ids, an array's elements with their positions; undefined, null, a number and "" give none |
| Collections.KeyText | files/public/js/moo-0.0.4.js:463 | the property name `a[v.id]` makes of an `id`: the string itself, a number's decimal text, `null`, `undefined` |
| Collections.ToMap | files/public/js/moo-0.0.4.js:462-469 | `_.reduce(records, to_map, {})`: each record under its id's name with `id` deleted, a later one overwriting an earlier one |
| Collections.Indexed | files/public/js/moo-0.0.4.js:389-393 | `id_g` over an array gives each element its position as `id` |
| Collections.Collection.Add | files/public/js/moo-0.0.4.js:302-325 | `add` appends the attributes of the models it builds from the batch, or changes nothing on an error |
| Collections.Collection.Reset | files/public/js/moo-0.0.4.js:397 | `reset` replaces the records with the attributes of the models it builds from the batch, where a falsy batch is empty |
| Collections.Collection.Build | files/public/js/moo-0.0.4.js:303-322 | the payload records of the batch, each then constructed as a model, compute `Added` |
| Collections.Collection.Payloads | files/public/js/moo-0.0.4.js:303-322 | the loop over the batch computes the payload records `AddAll` describes |
| Collections.Collection.ConstructAll | files/public/js/moo-0.0.4.js:328-341 | the loop building one model per record computes `Built`, stopping at the first constructor that throws |
| Collections.Built | files/public/js/moo-0.0.4.js:328-341 | the models' attributes exist exactly when every record's constructor succeeds, one per record, each the attributes that record's constructor gives |
| Collections.Added | files/public/js/moo-0.0.4.js:302-341 | `add(batch)`: the payload records, then one model per record |
| Collections.BuiltPlain | files/public/js/moo-0.0.2.js:99-105 | records with distinct, dot-free keys (and no `toHTML` in 0.0.2 and 0.0.0) are stored as they are |
| Collections.KeyedPlain | files/public/js/moo-0.0.4.js:308-315 | the mapped transformation of plain bodies gives records the constructors keep as they are |
| Collections.IndexedPlain | files/public/js/moo-0.0.4.js:389-393 | `id_g` over an array of plain bodies gives records the constructors keep as they are |
| Collections.PutIdPlain | files/public/js/moo-0.0.4.js:312 | adding `id` to a plain body keeps it plain |
| Store.ConstructedPlain | files/public/js/moo-0.0.2.js:99-105 | the constructor keeps a record with distinct, dot-free keys (and no `toHTML` in 0.0.2 and 0.0.0) exactly as given |
| Store.ApplyAllFresh | files/public/js/moo-0.0.4.js:140-154 | `set` of dot-free keys the record does not hold appends them in order |
| Store.UndottedKey | files/public/js/moo-0.0.4.js:141 | a key without `.` splits into itself |
| Store.ConstructedKeepsId | files/public/js/moo-0.0.2.js:99-105 | when the constructor succeeds, a number or string `id` of the record is kept |
| Store.ApplyAllKeepsScalar | files/public/js/moo-0.0.4.js:140-154 | a number or string field survives every pair that does not write through it or over it |
| Store.ScalarSurvivesPlace | files/public/js/moo-0.0.4.js:143-153 | one pair keeps a number or string field it does not write |
| Store.DottedRecordNests | files/public/js/moo-0.0.4.js:124-157 | constructing a model from `{'foo.bar': x, id: y}` gives `{foo: {bar: x}, id: y}`, in every version |
| Collections.Collection.KeyBodies | files/public/js/moo-0.0.4.js:311-314 | the loop computes `KeyedAll` |
| Collections.Collection.IdBodies | files/public/js/moo-0.0.4.js:409-411 | the loop of `_.chain(p).reduce(id_g, [])` computes `IdRecords` |
| Collections.Collection.IndexBodies | files/public/js/moo-0.0.4.js:389-393 | reducing an array with `id_g` pushes every element with its position as `id`, i.e. computes `Indexed(items, 0)`, failing on a non-object element |
| Collections.Collection.ToMapped | files/public/js/moo-0.0.4.js:462-469 | the `to_map` loop computes `ToMap` |
| Collections.ToMapPrefix | files/public/js/moo-0.0.4.js:462-466 | `to_map` of the keyed records of a map rebuilds the map, prefix by prefix |
| Collections.FreshName | files/public/js/moo-0.0.4.js:463 | a key of a map does not occur earlier in it |
| Collections.ToMapStep | files/public/js/moo-0.0.4.js:463-464 | one `to_map` step appends the key with the body, its `id` deleted |
| Collections.MappedAdded | files/public/js/moo-0.0.4.js:308-315 | adding a map without an `id` key to a mapped collection is the mapped transformation |
| Collections.MappedRoundTrip | files/public/js/moo-0.0.4.js:461-474 | resetting a mapped collection with a map of plain bodies, then running `to_map`, gives back the map |
| Collections.KeyedRoundTrip | files/public/js/moo-0.0.0.js:336-345 | `to_map` after `id_g` over a map gives back the map |
| Collections.MappedIds | files/public/js/moo-0.0.4.js:311-314 | the i-th payload record of a mapped batch, before its model is built, has the i-th key as `id`, and its other fields are the body's |
| Collections.WithIdsUnchanged | files/public/js/moo-0.0.4.js:308-321 | records that have an `id` pass through `add` unchanged |
| Collections.SyntheticIds | files/public/js/moo-0.0.4.js:316-319 | in properties and verbs every id-less record gets the batch length as `id` |
| Collections.PositionIds | files/public/js/moo-0.0.4.js:409-411 | `id_g` over an array gives the i-th record the id i |
| Collections.IdRecordsReset | files/public/js/moo-0.0.4.js:409-417 | resetting with the `id_g` records constructs a model from each of them unchanged, because each already has an `id` |
| Collections.BuiltOne | files/public/js/moo-0.0.4.js:328-341 | one record gives one model, or that constructor's error |
| Objects.Remaining | files/public/js/moo-0.0.4.js:395-414 | after `parse` the response holds none of the four collection keys |
| Objects.Pushed | files/public/js/moo-0.0.4.js:407-417 | properties and verbs: the `id_g` records, then `reset` with them |
| Objects.MappedRecords | files/public/js/moo-0.0.4.js:395-403 | attributes and values: the mapped `reset` in 0.0.4 and 0.0.2, the `id_g` records in 0.0.0 |
| Objects.MetaId | files/public/js/moo-0.0.4.js:419-421 | the new id: `Meta.id` when `Meta` is an object; none without `Meta`; `in` throws on a null, number or string `Meta` |
| Objects.ParseResponse | files/public/js/moo-0.0.4.js:387-424 | `parse`: the four collections' records in order, each step's error aborting, then the id and the response without its four keys |
| Objects.Json | files/public/js/moo-0.0.4.js:461-474 | `toJSON`: attributes and values through `to_map`, properties and verbs as their record lists |
| Objects.MooObject.Create | files/public/js/moo-0.0.4.js:343-358 | `new Moo.Object(attrs)` holds the four collections, and its attributes are what `parse(this.attributes)` leaves of them, since `parse` deletes the keys from that very object; its id is `Meta.id` when `parse` finds one and otherwise the `id` key of the attributes, which Backbone's constructor `set` took; or it fails with `parse`'s error |
| Objects.MooObject.constructor | files/public/js/moo-0.0.4.js:343-356 | before `parse`: the given attributes, the id of their top-level `id` key, and four empty collections of the version's kinds |
| Objects.NoMetaNoId | files/public/js/moo-0.0.4.js:419-421 | without a `Meta` entry `parse` sets no id, so the constructor's id stands |
| Objects.MappedKind | files/public/js/moo-0.0.4.js:328-333 | `Moo.Attributes` and `Moo.Values` use the mapped `add` in 0.0.4 and 0.0.2; in 0.0.0 they are plain Backbone collections |
| Objects.ListedKind | files/public/js/moo-0.0.4.js:336-341 | `Moo.Properties` and `Moo.Verbs` use the listed `add` with synthetic ids in 0.0.4 and 0.0.2; in 0.0.0 they are plain Backbone collections |
| Objects.MooObject.Parse | files/public/js/moo-0.0.4.js:387-424 | `parse` resets the collections, takes `Meta.id` only when present, and returns the response without its four keys, leaving the attribute map alone. On an error nothing changes |
| Objects.MooObject.LoadMapped | files/public/js/moo-0.0.4.js:395-403 | the attribute and value records: the mapped `reset` in 0.0.4 and 0.0.2, and `id_g` in 0.0.0 |
| Objects.MooObject.LoadListed | files/public/js/moo-0.0.4.js:407-417 | the property and verb records from `id_g`, then `reset` |
| Objects.MooObject.ToJson | files/public/js/moo-0.0.4.js:461-474 | `toJSON` gives the id-keyed maps of attributes and values and the record lists of properties and verbs |
| Objects.FindFirst | files/public/js/moo-0.0.4.js:363 | `collection.get(name)` finds a record exactly when one has that id, and finds the first of them |
| Objects.Find | files/public/js/moo-0.0.4.js:363 | `collection.get(name)`: the first record whose `id` names `name` |
| Objects.RuleVerdict | files/public/js/moo-0.0.4.js:363-364 | one `if ((r = c.get(name)) && !test(r.get('Value.value')))` line: no record passes, a throwing `get` throws, else the test decides |
| Objects.ValueOfLookup | files/public/js/moo-0.0.4.js:363 | the rules read `record.get('Value.value')` |
| Objects.ValidateObject | files/public/js/moo-0.0.4.js:361-385 | `validate`: the eleven rules in order, the first that does not pass deciding |
| Objects.MooObject.Validate | files/public/js/moo-0.0.4.js:361-385 | `validate` reads the object's current `attributez` and `values` |
| Objects.RulesFirstFailure | files/public/js/moo-0.0.4.js:361-385 | `validate` returns the verdict of the first rule that does not pass |
| Objects.RulesAllValid | files/public/js/moo-0.0.4.js:361-385 | `validate` returns nothing exactly when every rule passes |
| Objects.OnlyRuleDecides | files/public/js/moo-0.0.4.js:361-385 | when every other rule passes, one rule's verdict is the object's |
| Objects.RuleNamesDistinct | files/public/js/moo-0.0.4.js:363-383 | within each collection the rules name distinct records |
| Objects.RecordValue | files/public/js/moo-0.0.4.js:363 | the `Value.value` of a test record is its value. A record without `Value` gives undefined, and one whose `Value` is a string throws |
| Objects.SingleRecordDecides | files/public/js/moo-0.0.4.js:361-385 | an object holding only the record a rule names is valid exactly when that record's value passes the rule's test, and otherwise gets the rule's message |
| Objects.SingleObjectRecord | files/public/js/moo-0.0.4.js:361-385 | the same for the object's own eleven rules |
| Objects.AttributeRecordDecides | files/public/js/moo-0.0.4.js:363-366 | the same for an attribute rule, with the record in `attributez` |
| Objects.ValueRecordDecides | files/public/js/moo-0.0.4.js:367-384 | the same for a value rule, with the record in `values` |
| Objects.PlayerRule | files/public/js/moo-0.0.4.js:363-364 | a `player` attribute must be 0 or 1 |
| Objects.ParentsRule | files/public/js/moo-0.0.4.js:365-366 | a `parents` attribute must be an array of object numbers |
| Objects.NameRule | files/public/js/moo-0.0.4.js:367-368 | a `name` value must be a string |
| Objects.OwnerRule | files/public/js/moo-0.0.4.js:369-370 | an `owner` value must be an object number |
| Objects.PlayerExamples | files/public/spec/MooSpec.js:412-420 | `player` equal to `'test'` or 5 fails and equal to 1 passes |
| Objects.ParentsExamples | files/public/spec/MooSpec.js:422-430 | `parents` equal to `'test'` or `['test']` fails and equal to `['#1|obj']` passes |
| Objects.NameExamples | files/public/spec/MooSpec.js:432-440 | `name` equal to `'#1|obj'` or 5 fails and equal to `'5'` passes |
| Objects.OwnerExamples | files/public/spec/MooSpec.js:442-450 | `owner` equal to `'#1'` or 5 fails and equal to `'#5|obj'` passes |
| Objects.ParseThenJson | files/public/spec/MooSpec.js:392-410 | attributes and values of plain bodies given to `parse` come back from `toJSON` as they were sent, in every version |
| Objects.DottedBodyNests | files/public/js/moo-0.0.4.js:328-341 | an attribute body `{'foo.bar': x}` given to `parse` comes back from `toJSON` as `{foo: {bar: x}}`, which differs from what was sent, in every version |
| Objects.DottedParsed | files/public/js/moo-0.0.4.js:387-424 | `parse` of that response holds the one nested attribute record |
| Objects.DottedMapped | files/public/js/moo-0.0.4.js:395-403 | the attribute collection's model of `{n: {'foo.bar': x}}` holds `{foo: {bar: x}, id: n}` |
| Objects.DottedJson | files/public/js/moo-0.0.4.js:461-474 | `toJSON` of that record lists it under `n` without its `id` |
| Objects.AttributesOnly | files/public/js/moo-0.0.4.js:387-424 | a response with attributes and no values parses to the attribute records alone |
| Objects.PropertiesOnly | files/public/js/moo-0.0.4.js:387-424 | a response with only properties parses to their records |
| Objects.MappedLoads | files/public/js/moo-0.0.0.js:284-294 | in every version a mapped payload of plain bodies loads into records whose `to_map` is the payload |
| Objects.NoPayload | files/public/js/moo-0.0.4.js:407-417 | a response without properties or verbs leaves those collections empty |
| Objects.PropertyPositions | files/public/js/moo-0.0.2.js:414-418 | `parse` of an array of properties succeeds exactly when every record's constructor does, and then gives each property its position as `id`, in every version |
| Objects.MetaIdParsed | files/public/js/moo-0.0.4.js:419-421 | `parse` takes the object id from `Meta.id` (0.0.0 does not), and a string `Meta` makes it throw |

## Left out

- I/O and the user interface are not part of this model. This covers
  files/public/js/Socket.js, files/public/js/moo-interactive-0.0.4.js,
  the `$.widget` panels, templating, `fetch`, `url`/`urlRoot`,
  `httpResponseStatus` with `failed`/`isNotFound`/`isDenied`, and the
  `isReadable`/`isWritable`/`isDenied` helpers. They are transport,
  timers, DOM and HTTP status plumbing.
- Backbone internals are not modelled. This covers change events, the
  `validate` hook and `isValid`, the `_byId` index, the merge of an added
  record into an existing model with the same id, and the merge that
  `Backbone.Model.set` performs. Each record becomes a model through the
  library's own constructor path (`set`, then `initialize`), the store is
  replaced wholesale, and `Collection.get(id)` is modelled as "the first
  record with that id". Of `Moo.Object`'s Backbone constructor the model keeps only that
  its `set` takes the id from a top-level `id` attribute before
  `initialize` runs; Backbone's own source is not part of this model.
- Reference aliasing is not modelled. Below the top level, `set`'s
  shallow `_.clone` shares nested objects with the old attributes, and
  `add`/`id_g` write `id` into the caller's payload objects. Values here
  have value semantics.
- Prototype monkey-patching is not modelled. The 0.0.2 and 0.0.0
  renderers are free functions over `Value`. The leak of `toHTML` into
  every object's enumerable keys is reduced to the explicit deletion of a
  `toHTML` key that 0.0.2 and 0.0.0 perform.
- `Values.PutField`: keys that are array indices (such as `"5"`) keep
  their insertion order. JavaScript enumerates such keys first, in ascending order, so an object
  holding them shows in another order in `generate`, `formatHTML` and
  `to_map`.
- Booleans, `undefined` inside containers, functions and floating-point
  numbers are not values here. Numbers are integers and floats appear
  only as `|float`-tagged strings. `Text.NumText` writes every integer in
  plain decimal, which matches JavaScript only below 1e21 in magnitude,
  where `toString` switches to exponent form; and integers beyond 2^53
  are not exact doubles, so the source could not hold them.
- Underscore's `_.isArray`/`_.map` treat an object with a numeric
  `length` specially. That case is not modelled.
- `Store.Place`: a `set` whose path runs through an array stops with
  `ArrayOnPath`. The source would index into or create properties on the
  array.
- `Store.Walk`: on an array it follows only `length` and decimal
  indices. Other inherited properties (`in` finds methods such as `push`)
  give undefined.
- `Values.GetField` and `Values.Member` see only a record's own keys. In
  JavaScript `in` and `obj[k]` also find what every object inherits from
  `Object.prototype` (`constructor`, `toString`, `hasOwnProperty`,
  `valueOf`, `__proto__` and the rest), and `toHTML` in 0.0.2 and 0.0.0.
  So in the source `get('toString')` returns a function and
  `has('toString')` holds, where the model gives undefined and false. The
  same holds for `Store.Lookup` and `Store.Walk`, which use them.
- `Store.Place` treats those inherited names as absent keys and creates
  `{}` for them. In the source `set({'constructor.x': 1})` walks into the
  inherited `Object` function and writes `x` on it, adding no key to the
  record; `set({'__proto__.x': 1})` writes `x` onto `Object.prototype`,
  so every object then has `x`; and `set({'__proto__': v})` changes the
  copy's prototype instead of adding a key. Written as the last segment
  of a path, a name such as `toString` becomes an own key in both.
- `Collections.AddOne`: an array payload in a batch gives `NotARecord`,
  and so does any payload that is not an object in 0.0.0's plain
  collections. Backbone would build a model from it anyway. In mapped and
  listed collections a number, string or null payload gives
  `Thrown(TypeError)`, as `'id' in` does.
- `Collections.IdRecords`: a non-empty string payload gives `NotARecord`.
  `_.reduce` would iterate its characters. A number or string element of
  a properties or verbs array also gives `NotARecord`: in 0.0.4 `id_g`
  pushes it, and `reset` then throws a `TypeError` at `'id' in`. Both are
  errors, but of different kinds.
- `Objects.ParseThenJson`, `Objects.MappedLoads` and
  `Collections.MappedRoundTrip` are promised for plain bodies only:
  distinct keys, none holding a `.`, and no `toHTML` in 0.0.2 and 0.0.0.
  Any other body is changed by the model's constructor, so it does not
  come back as sent: `set` nests a dotted key (`Objects.DottedBodyNests`
  proves it for `{'foo.bar': x}`), and 0.0.2 and 0.0.0 drop `toHTML`.
- `Objects.PropertyPositions` requires each property body to have
  distinct keys, as every JavaScript object does.
- `Objects.MooObject.Parse`: on an error it changes nothing. The source
  throws after resetting the collections it has already reached.
- `Objects.Find`: a record without an `id` is found under the name
  `undefined`, and one with a null `id` under `null`. Backbone's
  `collection.get` indexes neither. No rule uses those names, so
  `validate` is not affected.
- `Objects.MetaId`: an array `Meta` gives no id. Arrays have no `id`
  property unless one is assigned.
- `Literal.LayoutOf`: `indent` is left out, `true` or a string. Given as
  `false` or a number, `generate` would pretty-print with the indent text
  `false` or the number's digits; those arguments are not modelled.
- `Literal.PrettyShift`: proved for values whose strings and keys hold no
  line feed. A line feed in a string breaks the line structure the
  statement is about.
- `Kinds.IsValidPerms`: requires the allowed set to be a literal
  character class (no `]`, `\`, `^` or `-`). Only then does the regular
  expression `^[set]*$` mean set membership. That holds for `rwc` and
  `rwxd`, the only sets the library passes.
- `Html.Escape` uses Underscore 1.4's six-entry table; its inverse only
  decodes that table's entities.
- `Json.Quote` follows ECMAScript's `JSON.stringify` for the characters
  it escapes. Lone surrogates are not distinguished, because strings here
  are sequences of code points.
