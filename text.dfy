/** String utilities the codec is built on: JavaScript's `indexOf`, the
    library's `endsWith` helper, `Array.prototype.join`, `String.prototype.split`
    on one character, and the decimal text of an integer. */
module Text {

  /** Clamps a search position the way `String.prototype.indexOf` does. */
  function ClampPosition(s: string, from: int): (k: nat)
    ensures k <= |s|
    ensures 0 <= from <= |s| ==> k == from
  {
    if from < 0 then 0 else if from > |s| then |s| else from
  }

  /** `sub` occurs in `s` starting at position `j`. */
  predicate OccursAt(s: string, sub: string, j: int)
  {
    0 <= j && j + |sub| <= |s| && s[j..j + |sub|] == sub
  }

  /** The first position at or after `k` where `sub` occurs in `s`, or -1. */
  function SearchFrom(s: string, sub: string, k: nat): (r: int)
    requires k <= |s|
    ensures r == -1 || (k <= r && OccursAt(s, sub, r))
    ensures r == -1 <==> forall j :: k <= j ==> !OccursAt(s, sub, j)
    ensures r != -1 ==> forall j :: k <= j < r ==> !OccursAt(s, sub, j)
    decreases |s| - k
  {
    if k + |sub| > |s| then -1
    else if s[k..k + |sub|] == sub then k
    else SearchFrom(s, sub, k + 1)
  }

  /** `s.indexOf(sub, from)`. */
  function IndexOf(s: string, sub: string, from: int): int
  {
    SearchFrom(s, sub, ClampPosition(s, from))
  }

  /** The library's `endsWith(string, suffix)`, written with `indexOf` exactly as
      the source does; its contract says that this is the plain suffix test,
      also when the string is shorter than the suffix. */
  function EndsWith(s: string, suffix: string): (r: bool)
    ensures r <==> |suffix| <= |s| && s[|s| - |suffix|..] == suffix
  {
    assert |suffix| <= |s| ==> s[|s| - |suffix|..] == s[|s| - |suffix|..|s| - |suffix| + |suffix|];
    assert !OccursAt(s, suffix, |s| - |suffix| + 1);
    IndexOf(s, suffix, |s| - |suffix|) != -1
  }

  lemma ConcatAssoc(a: string, b: string, c: string)
    ensures (a + b) + c == a + (b + c)
  {
  }

  lemma LineRegroup(i: string, n: string, k: string, arrow: string, c: string)
    ensures (i + n) + k + arrow + c == i + (n + k + arrow + c)
  {
  }

  /** `parts.join(sep)`. */
  function Join(parts: seq<string>, sep: string): string
  {
    if |parts| == 0 then ""
    else if |parts| == 1 then parts[0]
    else parts[0] + sep + Join(parts[1..], sep)
  }

  lemma JoinCons(x: string, parts: seq<string>, sep: string)
    requires |parts| > 0
    ensures Join([x] + parts, sep) == x + sep + Join(parts, sep)
  {
    assert ([x] + parts)[1..] == parts;
  }

  /** Joining two non-empty lists puts one separator between them. */
  lemma {:induction false} JoinAppend(a: seq<string>, b: seq<string>, sep: string)
    requires |a| > 0 && |b| > 0
    ensures Join(a + b, sep) == Join(a, sep) + sep + Join(b, sep)
  {
    if |a| == 1 {
      JoinCons(a[0], b, sep);
      assert a + b == [a[0]] + b;
    } else {
      JoinAppend(a[1..], b, sep);
      assert (a + b)[1..] == a[1..] + b;
    }
  }

  /** `s.split(d)` for a one-character separator: the pieces between the
      separators, at least one piece, none containing the separator, and joining
      them back with the separator gives `s`. */
  function Split(s: string, d: char): (r: seq<string>)
    ensures |r| >= 1
    ensures forall i :: 0 <= i < |r| ==> d !in r[i]
    ensures Join(r, [d]) == s
    decreases |s|
  {
    if |s| == 0 then [""]
    else
      var rest := Split(s[1..], d);
      if s[0] == d then
        JoinCons("", rest, [d]);
        assert [d] + s[1..] == s;
        [""] + rest
      else
        var r := [[s[0]] + rest[0]] + rest[1..];
        assert Join(r, [d]) == s by {
          if |rest| == 1 {
            assert [s[0]] + s[1..] == s;
          } else {
            JoinCons([s[0]] + rest[0], rest[1..], [d]);
            assert rest == [rest[0]] + rest[1..];
            JoinCons(rest[0], rest[1..], [d]);
            assert [s[0]] + s[1..] == s;
          }
        }
        r
  }

  /** Splitting text that starts with an ordinary character extends the first piece. */
  lemma SplitCons(c: char, rest: string, d: char)
    requires c != d
    ensures Split([c] + rest, d) == [[c] + Split(rest, d)[0]] + Split(rest, d)[1..]
  {
    assert ([c] + rest)[1..] == rest;
  }

  /** Splitting text that starts with the separator starts with an empty piece. */
  lemma SplitSep(rest: string, d: char)
    ensures Split([d] + rest, d) == [""] + Split(rest, d)
  {
    assert ([d] + rest)[1..] == rest;
  }

  /** Joining parts that start with an empty one starts with the separator. */
  lemma JoinEmptyHead(parts: seq<string>, d: char)
    requires |parts| > 1 && parts[0] == ""
    ensures Join(parts, [d]) == [d] + Join(parts[1..], [d])
  {
  }

  /** Joining parts whose first one starts with `c` starts with `c`. */
  lemma JoinCharHead(parts: seq<string>, d: char)
    requires |parts| >= 1 && |parts[0]| > 0
    ensures Join(parts, [d]) == [parts[0][0]] + Join([parts[0][1..]] + parts[1..], [d])
  {
    var c := parts[0][0];
    assert parts[0] == [c] + parts[0][1..];
    if |parts| > 1 {
      JoinCons(parts[0][1..], parts[1..], [d]);
    }
  }

  /** Dropping the first character of the first part keeps the parts free of `d`. */
  lemma DropHeadChar(parts: seq<string>, d: char)
    requires |parts| >= 1 && |parts[0]| > 0
    requires forall i :: 0 <= i < |parts| ==> d !in parts[i]
    ensures parts[0][0] != d
    ensures var tail := [parts[0][1..]] + parts[1..];
      |tail| == |parts| && (forall i :: 0 <= i < |tail| ==> d !in tail[i])
    ensures parts == [[parts[0][0]] + ([parts[0][1..]] + parts[1..])[0]] + ([parts[0][1..]] + parts[1..])[1..]
  {
    assert forall x :: x in parts[0][1..] ==> x in parts[0];
    assert parts[0] == [parts[0][0]] + parts[0][1..];
  }

  /** Splitting undoes joining, for pieces that do not contain the separator. */
  lemma {:induction false} SplitJoin(parts: seq<string>, d: char)
    requires |parts| >= 1
    requires forall i :: 0 <= i < |parts| ==> d !in parts[i]
    ensures Split(Join(parts, [d]), d) == parts
    decreases |parts|, |parts[0]|
  {
    if |parts[0]| == 0 {
      if |parts| > 1 {
        JoinEmptyHead(parts, d);
        SplitSep(Join(parts[1..], [d]), d);
        SplitJoin(parts[1..], d);
        assert [""] + parts[1..] == parts;
      }
    } else {
      var tail := [parts[0][1..]] + parts[1..];
      DropHeadChar(parts, d);
      SplitJoin(tail, d);
      JoinCharHead(parts, d);
      SplitCons(parts[0][0], Join(tail, [d]), d);
    }
  }

  /** The number of occurrences of `c` in `s`. */
  function Count(c: char, s: string): nat
  {
    if |s| == 0 then 0 else (if s[0] == c then 1 else 0) + Count(c, s[1..])
  }

  lemma {:induction false} CountAppend(c: char, a: string, b: string)
    ensures Count(c, a + b) == Count(c, a) + Count(c, b)
  {
    if |a| > 0 {
      CountAppend(c, a[1..], b);
      assert (a + b)[1..] == a[1..] + b;
    } else {
      assert a + b == b;
    }
  }

  lemma {:induction false} CountAbsent(c: char, s: string)
    ensures c !in s <==> Count(c, s) == 0
  {
    if |s| > 0 {
      CountAbsent(c, s[1..]);
      assert s == [s[0]] + s[1..];
    }
  }

  function DigitChar(d: nat): (c: char)
    requires d < 10
    ensures '0' <= c <= '9'
  {
    "0123456789"[d]
  }

  /** The decimal digits of a natural number, without leading zeros. */
  function Digits(n: nat): (r: string)
    ensures |r| >= 1
    ensures forall i :: 0 <= i < |r| ==> '0' <= r[i] <= '9'
    ensures |r| > 1 ==> r[0] != '0'
  {
    if n < 10 then [DigitChar(n)] else Digits(n / 10) + [DigitChar(n % 10)]
  }

  /** `String(n)` for an integer: an optional minus sign and decimal digits. */
  function NumText(n: int): (r: string)
    ensures |r| >= 1
    ensures forall i :: 0 <= i < |r| ==> r[i] == '-' || '0' <= r[i] <= '9'
  {
    if n < 0 then "-" + Digits(-n) else Digits(n)
  }

  function DigitValue(c: char): nat
    requires '0' <= c <= '9'
  {
    c as nat - '0' as nat
  }

  /** Reads a string of decimal digits back as a number. */
  function ParseDigits(s: string): nat
    requires forall i :: 0 <= i < |s| ==> '0' <= s[i] <= '9'
  {
    if |s| == 0 then 0 else 10 * ParseDigits(s[..|s| - 1]) + DigitValue(s[|s| - 1])
  }

  /** Reads the decimal text of an integer back. */
  function ParseNum(s: string): int
    requires |s| >= 1
    requires forall i :: 0 <= i < |s| ==> s[i] == '-' || '0' <= s[i] <= '9'
    requires forall i :: 1 <= i < |s| ==> '0' <= s[i] <= '9'
  {
    var m: int := ParseDigits(if s[0] == '-' then s[1..] else s);
    if s[0] == '-' then -m else m
  }

  lemma {:induction false} ParseDigitsOf(n: nat)
    ensures ParseDigits(Digits(n)) == n
  {
    var d := Digits(n);
    if n >= 10 {
      ParseDigitsOf(n / 10);
      assert d[..|d| - 1] == Digits(n / 10);
    }
    assert DigitValue(DigitChar(n % 10)) == n % 10;
  }

  predicate AllDigits(s: string)
  {
    forall i :: 0 <= i < |s| ==> '0' <= s[i] <= '9'
  }

  /** Reading back a minus sign and digits negates the digits' value. */
  lemma ParseNegative(d: string)
    requires |d| >= 1 && AllDigits(d)
    ensures var s := "-" + d;
      (forall i :: 0 <= i < |s| ==> s[i] == '-' || '0' <= s[i] <= '9') &&
      (forall i :: 1 <= i < |s| ==> '0' <= s[i] <= '9') &&
      ParseNum(s) == -(ParseDigits(d) as int)
  {
    var s := "-" + d;
    assert s[1..] == d;
    assert forall i :: 1 <= i < |s| ==> s[i] == d[i - 1];
  }

  /** Reading back digits without a sign gives their value. */
  lemma ParsePositive(d: string)
    requires |d| >= 1 && AllDigits(d)
    ensures ParseNum(d) == ParseDigits(d)
  {
    assert d[0] != '-';
  }

  /** The decimal text of an integer determines it: reading it back gives the number. */
  lemma NumTextRoundTrip(n: int)
    ensures forall i :: 1 <= i < |NumText(n)| ==> '0' <= NumText(n)[i] <= '9'
    ensures ParseNum(NumText(n)) == n
  {
    if n < 0 {
      ParseDigitsOf(-n);
      ParseNegative(Digits(-n));
    } else {
      assert NumText(n) == Digits(n);
      ParseDigitsOf(n);
      ParsePositive(Digits(n));
    }
  }

  /** `s` with `i` inserted at the start of every line after the first that
      is not empty. */
  function Reindent(s: string, i: string): string
    decreases |s|
  {
    if |s| == 0 then ""
    else if s[0] == '\n' && |s| > 1 && s[1] != '\n' then "\n" + i + Reindent(s[1..], i)
    else [s[0]] + Reindent(s[1..], i)
  }

  /** What a leading `c` becomes when `t` follows it: a line feed that starts
      a non-empty line is followed by `i`. */
  function Lead(c: char, t: string, i: string): string
  {
    if c == '\n' && |t| > 0 && t[0] != '\n' then "\n" + i else [c]
  }

  /** One step of `Reindent` on a text that starts with `c`. */
  lemma ReindentCons(c: char, t: string, i: string)
    ensures Reindent([c] + t, i) == Lead(c, t, i) + Reindent(t, i)
  {
    assert ([c] + t)[1..] == t;
  }

  /** What follows `t` does not change the lead, unless `t` is empty and
      a line starts there. */
  lemma LeadAppend(c: char, t: string, b: string, i: string)
    requires |t| > 0 || c != '\n' || |b| == 0 || b[0] == '\n'
    ensures Lead(c, t + b, i) == Lead(c, t, i)
  {
    if |t| > 0 {
      assert (t + b)[0] == t[0];
    } else {
      assert t + b == b;
    }
  }

  /** The inductive step of `ReindentAppend`: from the text without its first
      character to the whole text. */
  lemma ReindentAppendStep(a: string, b: string, i: string)
    requires |a| > 0
    requires a[|a| - 1] != '\n' || |b| == 0 || b[0] == '\n'
    requires Reindent(a[1..] + b, i) == Reindent(a[1..], i) + Reindent(b, i)
    ensures Reindent(a + b, i) == Reindent(a, i) + Reindent(b, i)
  {
    var c, t := a[0], a[1..];
    assert a == [c] + t;
    assert a + b == [c] + (t + b);
    LeadAppend(c, t, b, i);
    calc {
      Reindent(a + b, i);
      { ReindentCons(c, t + b, i); }
      Lead(c, t, i) + Reindent(t + b, i);
      Lead(c, t, i) + (Reindent(t, i) + Reindent(b, i));
      (Lead(c, t, i) + Reindent(t, i)) + Reindent(b, i);
      { ReindentCons(c, t, i); }
      Reindent(a, i) + Reindent(b, i);
    }
  }

  /** Reindenting works piece by piece, unless the cut falls between a line
      feed and the text of the line it starts. */
  lemma {:induction false} ReindentAppend(a: string, b: string, i: string)
    requires |a| == 0 || a[|a| - 1] != '\n' || |b| == 0 || b[0] == '\n'
    ensures Reindent(a + b, i) == Reindent(a, i) + Reindent(b, i)
  {
    if |a| > 0 {
      assert |a| > 1 ==> a[1..][|a| - 2] == a[|a| - 1];
      ReindentAppend(a[1..], b, i);
      ReindentAppendStep(a, b, i);
    } else {
      assert a + b == b;
    }
  }

  /** A single line is left alone. */
  lemma {:induction false} ReindentLine(s: string, i: string)
    requires '\n' !in s
    ensures Reindent(s, i) == s
  {
    if |s| > 0 {
      assert '\n' !in s[1..] by {
        assert forall c :: c in s[1..] ==> c in s;
      }
      ReindentLine(s[1..], i);
      assert [s[0]] + s[1..] == s;
    }
  }

  /** A line feed starting a non-empty line gets the indentation after it. */
  lemma ReindentBreak(b: string, i: string)
    requires |b| > 0 && b[0] != '\n'
    ensures Reindent("\n" + b, i) == "\n" + i + Reindent(b, i)
  {
    assert ("\n" + b)[1..] == b;
  }

  /** A line feed followed by another, or ending the text, does not. */
  lemma ReindentEmptyLine(b: string, i: string)
    requires |b| == 0 || b[0] == '\n'
    ensures Reindent("\n" + b, i) == "\n" + Reindent(b, i)
  {
    assert ("\n" + b)[1..] == b;
  }

  /** No line feed in any part or the separator: none in the joined text. */
  lemma {:induction false} JoinNoLineFeed(parts: seq<string>, sep: string)
    requires forall j :: 0 <= j < |parts| ==> '\n' !in parts[j]
    requires '\n' !in sep
    ensures '\n' !in Join(parts, sep)
  {
    if |parts| > 1 {
      JoinNoLineFeed(parts[1..], sep);
    }
  }

  /** Lines that are not empty and neither start nor end with a line feed. */
  predicate SolidLines(lines: seq<string>)
  {
    forall j :: 0 <= j < |lines| ==> Solid(lines[j])
  }

  /** A line that is not empty and neither starts nor ends with a line feed. */
  predicate Solid(line: string)
  {
    |line| > 0 && line[0] != '\n' && line[|line| - 1] != '\n'
  }

  /** Reindenting a block of lines, each after a line feed and separated by
      `,` and a line feed, reindents each line and prefixes it. */
  lemma {:induction false} JoinReindent(lines: seq<string>, shifted: seq<string>, i: string)
    requires |lines| == |shifted| >= 1
    requires SolidLines(lines)
    requires forall j :: 0 <= j < |lines| ==> shifted[j] == i + Reindent(lines[j], i)
    ensures Reindent("\n" + Join(lines, ",\n"), i) == "\n" + Join(shifted, ",\n")
  {
    var l := lines[0];
    if |lines| == 1 {
      ReindentBreak(l, i);
    } else {
      var rest := Join(lines[1..], ",\n");
      JoinCons(l, lines[1..], ",\n");
      assert lines == [l] + lines[1..];
      assert "\n" + Join(lines, ",\n") == ("\n" + (l + ",")) + ("\n" + rest);
      ReindentAppend("\n" + (l + ","), "\n" + rest, i);
      ReindentBreak(l + ",", i);
      ReindentAppend(l, ",", i);
      ReindentLine(",", i);
      JoinReindent(lines[1..], shifted[1..], i);
      JoinCons(shifted[0], shifted[1..], ",\n");
      assert shifted == [shifted[0]] + shifted[1..];
    }
  }

  /** A bracketed block: an opening character, the lines, and the closing
      character alone on a line at indentation `p`; reindenting it by `i`
      reindents the lines and moves the closing line to `i + p`. */
  lemma BlockRegroup(a: string, b: string, c: string, d: string, e1: string, e2: string, f: string)
    ensures a + b + c + d + e2 + f == a + ((b + c) + (d + (e2 + f)))
    ensures a + b + c + d + (e1 + e2) + f == a + ((b + c) + ((d + e1) + (e2 + f)))
  {
  }

  lemma BlockReindent(open: char, close: char, lines: seq<string>, shifted: seq<string>, p: string, i: string)
    requires open != '\n' && close != '\n' && '\n' !in p
    requires |lines| == |shifted|
    requires SolidLines(lines)
    requires forall j :: 0 <= j < |lines| ==> shifted[j] == i + Reindent(lines[j], i)
    ensures Reindent([open] + "\n" + Join(lines, ",\n") + "\n" + p + [close], i)
         == [open] + "\n" + Join(shifted, ",\n") + "\n" + (i + p) + [close]
  {
    var tail := p + [close];
    var body := "\n" + Join(lines, ",\n");
    var body' := "\n" + Join(shifted, ",\n");
    BlockRegroup([open], "\n", Join(lines, ",\n"), "\n", i, p, [close]);
    BlockRegroup([open], "\n", Join(shifted, ",\n"), "\n", i, p, [close]);
    assert Reindent(body, i) == body' by {
      if |lines| == 0 {
        ReindentEmptyLine("", i);
      } else {
        JoinReindent(lines, shifted, i);
      }
    }
    assert Reindent("\n" + tail, i) == ("\n" + i) + tail by {
      assert '\n' !in tail;
      ReindentLine(tail, i);
      ReindentBreak(tail, i);
    }
    ReindentAppend(body, "\n" + tail, i);
    ReindentAppend([open], body + ("\n" + tail), i);
    ReindentLine([open], i);
  }
}
