/** The values that travel between the MOO server and the client: strings
    (possibly carrying a type tag), numbers, null, arrays and objects. An
    object is an ordered list of fields, in the order JavaScript enumerates
    them; field names are strings. */
module Values {
  import opened Wrappers
  import opened Text

  datatype Value =
    | Null
    | Num(n: int)
    | Str(s: string)
    | List(items: seq<Value>)
    | Obj(fields: Fields)

  type Fields = seq<(string, Value)>

  /** The three releases of the library, where their behaviour differs. */
  datatype Version = V000 | V002 | V004

  // ------------------------------------------------- JavaScript conversions

  /** A result that may be `undefined`, converted to text by `+`. */
  function Concat(r: Option<string>): string
  {
    match r
    case Some(s) => s
    case None => "undefined"
  }

  /** A result that may be `undefined`, as an element of `Array.prototype.join`
      (which writes `undefined` as nothing). */
  function JoinItem(r: Option<string>): string
  {
    match r
    case Some(s) => s
    case None => ""
  }

  /** The one exception the modelled code can raise: a TypeError, from
      looking up a property of null or using `in` on a non-object. */
  datatype Exception = TypeError

  // ---------------------------------------------------------------- fields

  predicate HasKey(f: Fields, k: string)
  {
    exists i :: 0 <= i < |f| && f[i].0 == k
  }

  /** No field name occurs twice, as in any JavaScript object. */
  predicate DistinctKeys(f: Fields)
  {
    forall i, j :: 0 <= i < j < |f| ==> f[i].0 != f[j].0
  }

  /** `obj[k]`, absent when there is no such field. */
  function GetField(f: Fields, k: string): (r: Option<Value>)
    ensures r.Some? <==> HasKey(f, k)
    ensures r.Some? ==> exists i :: 0 <= i < |f| && f[i] == (k, r.value)
  {
    if |f| == 0 then None
    else if f[0].0 == k then Some(f[0].1)
    else
      assert forall i :: 1 <= i < |f| ==> f[i] == f[1..][i - 1];
      GetField(f[1..], k)
  }

  /** `obj[k] = v`: an existing field keeps its place, a new one goes last. */
  function PutField(f: Fields, k: string, v: Value): (r: Fields)
    ensures HasKey(f, k) ==> |r| == |f|
    ensures !HasKey(f, k) ==> r == f + [(k, v)]
    ensures forall i :: 0 <= i < |f| ==> r[i].0 == f[i].0
    ensures forall i :: 0 <= i < |f| && f[i].0 != k ==> r[i] == f[i]
  {
    if |f| == 0 then [(k, v)]
    else if f[0].0 == k then [(k, v)] + f[1..]
    else [f[0]] + PutField(f[1..], k, v)
  }

  /** `delete obj[k]`. */
  function DeleteField(f: Fields, k: string): (r: Fields)
    ensures !HasKey(r, k)
    ensures |r| <= |f|
    ensures !HasKey(f, k) ==> r == f
  {
    if |f| == 0 then []
    else if f[0].0 == k then DeleteField(f[1..], k)
    else [f[0]] + DeleteField(f[1..], k)
  }

  lemma {:induction false} GetPutSame(f: Fields, k: string, v: Value)
    ensures GetField(PutField(f, k, v), k) == Some(v)
  {
    if |f| > 0 && f[0].0 != k {
      GetPutSame(f[1..], k, v);
    }
  }

  lemma {:induction false} GetPutOther(f: Fields, k: string, v: Value, k': string)
    requires k' != k
    ensures GetField(PutField(f, k, v), k') == GetField(f, k')
  {
    if |f| > 0 && f[0].0 != k {
      GetPutOther(f[1..], k, v, k');
    }
  }

  lemma {:induction false} GetDeleteOther(f: Fields, k: string, k': string)
    requires k' != k
    ensures GetField(DeleteField(f, k), k') == GetField(f, k')
  {
    if |f| > 0 {
      GetDeleteOther(f[1..], k, k');
    }
  }

  lemma {:induction false} PutKeepsDistinct(f: Fields, k: string, v: Value)
    requires DistinctKeys(f)
    ensures DistinctKeys(PutField(f, k, v))
  {
    var r := PutField(f, k, v);
    if !HasKey(f, k) {
      forall i, j | 0 <= i < j < |r| ensures r[i].0 != r[j].0 {
        if j == |f| {
          assert r[i].0 == f[i].0;
        }
      }
    }
  }

  /** The rest of an object with distinct keys has distinct keys, none of
      them the first key. */
  lemma DistinctTail(f: Fields)
    requires |f| > 0 && DistinctKeys(f)
    ensures DistinctKeys(f[1..])
    ensures forall y :: y in f[1..] ==> y.0 != f[0].0 && y in f
  {
    forall y | y in f[1..] ensures y.0 != f[0].0 && y in f {
      var j :| 0 <= j < |f[1..]| && f[1..][j] == y;
      assert f[j + 1] == y;
    }
  }

  /** A field whose key is new to an object with distinct keys can go first. */
  lemma DistinctCons(x: (string, Value), d: Fields)
    requires DistinctKeys(d)
    requires forall y :: y in d ==> y.0 != x.0
    ensures DistinctKeys([x] + d)
  {
    var r := [x] + d;
    forall i, j | 0 <= i < j < |r| ensures r[i].0 != r[j].0 {
      assert r[j] == d[j - 1];
      if i > 0 {
        assert r[i] == d[i - 1];
      } else {
        assert d[j - 1] in d;
      }
    }
  }

  lemma {:induction false} DeleteKeepsDistinct(f: Fields, k: string)
    requires DistinctKeys(f)
    ensures DistinctKeys(DeleteField(f, k))
    ensures forall x :: x in DeleteField(f, k) ==> x in f
  {
    if |f| > 0 {
      DistinctTail(f);
      DeleteKeepsDistinct(f[1..], k);
      if f[0].0 != k {
        DistinctCons(f[0], DeleteField(f[1..], k));
      }
    }
  }

  /** Removing a field that was just added gives back the original object. */
  lemma {:induction false} DeleteAfterAppend(f: Fields, k: string, v: Value)
    requires !HasKey(f, k)
    ensures DeleteField(f + [(k, v)], k) == f
  {
    if |f| == 0 {
      assert [(k, v)][1..] == [];
    } else {
      assert (f + [(k, v)])[1..] == f[1..] + [(k, v)];
      assert f[0].0 != k;
      assert forall i :: 0 <= i < |f[1..]| ==> f[1..][i] == f[i + 1];
      DeleteAfterAppend(f[1..], k, v);
      assert [f[0]] + f[1..] == f;
    }
  }

  // ------------------------------------------------------------------ tags

  /** The type tags a server string may end with. */
  datatype Tag = ErrTag | ObjTag | IntTag | FloatTag | StrTag

  function Suffix(t: Tag): string
  {
    match t
    case ErrTag => "|err"
    case ObjTag => "|obj"
    case IntTag => "|int"
    case FloatTag => "|float"
    case StrTag => "|str"
  }

  /** A server string split into its tag (if any) and the text before it. */
  datatype Tagged = Tagged(tag: Option<Tag>, base: string)

  /** The plain suffix test, which the library's `endsWith` computes
      (see `Text.EndsWith`, whose contract is this predicate). */
  predicate HasSuffix(s: string, suffix: string)
  {
    |suffix| <= |s| && s[|s| - |suffix|..] == suffix
  }

  lemma EndsWithIsSuffix(s: string, suffix: string)
    ensures EndsWith(s, suffix) == HasSuffix(s, suffix)
  {
  }

  /** The suffix test every renderer performs, in the order they perform it:
      `|err`, `|obj`, `|int`, `|float`, then `|str`; an untagged string keeps
      all its text. */
  function Classify(s: string): (r: Tagged)
    ensures r.tag.None? ==> r.base == s
    ensures r.tag.Some? ==> s == r.base + Suffix(r.tag.value)
  {
    if HasSuffix(s, "|err") then Tagged(Some(ErrTag), s[..|s| - 4])
    else if HasSuffix(s, "|obj") then Tagged(Some(ObjTag), s[..|s| - 4])
    else if HasSuffix(s, "|int") then Tagged(Some(IntTag), s[..|s| - 4])
    else if HasSuffix(s, "|float") then Tagged(Some(FloatTag), s[..|s| - 6])
    else if HasSuffix(s, "|str") then Tagged(Some(StrTag), s[..|s| - 4])
    else Tagged(None, s)
  }

  /** Appending a tag and classifying recovers the tag and the text, whatever
      the text is (so `"#0|obj|str"` is a `|str` string with text `"#0|obj"`). */
  lemma ClassifyTagged(base: string, t: Tag)
    ensures Classify(base + Suffix(t)) == Tagged(Some(t), base)
  {
    var u := Suffix(t);
    SplitTagged(base, t);
    SuffixOfConcat(base, u, "|err");
    if t != FloatTag {
      SuffixOfConcat(base, u, "|obj");
      SuffixOfConcat(base, u, "|int");
      SuffixOfConcat(base, u, "|str");
      ShortNotFloat(base, u);
    } else {
      SuffixOfConcat(base, u, "|obj");
      SuffixOfConcat(base, u, "|int");
      SuffixOfConcat(base, u, "|float");
    }
  }

  /** Whether a string ends in a suffix no longer than a tail appended to it
      depends on that tail alone. */
  lemma SuffixOfConcat(base: string, u: string, v: string)
    requires |v| <= |u|
    ensures HasSuffix(base + u, v) <==> u[|u| - |v|..] == v
  {
    var s := base + u;
    assert s[|s| - |v|..] == u[|u| - |v|..];
  }

  /** A string ending in a four-character tag does not end in `|float`. */
  lemma ShortNotFloat(base: string, u: string)
    requires |u| == 4 && u[0] == '|'
    ensures !HasSuffix(base + u, "|float")
  {
    var s := base + u;
    if 6 <= |s| {
      assert s[|s| - 6..][2] == u[0];
    }
  }

  /** A tagged string splits into its text and its suffix. */
  lemma SplitTagged(base: string, t: Tag)
    ensures (base + Suffix(t))[..|base|] == base
    ensures (base + Suffix(t))[|base|..] == Suffix(t)
  {
  }

  /** A string is untagged exactly when it ends in none of the five suffixes. */
  lemma ClassifyUntagged(s: string)
    ensures Classify(s).tag.None? <==> forall t: Tag :: !HasSuffix(s, Suffix(t))
  {
    var none := !HasSuffix(s, "|err") && !HasSuffix(s, "|obj") && !HasSuffix(s, "|int")
      && !HasSuffix(s, "|float") && !HasSuffix(s, "|str");
    assert Classify(s).tag.None? <==> none;
    assert (forall t: Tag :: !HasSuffix(s, Suffix(t))) <==> none by {
      assert Suffix(ErrTag) == "|err" && Suffix(ObjTag) == "|obj" && Suffix(IntTag) == "|int";
      assert Suffix(FloatTag) == "|float" && Suffix(StrTag) == "|str";
      if none {
        forall t: Tag ensures !HasSuffix(s, Suffix(t)) {
          match t
          case ErrTag =>
          case ObjTag =>
          case IntTag =>
          case FloatTag =>
          case StrTag =>
        }
      }
    }
  }

  /** Whether a value holds a null anywhere inside it. */
  predicate HasNull(v: Value)
  {
    match v
    case Null => true
    case Num(_) => false
    case Str(_) => false
    case List(items) => exists i :: 0 <= i < |items| && HasNull(items[i])
    case Obj(f) => exists i :: 0 <= i < |f| && HasNull(f[i].1)
  }

  // ------------------------------------------------------------- properties

  /** The canonical decimal form of an array index (no sign, no leading zero). */
  predicate IsIndexKey(k: string)
  {
    |k| >= 1 && (forall i :: 0 <= i < |k| ==> '0' <= k[i] <= '9') && (|k| == 1 || k[0] != '0')
  }

  /** `k in a ? a[k] : undefined` for an array `a`: its indices and `length`. */
  function ArrayMember(items: seq<Value>, k: string): (r: Option<Value>)
    ensures r.Some? <==> k == "length" || (IsIndexKey(k) && ParseDigits(k) < |items|)
  {
    if k == "length" then Some(Num(|items|))
    else if IsIndexKey(k) && ParseDigits(k) < |items| then Some(items[ParseDigits(k)])
    else None
  }

  /** `k in v ? v[k] : undefined`: the own properties of an object or an array
      (`in` throws a TypeError on null, numbers and strings). */
  function Member(v: Value, k: string): (r: Result<Option<Value>, Exception>)
    ensures r.Err? <==> !(v.Obj? || v.List?)
    ensures v.Obj? ==> r == Ok(GetField(v.fields, k))
  {
    match v
    case Obj(f) => Ok(GetField(f, k))
    case List(items) => Ok(ArrayMember(items, k))
    case _ => Err(TypeError)
  }

  /** The array index keys are exactly the decimal forms of the indices. */
  lemma DigitsIndexKey(n: nat)
    ensures IsIndexKey(Digits(n)) && ParseDigits(Digits(n)) == n
  {
    ParseDigitsOf(n);
  }
}
