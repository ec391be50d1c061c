/** `Moo.NestedModel`: a record whose attributes are addressed by dotted
    paths. `get("a.b.c")` walks the nested objects; `set` copies the top
    level, writes each `path -> value` pair into the copy (creating empty
    objects for missing steps) and installs the copy as the new attributes.
    Objects are values here: the copy shares nothing with the original. */
module Store {
  import opened Wrappers
  import opened Text
  import opened Values

  // ------------------------------------------------------------------ get

  /** The loop of `get`: with `value` the value reached so far, each further
      key descends one level; once the value is undefined or null it stays
      undefined, and descending into a number or a string throws. */
  function Walk(value: Option<Value>, keys: seq<string>): (r: Result<Option<Value>, Exception>)
    ensures |keys| == 0 ==> r == Ok(value)
    ensures value.None? || value == Some(Null) ==> r == Ok(if |keys| == 0 then value else None)
    decreases |keys|
  {
    if |keys| == 0 then Ok(value)
    else
      match value
      case None => Walk(None, keys[1..])
      case Some(Null) => Walk(None, keys[1..])
      case Some(x) =>
        match Member(x, keys[0])
        case Err(e) => Err(e)
        case Ok(m) => Walk(m, keys[1..])
  }

  /** `get(attr)`: the top-level field named by the first segment, then the
      walk through the others. */
  function Lookup(attrs: Fields, attr: string): Result<Option<Value>, Exception>
  {
    var path := Split(attr, '.');
    Walk(GetField(attrs, path[0]), path[1..])
  }

  /** `has(attr)`: whether `get` finds something other than null. */
  function Present(attrs: Fields, attr: string): (r: Result<bool, Exception>)
    ensures r.Err? <==> Lookup(attrs, attr).Err?
    ensures r == Ok(true) <==> exists x :: x != Null && Lookup(attrs, attr) == Ok(Some(x))
  {
    match Lookup(attrs, attr)
    case Err(e) => Err(e)
    case Ok(None) => Ok(false)
    case Ok(Some(x)) => Ok(x != Null)
  }

  // ------------------------------------------------------------------ set

  /** Why `set` fails: it throws (writing below null, or using `in` on a
      number or a string), or its path steps into an array, whose
      non-index properties this model does not represent. */
  datatype SetError = Thrown(e: Exception) | ArrayOnPath

  /** The cursor walk of `set`, with `top` the object the cursor is in and
      `last` the key it points at: a missing key becomes `{}`, an object is
      entered, and at the end `top[last] = value`. A number or a string as
      the last `top` ignores the write, as JavaScript does outside strict
      mode; one any earlier throws, and so does null. */
  function Place(top: Fields, last: string, rest: seq<string>, v: Value): (r: Result<Fields, SetError>)
    decreases |rest|
  {
    if |rest| == 0 then Ok(PutField(top, last, v))
    else
      var child := if HasKey(top, last) then GetField(top, last).value else Obj([]);
      match child
      case Obj(g) =>
        (match Place(g, rest[0], rest[1..], v)
         case Ok(g') => Ok(PutField(top, last, Obj(g')))
         case Err(e) => Err(e))
      case Null => Err(Thrown(TypeError))
      case List(_) => Err(ArrayOnPath)
      case _ => if |rest| == 1 then Ok(top) else Err(Thrown(TypeError))
  }

  /** One `path -> value` pair written into the working copy. */
  function Assign(attrs: Fields, attr: string, v: Value): Result<Fields, SetError>
  {
    var path := Split(attr, '.');
    Place(attrs, path[0], path[1..], v)
  }

  /** All the pairs, in order; the first failure aborts the whole `set`. */
  function ApplyAll(attrs: Fields, pairs: Fields): Result<Fields, SetError>
    decreases |pairs|
  {
    if |pairs| == 0 then Ok(attrs)
    else
      match Assign(attrs, pairs[0].0, pairs[0].1)
      case Ok(a) => ApplyAll(a, pairs[1..])
      case Err(e) => Err(e)
  }

  /** The attributes `set` installs, or the error it raises. 0.0.2 drops a
      `toHTML` key from the copy before the pairs are written into it. */
  function SetResult(version: Version, attrs: Fields, pairs: Fields): Result<Fields, SetError>
  {
    ApplyAll(if version == V002 then DeleteField(attrs, "toHTML") else attrs, pairs)
  }

  /** A write keeps the field names of the top-level object distinct: it
      either writes the field `last` or leaves the object as it was. */
  lemma PlaceKeepsDistinct(top: Fields, last: string, rest: seq<string>, v: Value)
    requires DistinctKeys(top)
    ensures Place(top, last, rest, v).Ok? ==> DistinctKeys(Place(top, last, rest, v).value)
  {
    if |rest| == 0 {
      PutKeepsDistinct(top, last, v);
    } else {
      var child := if HasKey(top, last) then GetField(top, last).value else Obj([]);
      if child.Obj? && Place(child.fields, rest[0], rest[1..], v).Ok? {
        PutKeepsDistinct(top, last, Obj(Place(child.fields, rest[0], rest[1..], v).value));
      }
    }
  }

  lemma {:induction false} ApplyAllKeepsDistinct(attrs: Fields, pairs: Fields)
    requires DistinctKeys(attrs)
    ensures ApplyAll(attrs, pairs).Ok? ==> DistinctKeys(ApplyAll(attrs, pairs).value)
    decreases |pairs|
  {
    if |pairs| > 0 {
      var path := Split(pairs[0].0, '.');
      PlaceKeepsDistinct(attrs, path[0], path[1..], pairs[0].1);
      if Assign(attrs, pairs[0].0, pairs[0].1).Ok? {
        ApplyAllKeepsDistinct(Assign(attrs, pairs[0].0, pairs[0].1).value, pairs[1..]);
      }
    }
  }

  /** The attributes of `new Model(attrs)`: `set` on an empty record, then
      the `initialize` of 0.0.2 and 0.0.0, which removes a `toHTML` key. */
  function Constructed(version: Version, attrs: Fields): (r: Result<Fields, SetError>)
    ensures r.Err? <==> SetResult(version, [], attrs).Err?
    ensures r.Ok? && version != V004 ==> !HasKey(r.value, "toHTML")
  {
    match SetResult(version, [], attrs)
    case Ok(a) => Ok(if version == V004 then a else DeleteField(a, "toHTML"))
    case Err(e) => Err(e)
  }

  /** A record the constructor keeps as it is: distinct keys, none holding
      a `.`, and no `toHTML` where `initialize` removes it. */
  predicate PlainRecord(version: Version, attrs: Fields)
  {
    DistinctKeys(attrs) && (forall i :: 0 <= i < |attrs| ==> '.' !in attrs[i].0) &&
    (version != V004 ==> !HasKey(attrs, "toHTML"))
  }

  /** A key without a `.` is a path of one segment. */
  lemma UndottedKey(k: string)
    requires '.' !in k
    ensures Split(k, '.') == [k]
  {
    assert Join([k], ".") == k;
    SplitJoin([k], '.');
  }

  /** Pairs with new, distinct, undotted keys are appended as they are. */
  lemma {:induction false} ApplyAllFresh(acc: Fields, pairs: Fields)
    requires DistinctKeys(acc + pairs)
    requires forall i :: 0 <= i < |pairs| ==> '.' !in pairs[i].0
    ensures ApplyAll(acc, pairs) == Ok(acc + pairs)
    decreases |pairs|
  {
    if |pairs| > 0 {
      var k := pairs[0].0;
      UndottedKey(k);
      FreshKey(acc, pairs);
      assert pairs[0] == (k, pairs[0].1);
      assert Assign(acc, k, pairs[0].1) == Ok(acc + [pairs[0]]);
      assert (acc + [pairs[0]]) + pairs[1..] == acc + pairs;
      assert forall i :: 0 <= i < |pairs[1..]| ==> pairs[1..][i] == pairs[i + 1];
      ApplyAllFresh(acc + [pairs[0]], pairs[1..]);
      assert ApplyAll(acc, pairs) == ApplyAll(acc + [pairs[0]], pairs[1..]);
    } else {
      assert acc + pairs == acc;
    }
  }

  /** The first pair's key is not among the keys already there. */
  lemma FreshKey(acc: Fields, pairs: Fields)
    requires |pairs| > 0 && DistinctKeys(acc + pairs)
    ensures !HasKey(acc, pairs[0].0)
  {
    assert forall i :: 0 <= i < |acc| ==> (acc + pairs)[i] == acc[i];
    assert (acc + pairs)[|acc|] == pairs[0];
  }

  /** The constructor keeps a plain record as it is, in every version. */
  lemma ConstructedPlain(version: Version, attrs: Fields)
    requires PlainRecord(version, attrs)
    ensures Constructed(version, attrs) == Ok(attrs)
  {
    assert DeleteField([], "toHTML") == [];
    assert [] + attrs == attrs;
    ApplyAllFresh([], attrs);
  }

  // ------------------------------------------------------------ the model

  /** The rebuilding of nested objects after a write far down: `stack[i]` is
      the object the cursor was in at depth `i` and `keys[i]` the key it
      descended through. */
  ghost function Rebuild(stack: seq<Fields>, keys: seq<string>, r: Result<Fields, SetError>): Result<Fields, SetError>
    requires |stack| == |keys|
    decreases |stack|
  {
    if |stack| == 0 then r
    else
      var n := |stack| - 1;
      match r
      case Ok(inner) => Rebuild(stack[..n], keys[..n], Ok(PutField(stack[n], keys[n], Obj(inner))))
      case Err(e) => Err(e)
  }

  lemma RebuildErr(stack: seq<Fields>, keys: seq<string>, e: SetError)
    requires |stack| == |keys|
    ensures Rebuild(stack, keys, Err(e)) == Err(e)
  {
  }

  lemma RebuildPush(stack: seq<Fields>, keys: seq<string>, top: Fields, last: string, r: Result<Fields, SetError>)
    requires |stack| == |keys|
    ensures Rebuild(stack + [top], keys + [last], r)
      == Rebuild(stack, keys, match r case Ok(inner) => Ok(PutField(top, last, Obj(inner))) case Err(e) => Err(e))
  {
    assert (stack + [top])[..|stack|] == stack;
    assert (keys + [last])[..|keys|] == keys;
    if r.Err? {
      RebuildErr(stack, keys, r.error);
    }
  }

  /** `Place` through an object child is `Place` one level down, put back. */
  lemma PlaceEnters(top: Fields, last: string, rest: seq<string>, v: Value, g: Fields)
    requires |rest| > 0
    requires (if HasKey(top, last) then GetField(top, last).value else Obj([])) == Obj(g)
    ensures var below := Place(g, rest[0], rest[1..], v);
            Place(top, last, rest, v)
              == if below.Ok? then Ok(PutField(top, last, Obj(below.value))) else Err(below.error)
  {
  }

  /** `Place` at a child that is not an object. */
  lemma PlaceStops(top: Fields, last: string, rest: seq<string>, v: Value, child: Value)
    requires |rest| > 0
    requires child == (if HasKey(top, last) then GetField(top, last).value else Obj([]))
    requires !child.Obj?
    ensures Place(top, last, rest, v)
         == if child.Null? then Err(Thrown(TypeError))
            else if child.List? then Err(ArrayOnPath)
            else if |rest| == 1 then Ok(top)
            else Err(Thrown(TypeError))
  {
  }

  /** One step down: entering the object `g` under `last` moves the pending
      write one level deeper without changing what it rebuilds to. */
  lemma DescendStep(stack: seq<Fields>, keys: seq<string>, top: Fields, last: string,
                    rest: seq<string>, v: Value, g: Fields)
    requires |stack| == |keys| && |rest| > 0
    requires (if HasKey(top, last) then GetField(top, last).value else Obj([])) == Obj(g)
    ensures Rebuild(stack + [top], keys + [last], Place(g, rest[0], rest[1..], v))
         == Rebuild(stack, keys, Place(top, last, rest, v))
  {
    PlaceEnters(top, last, rest, v, g);
    RebuildPush(stack, keys, top, last, Place(g, rest[0], rest[1..], v));
  }

  /** A step that cannot go down: null, an array and a scalar that is not
      last throw; a scalar that is last ignores the write. */
  lemma StopStep(stack: seq<Fields>, keys: seq<string>, top: Fields, last: string,
                 rest: seq<string>, v: Value, child: Value)
    requires |stack| == |keys| && |rest| > 0
    requires child == (if HasKey(top, last) then GetField(top, last).value else Obj([]))
    requires !child.Obj?
    ensures child.Null? ==> Rebuild(stack, keys, Place(top, last, rest, v)) == Err(Thrown(TypeError))
    ensures child.List? ==> Rebuild(stack, keys, Place(top, last, rest, v)) == Err(ArrayOnPath)
    ensures !child.Null? && !child.List? && |rest| > 1 ==>
              Rebuild(stack, keys, Place(top, last, rest, v)) == Err(Thrown(TypeError))
    ensures !child.Null? && !child.List? && |rest| == 1 ==> Place(top, last, rest, v) == Ok(top)
  {
    PlaceStops(top, last, rest, v, child);
    if child.Null? || (!child.List? && |rest| > 1) {
      RebuildErr(stack, keys, Thrown(TypeError));
    } else if child.List? {
      RebuildErr(stack, keys, ArrayOnPath);
    }
  }

  class NestedModel {
    const version: Version
    var attributes: Fields

    /** No field name twice, as in any JavaScript object. */
    ghost predicate Valid()
      reads this
    {
      DistinctKeys(attributes)
    }

    /** A record with no attributes. */
    constructor(version: Version)
      ensures this.version == version && attributes == []
      ensures Valid()
    {
      this.version := version;
      attributes := [];
    }

    /** `new Model(attrs)`: the constructor runs `set` on the attributes
        given, and the `initialize` of 0.0.2 and 0.0.0 then removes a
        `toHTML` key. */
    static method Create(version: Version, attrs: Fields) returns (r: Result<NestedModel, SetError>)
      ensures r.Ok? ==> fresh(r.value) && r.value.Valid() && r.value.version == version
      ensures Constructed(version, attrs).Err? <==> r.Err?
      ensures r.Ok? ==> r.value.attributes == Constructed(version, attrs).value
      ensures r.Err? ==> r.error == Constructed(version, attrs).error
    {
      var m := new NestedModel(version);
      var err := m.SetAll(attrs);
      if err.Some? {
        return Err(err.value);
      }
      if version != V004 {
        DeleteKeepsDistinct(m.attributes, "toHTML");
        m.attributes := DeleteField(m.attributes, "toHTML");
      }
      return Ok(m);
    }

    /** `get(attr)`. */
    method Get(attr: string) returns (r: Result<Option<Value>, Exception>)
      ensures r == Lookup(attributes, attr)
    {
      var path := Split(attr, '.');
      var value := GetField(attributes, path[0]);
      var i := 1;
      while i < |path|
        invariant 1 <= i <= |path|
        invariant Walk(value, path[i..]) == Lookup(attributes, attr)
      {
        assert path[i..][1..] == path[i + 1..];
        if value.None? || value == Some(Null) {
          value := None;
        } else {
          var m := Member(value.value, path[i]);
          if m.Err? {
            return Err(m.error);
          }
          value := m.value;
        }
        i := i + 1;
      }
      return Ok(value);
    }

    /** `has(attr)`. */
    method Has(attr: string) returns (r: Result<bool, Exception>)
      ensures r == Present(attributes, attr)
    {
      var value := Get(attr);
      match value
      case Err(e) => return Err(e);
      case Ok(None) => return Ok(false);
      case Ok(Some(x)) => return Ok(x != Null);
    }

    /** `set(key, value)`. */
    method Set(key: string, value: Value) returns (err: Option<SetError>)
      requires Valid()
      modifies this
      ensures Valid()
      ensures SetResult(version, old(attributes), [(key, value)]).Err? <==> err.Some?
      ensures err.None? ==> attributes == SetResult(version, old(attributes), [(key, value)]).value
      ensures err.Some? ==> attributes == old(attributes) && SetResult(version, old(attributes), [(key, value)]).error == err.value
    {
      err := SetAll([(key, value)]);
    }

    /** `set(attrs)`: the working copy is filled field by field, each pair
        is written into it, and it replaces the attributes. */
    method SetAll(pairs: Fields) returns (err: Option<SetError>)
      requires Valid()
      modifies this
      ensures Valid()
      ensures SetResult(version, old(attributes), pairs).Err? <==> err.Some?
      ensures err.None? ==> attributes == SetResult(version, old(attributes), pairs).value
      ensures err.Some? ==> attributes == old(attributes) && SetResult(version, old(attributes), pairs).error == err.value
    {
      var working := Copy(attributes);
      if version == V002 {
        DeleteKeepsDistinct(working, "toHTML");
        working := DeleteField(working, "toHTML");
      }
      ghost var start := working;
      var j := 0;
      while j < |pairs|
        invariant 0 <= j <= |pairs|
        invariant attributes == old(attributes)
        invariant DistinctKeys(working)
        invariant ApplyAll(working, pairs[j..]) == ApplyAll(start, pairs)
      {
        assert pairs[j..][1..] == pairs[j + 1..];
        var r := WriteOne(working, pairs[j].0, pairs[j].1);
        if r.Err? {
          return Some(r.error);
        }
        working := r.value;
        j := j + 1;
      }
      attributes := working;
      return None;
    }

    /** The `_.inject` at the start of `set`: a fresh object with the same
        fields, in the same order. */
    static method Copy(attributes: Fields) returns (working: Fields)
      requires DistinctKeys(attributes)
      ensures working == attributes
    {
      working := [];
      var i := 0;
      while i < |attributes|
        invariant 0 <= i <= |attributes|
        invariant working == attributes[..i]
      {
        assert !HasKey(working, attributes[i].0);
        working := PutField(working, attributes[i].0, attributes[i].1);
        assert attributes[..i + 1] == attributes[..i] + [attributes[i]];
        i := i + 1;
      }
    }

    /** The body of `set`'s loop for one pair: the cursor walks down,
        remembering the objects it passed; the value is written; the objects
        passed are rebuilt from the bottom up. */
    static method WriteOne(working: Fields, attr: string, v: Value) returns (r: Result<Fields, SetError>)
      requires DistinctKeys(working)
      ensures r == Assign(working, attr, v)
      ensures r.Ok? ==> DistinctKeys(r.value)
    {
      var path := Split(attr, '.');
      PlaceKeepsDistinct(working, path[0], path[1..], v);
      var stack: seq<Fields> := [];
      var keys: seq<string> := [];
      var top := working;
      var last := path[0];
      var ignored := false;
      var k := 1;
      while k < |path|
        invariant 1 <= k <= |path|
        invariant |stack| == |keys|
        invariant !ignored ==> Rebuild(stack, keys, Place(top, last, path[k..], v)) == Assign(working, attr, v)
        invariant ignored ==> k == |path| && Rebuild(stack, keys, Ok(top)) == Assign(working, attr, v)
      {
        assert path[k..][1..] == path[k + 1..];
        var child := if HasKey(top, last) then GetField(top, last).value else Obj([]);
        match child {
          case Obj(g) =>
            DescendStep(stack, keys, top, last, path[k..], v, g);
            stack := stack + [top];
            keys := keys + [last];
            top := g;
            last := path[k];
          case Null =>
            StopStep(stack, keys, top, last, path[k..], v, child);
            return Err(Thrown(TypeError));
          case List(_) =>
            StopStep(stack, keys, top, last, path[k..], v, child);
            return Err(ArrayOnPath);
          case _ =>
            StopStep(stack, keys, top, last, path[k..], v, child);
            if k + 1 < |path| {
              return Err(Thrown(TypeError));
            }
            ignored := true;
        }
        k := k + 1;
      }
      if !ignored {
        top := PutField(top, last, v);
      }
      var rebuilt := Climb(stack, keys, top);
      return Ok(rebuilt);
    }

    /** The way back up: each object passed gets the rebuilt object below
        it under the key the cursor took. */
    static method Climb(stack: seq<Fields>, keys: seq<string>, bottom: Fields) returns (r: Fields)
      requires |stack| == |keys|
      ensures Rebuild(stack, keys, Ok(bottom)) == Ok(r)
    {
      var s := stack;
      var ks := keys;
      r := bottom;
      while |s| > 0
        invariant |s| == |ks|
        invariant Rebuild(s, ks, Ok(r)) == Rebuild(stack, keys, Ok(bottom))
        decreases |s|
      {
        var n := |s| - 1;
        r := PutField(s[n], ks[n], Obj(r));
        s := s[..n];
        ks := ks[..n];
      }
    }
  }

  // --------------------------------------------------------- properties

  /** Setting pairs one call at a time is setting them all in one call:
      `set(a); set(b)` leaves the attributes that `set(a + b)` leaves. */
  lemma {:induction false} ApplyAllAppend(attrs: Fields, first: Fields, second: Fields)
    ensures ApplyAll(attrs, first + second)
      == match ApplyAll(attrs, first) case Ok(a) => ApplyAll(a, second) case Err(e) => Err(e)
    decreases |first|
  {
    if |first| == 0 {
      assert first + second == second;
    } else {
      assert (first + second)[0] == first[0];
      assert (first + second)[1..] == first[1..] + second;
      match Assign(attrs, first[0].0, first[0].1)
      case Ok(a) => ApplyAllAppend(a, first[1..], second);
      case Err(_) =>
    }
  }

  /** The cursor of `set` reaches the end of the path: every step is an
      object or is missing (and so becomes `{}`). */
  predicate Writable(top: Fields, last: string, rest: seq<string>)
    decreases |rest|
  {
    |rest| == 0 ||
    (!HasKey(top, last) && Writable([], rest[0], rest[1..])) ||
    (HasKey(top, last) && GetField(top, last).value.Obj? &&
     Writable(GetField(top, last).value.fields, rest[0], rest[1..]))
  }

  /** After a write that reaches its end, walking the same path finds the
      value written. */
  lemma {:induction false} PlaceThenWalk(top: Fields, last: string, rest: seq<string>, v: Value)
    requires Writable(top, last, rest)
    ensures Place(top, last, rest, v).Ok?
    ensures Walk(GetField(Place(top, last, rest, v).value, last), rest) == Ok(Some(v))
    decreases |rest|
  {
    if |rest| == 0 {
      GetPutSame(top, last, v);
    } else {
      var g := if HasKey(top, last) then GetField(top, last).value.fields else [];
      PlaceThenWalk(g, rest[0], rest[1..], v);
      var inner := Place(g, rest[0], rest[1..], v).value;
      GetPutSame(top, last, Obj(inner));
      assert Member(Obj(inner), rest[0]) == Ok(GetField(inner, rest[0]));
    }
  }

  /** `set(attr, v)` followed by `get(attr)` gives `v` back, when the path
      runs through objects or through nothing. */
  lemma SetThenGet(attrs: Fields, attr: string, v: Value)
    requires Writable(attrs, Split(attr, '.')[0], Split(attr, '.')[1..])
    ensures Assign(attrs, attr, v).Ok?
    ensures Lookup(Assign(attrs, attr, v).value, attr) == Ok(Some(v))
  {
    var path := Split(attr, '.');
    PlaceThenWalk(attrs, path[0], path[1..], v);
  }

  /** Writing a field with the value it already has changes nothing. */
  lemma {:induction false} PutExisting(f: Fields, k: string)
    requires HasKey(f, k)
    ensures PutField(f, k, GetField(f, k).value) == f
  {
    if f[0].0 != k {
      assert HasKey(f[1..], k) by {
        var i :| 0 <= i < |f| && f[i].0 == k;
        assert f[1..][i - 1].0 == k;
      }
      PutExisting(f[1..], k);
    }
  }

  /** A write blocked by a number or a string on its path, one that
      JavaScript ignores instead of throwing, leaves the object as it was. */
  lemma {:induction false} BlockedPlaceIgnored(top: Fields, last: string, rest: seq<string>, v: Value)
    requires Place(top, last, rest, v).Ok? && !Writable(top, last, rest)
    ensures Place(top, last, rest, v) == Ok(top)
    decreases |rest|
  {
    if HasKey(top, last) && GetField(top, last).value.Obj? {
      var g := GetField(top, last).value.fields;
      BlockedPlaceIgnored(g, rest[0], rest[1..], v);
      PutExisting(top, last);
    } else if !HasKey(top, last) {
      EmptyWritable(rest[0], rest[1..]);
    }
  }

  /** Below a missing key everything is missing, so the cursor always gets
      through. */
  lemma {:induction false} EmptyWritable(last: string, rest: seq<string>)
    ensures Writable([], last, rest)
    decreases |rest|
  {
    if |rest| > 0 {
      EmptyWritable(rest[0], rest[1..]);
    }
  }

  /** A write only touches the field `last` of the object the cursor
      starts in. */
  lemma PlaceKeepsOtherField(top: Fields, last: string, rest: seq<string>, v: Value, k: string)
    requires k != last
    requires Place(top, last, rest, v).Ok?
    ensures GetField(Place(top, last, rest, v).value, k) == GetField(top, k)
  {
    if |rest| == 0 {
      GetPutOther(top, last, v, k);
    } else {
      var child := if HasKey(top, last) then GetField(top, last).value else Obj([]);
      if child.Obj? {
        GetPutOther(top, last, Obj(Place(child.fields, rest[0], rest[1..], v).value), k);
      }
    }
  }

  /** A top-level field holding a number or a string survives a write that
      does not name it: a path through it is ignored at its last step, and
      a longer one throws. */
  lemma ScalarSurvivesPlace(top: Fields, last: string, rest: seq<string>, v: Value, k: string, x: Value)
    requires GetField(top, k) == Some(x) && (x.Num? || x.Str?)
    requires |rest| > 0 || last != k
    requires Place(top, last, rest, v).Ok?
    ensures GetField(Place(top, last, rest, v).value, k) == Some(x)
  {
    if last != k {
      PlaceKeepsOtherField(top, last, rest, v, k);
    } else {
      PlaceStops(top, last, rest, v, x);
    }
  }

  /** The same for a whole `set` none of whose keys is `k` itself. */
  lemma {:induction false} ApplyAllKeepsScalar(attrs: Fields, pairs: Fields, k: string, x: Value)
    requires GetField(attrs, k) == Some(x) && (x.Num? || x.Str?)
    requires forall i :: 0 <= i < |pairs| ==> pairs[i].0 != k
    requires ApplyAll(attrs, pairs).Ok?
    ensures GetField(ApplyAll(attrs, pairs).value, k) == Some(x)
    decreases |pairs|
  {
    if |pairs| > 0 {
      var path := Split(pairs[0].0, '.');
      if |path| == 1 {
        assert Join(path, ".") == path[0];
      }
      ScalarSurvivesPlace(attrs, path[0], path[1..], pairs[0].1, k, x);
      var a := Assign(attrs, pairs[0].0, pairs[0].1).value;
      assert forall i :: 0 <= i < |pairs[1..]| ==> pairs[1..][i] == pairs[i + 1];
      ApplyAllKeepsScalar(a, pairs[1..], k, x);
    }
  }

  /** A model constructed from a record whose `id` is a number or a string
      keeps that `id`, whatever dotted keys the record also holds. */
  lemma ConstructedKeepsId(version: Version, attrs: Fields, x: Value)
    requires DistinctKeys(attrs) && GetField(attrs, "id") == Some(x) && (x.Num? || x.Str?)
    requires Constructed(version, attrs).Ok?
    ensures GetField(Constructed(version, attrs).value, "id") == Some(x)
  {
    assert DeleteField([], "toHTML") == [];
    assert SetResult(version, [], attrs) == ApplyAll([], attrs);
    SetKeepsId(attrs, x);
    if version != V004 {
      GetDeleteOther(ApplyAll([], attrs).value, "toHTML", "id");
    }
  }

  /** The `set` of the constructor keeps such an `id`. */
  lemma SetKeepsId(attrs: Fields, x: Value)
    requires DistinctKeys(attrs) && GetField(attrs, "id") == Some(x) && (x.Num? || x.Str?)
    requires ApplyAll([], attrs).Ok?
    ensures GetField(ApplyAll([], attrs).value, "id") == Some(x)
  {
    var j :| 0 <= j < |attrs| && attrs[j] == ("id", x);
    AroundIndex(attrs, j);
    LaterKeys(attrs, j, attrs[j + 1..]);
    IdBetween(attrs[..j], x, attrs[j + 1..]);
  }

  /** No key after the one at index `j` repeats it. */
  lemma LaterKeys(attrs: Fields, j: nat, after: Fields)
    requires DistinctKeys(attrs) && j < |attrs| && after == attrs[j + 1..]
    ensures forall i :: 0 <= i < |after| ==> after[i].0 != attrs[j].0
  {
    forall i | 0 <= i < |after|
      ensures after[i].0 != attrs[j].0
    {
      assert after[i] == attrs[j + 1 + i];
    }
  }

  /** The `id` pair written between other pairs, none of the later ones
      being `id` itself, survives the whole `set`. */
  lemma IdBetween(before: Fields, x: Value, after: Fields)
    requires x.Num? || x.Str?
    requires forall i :: 0 <= i < |after| ==> after[i].0 != "id"
    requires ApplyAll([], before + ([("id", x)] + after)).Ok?
    ensures GetField(ApplyAll([], before + ([("id", x)] + after)).value, "id") == Some(x)
  {
    ApplyAllAppend([], before, [("id", x)] + after);
    IdPairSurvives(ApplyAll([], before).value, x, after);
  }

  /** A list is what comes before index `j`, the element there, and what
      comes after. */
  lemma AroundIndex(attrs: Fields, j: nat)
    requires j < |attrs|
    ensures attrs == attrs[..j] + ([attrs[j]] + attrs[j + 1..])
  {
    assert [attrs[j]] + attrs[j + 1..] == attrs[j..];
    assert attrs[..j] + attrs[j..] == attrs;
  }

  /** Writing `id` and then pairs none of which is `id` keeps the `id`. */
  lemma IdPairSurvives(attrs: Fields, x: Value, after: Fields)
    requires x.Num? || x.Str?
    requires forall i :: 0 <= i < |after| ==> after[i].0 != "id"
    requires ApplyAll(attrs, [("id", x)] + after).Ok?
    ensures GetField(ApplyAll(attrs, [("id", x)] + after).value, "id") == Some(x)
  {
    ApplyAllAppend(attrs, [("id", x)], after);
    UndottedKey("id");
    assert ApplyAll(attrs, [("id", x)]) == Ok(PutField(attrs, "id", x));
    GetPutSame(attrs, "id", x);
    ApplyAllKeepsScalar(PutField(attrs, "id", x), after, "id", x);
  }

  /** `set(attr, v)` only touches the top-level field named by the first
      segment of `attr`. */
  lemma SetKeepsOtherFields(attrs: Fields, attr: string, v: Value, k: string)
    requires k != Split(attr, '.')[0]
    requires Assign(attrs, attr, v).Ok?
    ensures GetField(Assign(attrs, attr, v).value, k) == GetField(attrs, k)
  {
    var path := Split(attr, '.');
    PlaceKeepsOtherField(attrs, path[0], path[1..], v, k);
  }

  /** ... and so `get` of a path with another first segment gives what it
      gave before. */
  lemma SetKeepsOtherPaths(attrs: Fields, attr: string, v: Value, other: string)
    requires Split(other, '.')[0] != Split(attr, '.')[0]
    requires Assign(attrs, attr, v).Ok?
    ensures Lookup(Assign(attrs, attr, v).value, other) == Lookup(attrs, other)
  {
    SetKeepsOtherFields(attrs, attr, v, Split(other, '.')[0]);
  }

  /** Whether two paths part somewhere: they agree up to a segment at which
      both go on, with different keys. Neither is then a prefix of the
      other. */
  predicate Diverge(p: seq<string>, q: seq<string>)
    decreases |p|
  {
    |p| > 0 && |q| > 0 && (p[0] != q[0] || Diverge(p[1..], q[1..]))
  }

  /** A write leaves every path that parts from its own reading as before,
      however deep below a shared root the two part (writing `foo.baz`
      keeps `foo.bar`). */
  lemma {:induction false} PlaceKeepsDivergent(top: Fields, last: string, rest: seq<string>, v: Value,
                                               olast: string, orest: seq<string>)
    requires Diverge([last] + rest, [olast] + orest)
    requires Place(top, last, rest, v).Ok?
    ensures Walk(GetField(Place(top, last, rest, v).value, olast), orest) == Walk(GetField(top, olast), orest)
    decreases |rest|
  {
    assert ([last] + rest)[1..] == rest && ([olast] + orest)[1..] == orest;
    if last != olast {
      PlaceKeepsOtherField(top, last, rest, v, olast);
    } else {
      var child := if HasKey(top, last) then GetField(top, last).value else Obj([]);
      if child.Obj? {
        var g := child.fields;
        var g' := Place(g, rest[0], rest[1..], v).value;
        assert [rest[0]] + rest[1..] == rest && [orest[0]] + orest[1..] == orest;
        PlaceKeepsDivergent(g, rest[0], rest[1..], v, orest[0], orest[1..]);
        GetPutSame(top, last, Obj(g'));
        WalkObject(g', orest);
        WalkObject(g, orest);
      }
    }
  }

  /** Walking on from an object looks its first key up among its fields. */
  lemma WalkObject(g: Fields, keys: seq<string>)
    requires |keys| > 0
    ensures Walk(Some(Obj(g)), keys) == Walk(GetField(g, keys[0]), keys[1..])
  {
  }

  /** `set(attr, v)` leaves `get` of every path that parts from `attr` as
      it was. */
  lemma SetKeepsDivergentPaths(attrs: Fields, attr: string, v: Value, other: string)
    requires Diverge(Split(attr, '.'), Split(other, '.'))
    requires Assign(attrs, attr, v).Ok?
    ensures Lookup(Assign(attrs, attr, v).value, other) == Lookup(attrs, other)
  {
    var p := Split(attr, '.');
    var q := Split(other, '.');
    assert [p[0]] + p[1..] == p && [q[0]] + q[1..] == q;
    PlaceKeepsDivergent(attrs, p[0], p[1..], v, q[0], q[1..]);
  }

  /** A whole `set` leaves every top-level field that no path names
      as it was. */
  lemma {:induction false} ApplyAllKeepsOtherFields(attrs: Fields, pairs: Fields, k: string)
    requires forall i :: 0 <= i < |pairs| ==> Split(pairs[i].0, '.')[0] != k
    requires ApplyAll(attrs, pairs).Ok?
    ensures GetField(ApplyAll(attrs, pairs).value, k) == GetField(attrs, k)
    decreases |pairs|
  {
    if |pairs| > 0 {
      var a := Assign(attrs, pairs[0].0, pairs[0].1).value;
      SetKeepsOtherFields(attrs, pairs[0].0, pairs[0].1, k);
      assert forall i :: 0 <= i < |pairs| - 1 ==> pairs[1..][i] == pairs[i + 1];
      ApplyAllKeepsOtherFields(a, pairs[1..], k);
    }
  }

  /** ... and every path that parts from all the paths written. */
  lemma {:induction false} ApplyAllKeepsDivergentPaths(attrs: Fields, pairs: Fields, other: string)
    requires forall i :: 0 <= i < |pairs| ==> Diverge(Split(pairs[i].0, '.'), Split(other, '.'))
    requires ApplyAll(attrs, pairs).Ok?
    ensures Lookup(ApplyAll(attrs, pairs).value, other) == Lookup(attrs, other)
    decreases |pairs|
  {
    if |pairs| > 0 {
      var a := Assign(attrs, pairs[0].0, pairs[0].1).value;
      SetKeepsDivergentPaths(attrs, pairs[0].0, pairs[0].1, other);
      assert forall i :: 0 <= i < |pairs| - 1 ==> pairs[1..][i] == pairs[i + 1];
      ApplyAllKeepsDivergentPaths(a, pairs[1..], other);
    }
  }

  /** `set` in any release keeps a top-level field no path names, except
      that 0.0.2 drops `toHTML`. */
  lemma SetResultKeepsOtherFields(version: Version, attrs: Fields, pairs: Fields, k: string)
    requires forall i :: 0 <= i < |pairs| ==> Split(pairs[i].0, '.')[0] != k
    requires version == V002 ==> k != "toHTML"
    requires SetResult(version, attrs, pairs).Ok?
    ensures GetField(SetResult(version, attrs, pairs).value, k) == GetField(attrs, k)
  {
    var start := if version == V002 then DeleteField(attrs, "toHTML") else attrs;
    ApplyAllKeepsOtherFields(start, pairs, k);
    if version == V002 {
      GetDeleteOther(attrs, "toHTML", k);
    }
  }

  /** After a 0.0.2 `set` none of whose paths starts at `toHTML`, the
      attributes hold no `toHTML` key, whatever they held before. */
  lemma SetLeavesNoToHtml(attrs: Fields, pairs: Fields)
    requires forall i :: 0 <= i < |pairs| ==> Split(pairs[i].0, '.')[0] != "toHTML"
    requires SetResult(V002, attrs, pairs).Ok?
    ensures !HasKey(SetResult(V002, attrs, pairs).value, "toHTML")
  {
    var start := DeleteField(attrs, "toHTML");
    ApplyAllKeepsOtherFields(start, pairs, "toHTML");
  }

  /** A path of dot-free segments splits back into those segments. */
  lemma SplitPath(parts: seq<string>)
    requires |parts| >= 1
    requires forall i :: 0 <= i < |parts| ==> '.' !in parts[i]
    ensures Split(Join(parts, "."), '.') == parts
  {
    SplitJoin(parts, '.');
  }

  /** `set('foo.bar', x)` then `set('foo.baz', y)` (or both at once): the
      second write goes into the object the first one made. */
  lemma OverlappingSet(version: Version, f: string, b: string, z: string, x: Value, y: Value)
    requires '.' !in f && '.' !in b && '.' !in z && b != z && f != "toHTML"
    ensures Constructed(version, [(Join([f, b], "."), x), (Join([f, z], "."), y)])
      == Ok([(f, Obj([(b, x), (z, y)]))])
  {
    var pairs := [(Join([f, b], "."), x), (Join([f, z], "."), y)];
    SplitPath([f, b]);
    SplitPath([f, z]);
    var one := [(f, Obj([(b, x)]))];
    var two := [(f, Obj([(b, x), (z, y)]))];
    FirstOfTwo(f, b, x);
    SecondOfTwo(f, b, x, z, y);
    assert ApplyAll(two, pairs[2..]) == Ok(two);
    assert ApplyAll(one, pairs[1..]) == Ok(two);
    assert DeleteField([], "toHTML") == [];
    assert SetResult(version, [], pairs) == Ok(two);
    assert DeleteField(two, "toHTML") == two;
  }

  lemma FirstOfTwo(f: string, b: string, x: Value)
    ensures Place([], f, [b], x) == Ok([(f, Obj([(b, x)]))])
  {
    assert Place([], b, [], x) == Ok([(b, x)]);
  }

  lemma SecondOfTwo(f: string, b: string, x: Value, z: string, y: Value)
    requires b != z
    ensures Place([(f, Obj([(b, x)]))], f, [z], y) == Ok([(f, Obj([(b, x), (z, y)]))])
  {
    assert !HasKey([(b, x)], z);
    assert [(b, x)] + [(z, y)] == [(b, x), (z, y)];
    assert Place([(b, x)], z, [], y) == Ok([(b, x), (z, y)]);
    assert GetField([(f, Obj([(b, x)]))], f) == Some(Obj([(b, x)]));
    assert HasKey([(f, Obj([(b, x)]))], f);
    assert [z][1..] == [];
    assert PutField([(f, Obj([(b, x)]))], f, Obj([(b, x), (z, y)])) == [(f, Obj([(b, x), (z, y)]))];
  }

  /** `new Model({'foo.bar.baz': x, 'one.two.three': y})` builds the two
      nested objects side by side. */
  lemma DoublyNestedConstructor(version: Version, f: string, b: string, z: string, o: string, t: string, h: string, x: Value, y: Value)
    requires '.' !in f && '.' !in b && '.' !in z && '.' !in o && '.' !in t && '.' !in h
    requires f != o && f != "toHTML" && o != "toHTML"
    ensures Constructed(version, [(Join([f, b, z], "."), x), (Join([o, t, h], "."), y)])
      == Ok([(f, Obj([(b, Obj([(z, x)]))])), (o, Obj([(t, Obj([(h, y)]))]))])
  {
    var pairs := [(Join([f, b, z], "."), x), (Join([o, t, h], "."), y)];
    SplitPath([f, b, z]);
    SplitPath([o, t, h]);
    var left := (f, Obj([(b, Obj([(z, x)]))]));
    var right := (o, Obj([(t, Obj([(h, y)]))]));
    assert [] + [left] == [left];
    assert Deep([], f, b, z, x) == Ok([left]);
    assert !HasKey([left], o);
    assert [left] + [right] == [left, right];
    assert Deep([left], o, t, h, y) == Ok([left, right]);
    assert ApplyAll([left, right], pairs[2..]) == Ok([left, right]);
    assert ApplyAll([left], pairs[1..]) == Ok([left, right]);
    assert DeleteField([], "toHTML") == [];
    assert SetResult(version, [], pairs) == Ok([left, right]);
    assert DeleteField([right], "toHTML") == [right];
  }

  /** A write two levels below a missing key. */
  function Deep(top: Fields, f: string, b: string, z: string, x: Value): (r: Result<Fields, SetError>)
    requires !HasKey(top, f)
    ensures r == Place(top, f, [b, z], x)
    ensures r == Ok(top + [(f, Obj([(b, Obj([(z, x)]))]))])
  {
    assert [b, z][1..] == [z] && [z][1..] == [];
    assert Place([], z, [], x) == Ok([(z, x)]);
    assert Place([], b, [z], x) == Ok([(b, Obj([(z, x)]))]);
    Ok(top + [(f, Obj([(b, Obj([(z, x)]))]))])
  }

  /** `get` through a number or a string throws, as `in` does. */
  lemma GetThroughString(f: string, b: string, s: string)
    requires '.' !in f && '.' !in b
    ensures Lookup([(f, Str(s))], Join([f, b], ".")) == Err(TypeError)
  {
    SplitPath([f, b]);
  }

  /** `get` of the nested keys of `{foo: {bar: x, baz: y}}`. */
  lemma OverlappingGet(f: string, b: string, z: string, x: Value, y: Value)
    requires '.' !in f && '.' !in b && '.' !in z && b != z
    ensures Lookup([(f, Obj([(b, x), (z, y)]))], Join([f, b], ".")) == Ok(Some(x))
    ensures Lookup([(f, Obj([(b, x), (z, y)]))], Join([f, z], ".")) == Ok(Some(y))
  {
    SplitPath([f, b]);
    SplitPath([f, z]);
    assert GetField([(b, x), (z, y)], z) == Some(y);
  }

  /** `new Model({'foo.bar': x, id: y})` holds `{foo: {bar: x}, id: y}`:
      the constructor's `set` nests the dotted key, in every version. */
  lemma DottedRecordNests(version: Version, f: string, b: string, k: string, x: Value, y: Value)
    requires '.' !in f && '.' !in b && '.' !in k && f != k && f != "toHTML" && k != "toHTML"
    ensures Constructed(version, [(Join([f, b], "."), x), (k, y)])
      == Ok([(f, Obj([(b, x)])), (k, y)])
  {
    var pairs := [(Join([f, b], "."), x), (k, y)];
    var built := [(f, Obj([(b, x)])), (k, y)];
    SplitPath([f, b]);
    UndottedKey(k);
    FirstOfTwo(f, b, x);
    assert !HasKey([(f, Obj([(b, x)]))], k);
    assert [(f, Obj([(b, x)]))] + [(k, y)] == built;
    assert ApplyAll(built, pairs[2..]) == Ok(built);
    assert ApplyAll([(f, Obj([(b, x)]))], pairs[1..]) == Ok(built);
    assert DeleteField([], "toHTML") == [];
    assert SetResult(version, [], pairs) == Ok(built);
    assert DeleteField([(k, y)], "toHTML") == [(k, y)];
  }
}
