/** `Moo.Collection`: the records of an object's attributes, values,
    properties or verbs, each record the attribute object of one model. Its
    `add` gives records their `id`: in a mapped collection (attributes,
    values) a payload `{name: body, ...}` becomes one record per name with
    `id = name`; elsewhere a payload without an `id` gets the length of the
    batch as its `id`. A payload with an `id` is added as it is. Each
    record then becomes a model of the collection (`Moo.Attribute`,
    `Moo.Value`, `Moo.Property`, `Moo.Verb`, all `Moo.NestedModel`s), whose
    constructor writes it in with the model's own `set`. */
module Collections {
  import opened Wrappers
  import opened Text
  import opened Values
  import Store

  /** Why building records fails: the source throws (`'id' in null`,
      `null.id = k`, or the model's `set` does), a payload is not an object,
      which the source would turn into a model in ways this model does not
      follow, or a record's dotted key runs through an array, which the
      model's `set` is not followed into. */
  datatype LoadError = Thrown(e: Exception) | NotARecord | ArrayOnPath

  /** The error of a model constructor's `set`, as the collection sees it. */
  function FromSet(e: Store.SetError): LoadError
  {
    match e
    case Thrown(x) => Thrown(x)
    case ArrayOnPath => ArrayOnPath
  }

  /** The three kinds of collection: `Moo.Attributes` and `Moo.Values`
      (mapped), `Moo.Properties` and `Moo.Verbs`, and the plain Backbone
      collections of 0.0.0, whose `add` leaves ids alone. */
  datatype Kind = Mapped | Listed | Plain

  /** `r` followed by the records of `rest`, or the error of `rest`. */
  function Then(r: seq<Fields>, rest: Result<seq<Fields>, LoadError>): Result<seq<Fields>, LoadError>
  {
    match rest
    case Ok(s) => Ok(r + s)
    case Err(e) => Err(e)
  }

  lemma ThenNil(rest: Result<seq<Fields>, LoadError>)
    ensures Then([], rest) == rest
  {
    if rest.Ok? {
      assert [] + rest.value == rest.value;
    }
  }

  lemma ThenThen(a: seq<Fields>, b: seq<Fields>, rest: Result<seq<Fields>, LoadError>)
    ensures Then(a, Then(b, rest)) == Then(a + b, rest)
  {
    if rest.Ok? {
      assert a + (b + rest.value) == (a + b) + rest.value;
    }
  }

  /** `v.id = k; return v`: the record of one body of a mapped payload. */
  function Keyed(k: Value, v: Value): (r: Result<Fields, LoadError>)
    ensures r.Ok? <==> v.Obj?
    ensures v.Null? ==> r == Err(Thrown(TypeError))
  {
    match v
    case Obj(b) => Ok(PutField(b, "id", k))
    case Null => Err(Thrown(TypeError))
    case _ => Err(NotARecord)
  }

  /** The records of `_.map(model, function(v, k) { v.id = k; return v; })`. */
  function KeyedAll(fs: Fields): (r: Result<seq<Fields>, LoadError>)
    ensures r.Ok? ==> |r.value| == |fs|
    ensures r.Ok? <==> forall i :: 0 <= i < |fs| ==> fs[i].1.Obj?
    ensures r.Ok? ==> forall i :: 0 <= i < |fs| ==> r.value[i] == PutField(fs[i].1.fields, "id", Str(fs[i].0))
  {
    if |fs| == 0 then Ok([])
    else
      match Keyed(Str(fs[0].0), fs[0].1)
      case Err(e) => Err(e)
      case Ok(v) =>
        var rest := KeyedAll(fs[1..]);
        assert forall i :: 1 <= i < |fs| ==> fs[i] == fs[1..][i - 1];
        Then([v], rest)
  }

  /** The records `add` makes of one payload, in a batch of `n`. */
  function AddOne(kind: Kind, n: nat, model: Value): Result<seq<Fields>, LoadError>
  {
    match model
    case Obj(fs) =>
      if HasKey(fs, "id") || kind == Plain then Ok([fs])
      else if kind == Mapped then KeyedAll(fs)
      else Ok([PutField(fs, "id", Num(n))])
    case List(_) => Err(NotARecord)
    case _ => if kind == Plain then Err(NotARecord) else Err(Thrown(TypeError))
  }

  /** The records of the whole batch, flattened, or its first error. */
  function AddAll(kind: Kind, n: nat, models: seq<Value>): Result<seq<Fields>, LoadError>
  {
    if |models| == 0 then Ok([])
    else
      match AddOne(kind, n, models[0])
      case Err(e) => Err(e)
      case Ok(r) => Then(r, AddAll(kind, n, models[1..]))
  }

  /** `add(models)`: an array is the batch, anything else a batch of one. */
  function AddBatch(models: Value): seq<Value>
  {
    if models.List? then models.items else [models]
  }

  /** `reset(models)`: a falsy argument (undefined, null, 0, "") adds
      nothing. */
  function ResetBatch(models: Option<Value>): seq<Value>
  {
    match models
    case None => []
    case Some(Null) => []
    case Some(Num(0)) => []
    case Some(Str("")) => []
    case Some(v) => AddBatch(v)
  }

  /** `new this.model(record)` for each record in turn: the attributes
      of the models, or the first constructor's error. */
  function Built(version: Version, records: seq<Fields>): (r: Result<seq<Fields>, LoadError>)
    ensures r.Ok? <==> forall i :: 0 <= i < |records| ==> Store.Constructed(version, records[i]).Ok?
    ensures r.Ok? ==> |r.value| == |records|
    ensures r.Ok? ==> forall i :: 0 <= i < |records| ==> r.value[i] == Store.Constructed(version, records[i]).value
  {
    if |records| == 0 then Ok([])
    else
      match Store.Constructed(version, records[0])
      case Err(e) => Err(FromSet(e))
      case Ok(a) =>
        var rest := Built(version, records[1..]);
        assert forall i :: 1 <= i < |records| ==> records[i] == records[1..][i - 1];
        Then([a], rest)
  }

  /** `Built` on a non-empty list is the first constructor, then the rest. */
  lemma BuiltStep(version: Version, records: seq<Fields>)
    requires |records| > 0
    ensures var c := Store.Constructed(version, records[0]);
            Built(version, records) == if c.Err? then Err(FromSet(c.error)) else Then([c.value], Built(version, records[1..]))
  {
  }

  /** `Built` on one record is that record's constructor. */
  lemma BuiltOne(version: Version, record: Fields)
    ensures Built(version, [record])
         == match Store.Constructed(version, record) case Ok(a) => Ok([a]) case Err(e) => Err(FromSet(e))
  {
    BuiltStep(version, [record]);
    assert [record][1..] == [];
    assert Built(version, []) == Ok([]);
    var c := Store.Constructed(version, record);
    if c.Ok? {
      assert [c.value] + [] == [c.value];
    }
  }

  /** The models' attributes after `add(batch)`: the payload records, each
      then constructed as a model. */
  function Added(version: Version, kind: Kind, batch: seq<Value>): Result<seq<Fields>, LoadError>
  {
    match AddAll(kind, |batch|, batch)
    case Err(e) => Err(e)
    case Ok(records) => Built(version, records)
  }

  /** Plain records come out of their constructors as they went in. */
  lemma BuiltPlain(version: Version, records: seq<Fields>)
    requires forall i :: 0 <= i < |records| ==> Store.PlainRecord(version, records[i])
    ensures Built(version, records) == Ok(records)
  {
    forall i | 0 <= i < |records|
      ensures Store.Constructed(version, records[i]) == Ok(records[i])
    {
      Store.ConstructedPlain(version, records[i]);
    }
    assert Built(version, records).value == records;
  }

  /** The objects of a list of records. */
  function Objs(records: seq<Fields>): (r: seq<Value>)
    ensures |r| == |records| && forall i :: 0 <= i < |r| ==> r[i] == Obj(records[i])
  {
    if |records| == 0 then [] else [Obj(records[0])] + Objs(records[1..])
  }

  // ------------------------------------------------------------- id_g

  /** One element of `_.reduce(payload, id_g, [])`: `v.id = k` and the body
      is pushed. */
  function Indexed(items: seq<Value>, start: nat): (r: Result<seq<Fields>, LoadError>)
    ensures r.Ok? ==> |r.value| == |items|
    ensures r.Ok? <==> forall i :: 0 <= i < |items| ==> items[i].Obj?
    ensures r.Ok? ==> forall i :: 0 <= i < |items| ==> r.value[i] == PutField(items[i].fields, "id", Num(start + i))
  {
    if |items| == 0 then Ok([])
    else
      match Keyed(Num(start), items[0])
      case Err(e) => Err(e)
      case Ok(v) =>
        var rest := Indexed(items[1..], start + 1);
        assert forall i :: 1 <= i < |items| ==> items[i] == items[1..][i - 1];
        assert rest.Ok? ==> forall i :: 1 <= i < |items| ==>
          ([v] + rest.value)[i] == PutField(items[i].fields, "id", Num((start + 1) + (i - 1)));
        Then([v], rest)
  }

  /** `_.reduce(payload, id_g, [])`: the bodies of a map with their keys as
      ids, or the bodies of an array with their positions as ids. Undefined,
      null, a number and "" give no records; a longer string would be
      iterated character by character and is refused. */
  function IdRecords(payload: Option<Value>): Result<seq<Fields>, LoadError>
  {
    match payload
    case None => Ok([])
    case Some(Null) => Ok([])
    case Some(Num(_)) => Ok([])
    case Some(Str(s)) => if |s| == 0 then Ok([]) else Err(NotARecord)
    case Some(Obj(fs)) => KeyedAll(fs)
    case Some(List(items)) => Indexed(items, 0)
  }

  // ----------------------------------------------------------- to_map

  /** The property name JavaScript makes of an `id` when it indexes an
      object with it. */
  function KeyText(id: Option<Value>): string
  {
    match id
    case None => "undefined"
    case Some(v) => PropertyName(v)
  }

  function PropertyName(v: Value): string
    decreases v, 1
  {
    match v
    case Null => "null"
    case Num(n) => NumText(n)
    case Str(s) => s
    case List(items) => ItemsName(items)
    case Obj(_) => "[object Object]"
  }

  /** An array as a property name: its elements joined by `,`, null ones
      empty. */
  function ItemsName(items: seq<Value>): string
    decreases items, 0
  {
    if |items| == 0 then ""
    else
      var first := if items[0].Null? then "" else PropertyName(items[0]);
      if |items| == 1 then first else first + "," + ItemsName(items[1..])
  }

  /** `_.reduce(records, to_map, {})`: each record under the name of its
      `id`, with `id` deleted; a later record with the same name overwrites
      an earlier one. */
  function ToMap(records: seq<Fields>): Fields
  {
    if |records| == 0 then []
    else
      var n := |records| - 1;
      PutField(ToMap(records[..n]), KeyText(GetField(records[n], "id")), Obj(DeleteField(records[n], "id")))
  }

  // -------------------------------------------------------- the class

  class Collection {
    const version: Version
    const kind: Kind
    var models: seq<Fields>

    /** An empty collection. */
    constructor(version: Version, kind: Kind)
      ensures this.version == version && this.kind == kind && models == []
    {
      this.version := version;
      this.kind := kind;
      models := [];
    }

    /** `add(models)`: the batch's records are appended, or nothing changes
        when building them fails. */
    method Add(batch: Value) returns (err: Option<LoadError>)
      modifies this
      ensures Added(version, kind, AddBatch(batch)).Ok? <==> err.None?
      ensures err.None? ==> models == old(models) + Added(version, kind, AddBatch(batch)).value
      ensures err.Some? ==> models == old(models) && err.value == Added(version, kind, AddBatch(batch)).error
    {
      var r := Build(version, kind, AddBatch(batch));
      match r
      case Err(e) => err := Some(e);
      case Ok(records) =>
        models := models + records;
        err := None;
    }

    /** `reset(models)`: the collection is emptied, then the batch added. */
    method Reset(batch: Option<Value>) returns (err: Option<LoadError>)
      modifies this
      ensures Added(version, kind, ResetBatch(batch)).Ok? <==> err.None?
      ensures err.None? ==> models == Added(version, kind, ResetBatch(batch)).value
      ensures err.Some? ==> models == [] && err.value == Added(version, kind, ResetBatch(batch)).error
    {
      models := [];
      var r := Build(version, kind, ResetBatch(batch));
      match r
      case Err(e) => err := Some(e);
      case Ok(records) =>
        models := records;
        err := None;
    }

    /** `add`: the payload records, then their models. */
    static method Build(version: Version, kind: Kind, batch: seq<Value>) returns (r: Result<seq<Fields>, LoadError>)
      ensures r == Added(version, kind, batch)
    {
      var records := Payloads(kind, batch);
      if records.Err? {
        return Err(records.error);
      }
      r := ConstructAll(version, records.value);
    }

    /** Backbone's `_prepareModel` over the records: one model each, the
        first throwing constructor aborting the whole `add`. */
    static method ConstructAll(version: Version, records: seq<Fields>) returns (r: Result<seq<Fields>, LoadError>)
      ensures r == Built(version, records)
    {
      var out: seq<Fields> := [];
      var i := 0;
      assert records[0..] == records;
      ThenNil(Built(version, records));
      while i < |records|
        invariant 0 <= i <= |records|
        invariant Then(out, Built(version, records[i..])) == Built(version, records)
      {
        assert records[i..][1..] == records[i + 1..];
        assert records[i..][0] == records[i];
        BuiltStep(version, records[i..]);
        var m := Store.NestedModel.Create(version, records[i]);
        if m.Err? {
          return Err(FromSet(m.error));
        }
        ThenThen(out, [m.value.attributes], Built(version, records[i + 1..]));
        out := out + [m.value.attributes];
        i := i + 1;
      }
      assert out + [] == out;
      return Ok(out);
    }

    /** The `_.chain(models).map(...).flatten()` of `add`. */
    static method Payloads(kind: Kind, batch: seq<Value>) returns (r: Result<seq<Fields>, LoadError>)
      ensures r == AddAll(kind, |batch|, batch)
    {
      var out: seq<Fields> := [];
      var i := 0;
      assert batch[0..] == batch;
      ThenNil(AddAll(kind, |batch|, batch));
      while i < |batch|
        invariant 0 <= i <= |batch|
        invariant Then(out, AddAll(kind, |batch|, batch[i..])) == AddAll(kind, |batch|, batch)
      {
        assert batch[i..][1..] == batch[i + 1..];
        var one: seq<Fields>;
        match batch[i] {
          case Obj(fs) =>
            if HasKey(fs, "id") || kind == Plain {
              one := [fs];
            } else if kind == Mapped {
              var keyed := KeyBodies(fs);
              if keyed.Err? {
                return Err(keyed.error);
              }
              one := keyed.value;
            } else {
              one := [PutField(fs, "id", Num(|batch|))];
            }
          case List(_) =>
            return Err(NotARecord);
          case _ =>
            return if kind == Plain then Err(NotARecord) else Err(Thrown(TypeError));
        }
        ThenThen(out, one, AddAll(kind, |batch|, batch[i + 1..]));
        out := out + one;
        i := i + 1;
      }
      assert out + [] == out;
      return Ok(out);
    }

    /** The mapped transform: every body gets its key as `id`. */
    static method KeyBodies(fs: Fields) returns (r: Result<seq<Fields>, LoadError>)
      ensures r == KeyedAll(fs)
    {
      var out: seq<Fields> := [];
      var j := 0;
      assert fs[0..] == fs;
      ThenNil(KeyedAll(fs));
      while j < |fs|
        invariant 0 <= j <= |fs|
        invariant Then(out, KeyedAll(fs[j..])) == KeyedAll(fs)
      {
        assert fs[j..][1..] == fs[j + 1..];
        assert fs[j..][0] == fs[j];
        match fs[j].1 {
          case Obj(b) =>
            ThenThen(out, [PutField(b, "id", Str(fs[j].0))], KeyedAll(fs[j + 1..]));
            out := out + [PutField(b, "id", Str(fs[j].0))];
          case Null =>
            return Err(Thrown(TypeError));
          case _ =>
            return Err(NotARecord);
        }
        j := j + 1;
      }
      assert out + [] == out;
      return Ok(out);
    }

    /** `_.reduce(payload, id_g, [])`, pushing one body at a time. */
    static method IdBodies(payload: Option<Value>) returns (r: Result<seq<Fields>, LoadError>)
      ensures r == IdRecords(payload)
    {
      match payload {
        case None => return Ok([]);
        case Some(Null) => return Ok([]);
        case Some(Num(_)) => return Ok([]);
        case Some(Str(s)) => return if |s| == 0 then Ok([]) else Err(NotARecord);
        case Some(Obj(fs)) => r := KeyBodies(fs);
        case Some(List(items)) => r := IndexBodies(items);
      }
    }

    /** The indexed transform: every body gets its position as `id`. */
    static method IndexBodies(items: seq<Value>) returns (r: Result<seq<Fields>, LoadError>)
      ensures r == Indexed(items, 0)
    {
      var out: seq<Fields> := [];
      var j := 0;
      assert items[0..] == items;
      ThenNil(Indexed(items, 0));
      while j < |items|
        invariant 0 <= j <= |items|
        invariant Then(out, Indexed(items[j..], j)) == Indexed(items, 0)
      {
        assert items[j..][1..] == items[j + 1..];
        assert items[j..][0] == items[j];
        match items[j] {
          case Obj(b) =>
            ThenThen(out, [PutField(b, "id", Num(j))], Indexed(items[j + 1..], j + 1));
            out := out + [PutField(b, "id", Num(j))];
          case Null =>
            return Err(Thrown(TypeError));
          case _ =>
            return Err(NotARecord);
        }
        j := j + 1;
      }
      assert out + [] == out;
      return Ok(out);
    }

    /** `_.reduce(this.toJSON(), to_map, {})`. */
    method ToMapped() returns (m: Fields)
      ensures m == ToMap(models)
    {
      m := [];
      var i := 0;
      while i < |models|
        invariant 0 <= i <= |models|
        invariant m == ToMap(models[..i])
      {
        assert models[..i + 1][..i] == models[..i];
        m := PutField(m, KeyText(GetField(models[i], "id")), Obj(DeleteField(models[i], "id")));
        i := i + 1;
      }
      assert models[..i] == models;
    }
  }

  // --------------------------------------------------------- properties

  /** A mapped payload whose bodies are objects without an `id`, under
      distinct names none of which is `id`. */
  predicate PlainMap(m: Fields)
  {
    DistinctKeys(m) && !HasKey(m, "id") &&
    forall i :: 0 <= i < |m| ==> m[i].1.Obj? && !HasKey(m[i].1.fields, "id")
  }

  /** Every body of the payload is a record its model's constructor keeps
      as it is. */
  predicate PlainBodies(version: Version, m: Fields)
  {
    forall i :: 0 <= i < |m| && m[i].1.Obj? ==> Store.PlainRecord(version, m[i].1.fields)
  }

  /** Giving a plain record an `id` keeps it plain. */
  lemma PutIdPlain(version: Version, b: Fields, x: Value)
    requires Store.PlainRecord(version, b)
    ensures Store.PlainRecord(version, PutField(b, "id", x))
  {
    var r := PutField(b, "id", x);
    PutKeepsDistinct(b, "id", x);
    forall i | 0 <= i < |r|
      ensures '.' !in r[i].0
    {
      if i < |b| {
        assert r[i].0 == b[i].0;
      } else {
        assert r == b + [("id", x)];
        assert r[i].0 == "id";
      }
    }
    if version != V004 {
      GetPutOther(b, "id", x, "toHTML");
    }
  }

  /** The mapped transform of plain bodies gives records their models keep. */
  lemma KeyedPlain(version: Version, fs: Fields)
    requires forall i :: 0 <= i < |fs| ==> fs[i].1.Obj? && Store.PlainRecord(version, fs[i].1.fields)
    ensures KeyedAll(fs).Ok? && Built(version, KeyedAll(fs).value) == KeyedAll(fs)
  {
    var records := KeyedAll(fs).value;
    forall i | 0 <= i < |records|
      ensures Store.PlainRecord(version, records[i])
    {
      PutIdPlain(version, fs[i].1.fields, Str(fs[i].0));
    }
    BuiltPlain(version, records);
  }

  /** The same for the positions `id_g` gives an array's plain bodies. */
  lemma IndexedPlain(version: Version, items: seq<Value>)
    requires forall i :: 0 <= i < |items| ==> items[i].Obj? && Store.PlainRecord(version, items[i].fields)
    ensures Indexed(items, 0).Ok? && Built(version, Indexed(items, 0).value) == Indexed(items, 0)
  {
    var records := Indexed(items, 0).value;
    forall i | 0 <= i < |records|
      ensures Store.PlainRecord(version, records[i])
    {
      PutIdPlain(version, items[i].fields, Num(i));
    }
    BuiltPlain(version, records);
  }

  lemma {:induction false} ToMapPrefix(m: Fields, records: seq<Fields>, i: nat)
    requires PlainMap(m) && i <= |m| && |records| == |m|
    requires forall j :: 0 <= j < |m| ==> records[j] == PutField(m[j].1.fields, "id", Str(m[j].0))
    ensures ToMap(records[..i]) == m[..i]
  {
    if i > 0 {
      var n := i - 1;
      ToMapPrefix(m, records, n);
      ToMapLast(records, i);
      PlainLast(m, n);
      ToMapStep(m[..n], m[n].0, m[n].1.fields);
    }
  }

  /** `to_map` over a prefix is one more step over the prefix before it. */
  lemma ToMapLast(records: seq<Fields>, i: nat)
    requires 0 < i <= |records|
    ensures ToMap(records[..i]) ==
      PutField(ToMap(records[..i - 1]), KeyText(GetField(records[i - 1], "id")), Obj(DeleteField(records[i - 1], "id")))
  {
    assert records[..i][..i - 1] == records[..i - 1];
    assert records[..i][i - 1] == records[i - 1];
  }

  /** A prefix of a plain map is the prefix before it and one more entry,
      whose name is new and whose body has no `id`. */
  lemma PlainLast(m: Fields, n: nat)
    requires PlainMap(m) && n < |m|
    ensures m[..n + 1] == m[..n] + [(m[n].0, Obj(m[n].1.fields))]
    ensures !HasKey(m[..n], m[n].0) && !HasKey(m[n].1.fields, "id")
  {
    FreshName(m, n);
    assert m[n] == (m[n].0, Obj(m[n].1.fields));
  }

  lemma FreshName(m: Fields, n: nat)
    requires DistinctKeys(m) && n < |m|
    ensures !HasKey(m[..n], m[n].0)
  {
  }

  /** `to_map` on one record of a mapped collection puts its body back
      under its name. */
  lemma ToMapStep(acc: Fields, k: string, body: Fields)
    requires !HasKey(acc, k) && !HasKey(body, "id")
    ensures PutField(acc, KeyText(GetField(PutField(body, "id", Str(k)), "id")), Obj(DeleteField(PutField(body, "id", Str(k)), "id")))
      == acc + [(k, Obj(body))]
  {
    GetPutSame(body, "id", Str(k));
    DeleteAfterAppend(body, "id", Str(k));
  }

  /** A mapped payload without an `id` makes one record per body. */
  lemma MappedAdded(m: Fields)
    requires !HasKey(m, "id")
    ensures AddAll(Mapped, 1, [Obj(m)]) == KeyedAll(m)
  {
    assert AddOne(Mapped, 1, Obj(m)) == KeyedAll(m);
    assert [Obj(m)][1..] == [];
    assert AddAll(Mapped, 1, []) == Ok([]);
    if KeyedAll(m).Ok? {
      assert KeyedAll(m).value + [] == KeyedAll(m).value;
    }
  }

  /** The models a mapped collection builds from a payload of plain bodies
      go back to that payload through `toJSON`'s `to_map`: the values (and
      attributes) of an object round-trip through `parse` and `toJSON`. */
  lemma MappedRoundTrip(version: Version, m: Fields)
    requires PlainMap(m) && PlainBodies(version, m)
    ensures Added(version, Mapped, ResetBatch(Some(Obj(m)))).Ok?
    ensures ToMap(Added(version, Mapped, ResetBatch(Some(Obj(m)))).value) == m
  {
    assert ResetBatch(Some(Obj(m))) == [Obj(m)];
    MappedAdded(m);
    KeyedPlain(version, m);
    KeyedRoundTrip(m);
  }

  /** `to_map` undoes the mapped transform. */
  lemma KeyedRoundTrip(m: Fields)
    requires PlainMap(m)
    ensures KeyedAll(m).Ok? && ToMap(KeyedAll(m).value) == m
  {
    var records := KeyedAll(m).value;
    ToMapPrefix(m, records, |m|);
    assert records[..|m|] == records && m[..|m|] == m;
  }

  /** In a mapped collection every record's `id` is its name in the
      payload, and its other fields are the body's. */
  lemma MappedIds(m: Fields, i: nat)
    requires !HasKey(m, "id") && i < |m|
    requires forall j :: 0 <= j < |m| ==> m[j].1.Obj?
    ensures AddAll(Mapped, 1, [Obj(m)]).Ok? && |AddAll(Mapped, 1, [Obj(m)]).value| == |m|
    ensures GetField(AddAll(Mapped, 1, [Obj(m)]).value[i], "id") == Some(Str(m[i].0))
    ensures forall k :: k != "id" ==> GetField(AddAll(Mapped, 1, [Obj(m)]).value[i], k) == GetField(m[i].1.fields, k)
  {
    assert KeyedAll(m).Ok?;
    var records := KeyedAll(m).value;
    MappedAdded(m);
    GetPutSame(m[i].1.fields, "id", Str(m[i].0));
    forall k | k != "id"
      ensures GetField(records[i], k) == GetField(m[i].1.fields, k)
    {
      GetPutOther(m[i].1.fields, "id", Str(m[i].0), k);
    }
  }

  /** Payloads that already have an `id` are added as they are, in any
      kind of collection. */
  lemma {:induction false} WithIdsUnchanged(kind: Kind, n: nat, records: seq<Fields>)
    requires forall i :: 0 <= i < |records| ==> HasKey(records[i], "id")
    ensures AddAll(kind, n, Objs(records)) == Ok(records)
  {
    if |records| > 0 {
      assert forall i :: 0 <= i < |records[1..]| ==> records[1..][i] == records[i + 1];
      WithIdsUnchanged(kind, n, records[1..]);
      WithIdStep(kind, n, records);
    }
  }

  /** The step of `WithIdsUnchanged`: a first record with an `id` goes in as it is. */
  lemma WithIdStep(kind: Kind, n: nat, records: seq<Fields>)
    requires |records| > 0 && HasKey(records[0], "id")
    requires AddAll(kind, n, Objs(records[1..])) == Ok(records[1..])
    ensures AddAll(kind, n, Objs(records)) == Ok(records)
  {
    assert Objs(records)[1..] == Objs(records[1..]);
    assert AddOne(kind, n, Objs(records)[0]) == Ok([records[0]]);
    assert [records[0]] + records[1..] == records;
  }

  /** In `Moo.Properties` and `Moo.Verbs` a payload without an `id` gets
      the length of its batch as `id`, the same for every payload of the
      batch. */
  lemma {:induction false} SyntheticIds(n: nat, models: seq<Value>)
    requires forall i :: 0 <= i < |models| ==> models[i].Obj? && !HasKey(models[i].fields, "id")
    ensures AddAll(Listed, n, models).Ok? && |AddAll(Listed, n, models).value| == |models|
    ensures forall i :: 0 <= i < |models| ==>
      AddAll(Listed, n, models).value[i] == PutField(models[i].fields, "id", Num(n))
  {
    if |models| > 0 {
      assert forall i :: 1 <= i < |models| ==> models[1..][i - 1] == models[i];
      SyntheticIds(n, models[1..]);
    }
  }

  /** `id_g` on an array of bodies: each record's `id` is its position. */
  lemma PositionIds(items: seq<Value>, i: nat)
    requires forall j :: 0 <= j < |items| ==> items[j].Obj?
    requires i < |items|
    ensures IdRecords(Some(List(items))).Ok? && |IdRecords(Some(List(items))).value| == |items|
    ensures GetField(IdRecords(Some(List(items))).value[i], "id") == Some(Num(i))
  {
    GetPutSame(items[i].fields, "id", Num(i));
  }

  /** A `reset` with the records of `id_g` hands them to the model
      constructors as they are. */
  lemma IdRecordsReset(version: Version, kind: Kind, payload: Option<Value>)
    requires IdRecords(payload).Ok?
    ensures Added(version, kind, ResetBatch(Some(List(Objs(IdRecords(payload).value)))))
         == Built(version, IdRecords(payload).value)
  {
    var records := IdRecords(payload).value;
    forall i | 0 <= i < |records|
      ensures HasKey(records[i], "id")
    {
      match payload
      case Some(Obj(fs)) => GetPutSame(fs[i].1.fields, "id", Str(fs[i].0));
      case Some(List(items)) => GetPutSame(items[i].fields, "id", Num(i));
    }
    WithIdsUnchanged(kind, |records|, records);
  }
}
