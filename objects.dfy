/** `Moo.Object`: a MOO object as the client holds it, with four
    collections of records (attributes, values, properties, verbs) that
    `parse` fills from a server response and `toJSON` writes back, and an
    object-level `validate` over the attribute and value records. */
module Objects {
  import opened Wrappers
  import opened Text
  import opened Values
  import opened Kinds
  import opened Collections
  import Store

  /** The kind of `Moo.Attributes` and `Moo.Values`: mapped, except in
      0.0.0, where they are plain Backbone collections. */
  function MappedKind(version: Version): Kind
  {
    if version == V000 then Plain else Mapped
  }

  /** The kind of `Moo.Properties` and `Moo.Verbs`. */
  function ListedKind(version: Version): Kind
  {
    if version == V000 then Plain else Listed
  }

  /** `reset(_.chain(payload).reduce(id_g, []).value())`. */
  function Pushed(version: Version, kind: Kind, payload: Option<Value>): Result<seq<Fields>, LoadError>
  {
    match IdRecords(payload)
    case Ok(records) => Added(version, kind, ResetBatch(Some(List(Objs(records)))))
    case Err(e) => Err(e)
  }

  /** The attribute (or value) records: 0.0.4 and 0.0.2 hand the payload to
      the mapped `reset`, 0.0.0 runs it through `id_g` first. */
  function MappedRecords(version: Version, payload: Option<Value>): Result<seq<Fields>, LoadError>
  {
    if version == V000 then Pushed(version, Plain, payload) else Added(version, Mapped, ResetBatch(payload))
  }

  /** The response with the four collections deleted from it. */
  function Remaining(response: Fields): (r: Fields)
    ensures !HasKey(r, "Attributes") && !HasKey(r, "Values") && !HasKey(r, "Properties") && !HasKey(r, "Verbs")
  {
    var a := DeleteField(response, "Attributes");
    var b := DeleteField(a, "Values");
    var c := DeleteField(b, "Properties");
    DeleteKeepsAbsent(a, "Values", "Attributes");
    DeleteKeepsAbsent(b, "Properties", "Attributes");
    DeleteKeepsAbsent(b, "Properties", "Values");
    var d := DeleteField(c, "Verbs");
    DeleteKeepsAbsent(c, "Verbs", "Attributes");
    DeleteKeepsAbsent(c, "Verbs", "Values");
    DeleteKeepsAbsent(c, "Verbs", "Properties");
    d
  }

  lemma DeleteKeepsAbsent(f: Fields, k: string, absent: string)
    requires !HasKey(f, absent)
    ensures !HasKey(DeleteField(f, k), absent)
  {
    if HasKey(DeleteField(f, k), absent) {
      if k == absent {
      } else {
        GetDeleteOther(f, k, absent);
      }
    }
  }

  /** `if ('Meta' in response && 'id' in response.Meta) this.id =
      response.Meta.id`: the new id, if any; a `Meta` that is null, a
      number or a string makes `in` throw. */
  function MetaId(response: Fields): Result<Option<Value>, LoadError>
  {
    match GetField(response, "Meta")
    case None => Ok(None)
    case Some(Obj(m)) => Ok(GetField(m, "id"))
    case Some(List(_)) => Ok(None)
    case Some(_) => Err(Thrown(TypeError))
  }

  /** What `parse` leaves: the four collections' records, the id it sets
      (0.0.0 sets none) and what remains of the response. */
  datatype Parsed = Parsed(attributez: seq<Fields>, values: seq<Fields>, properties: seq<Fields>,
                           verbs: seq<Fields>, id: Option<Value>, rest: Fields)

  function ParseResponse(version: Version, response: Fields): Result<Parsed, LoadError>
  {
    match MappedRecords(version, GetField(response, "Attributes"))
    case Err(e) => Err(e)
    case Ok(a) =>
      match MappedRecords(version, GetField(response, "Values"))
      case Err(e) => Err(e)
      case Ok(v) =>
        match Pushed(version, ListedKind(version), GetField(response, "Properties"))
        case Err(e) => Err(e)
        case Ok(p) =>
          match Pushed(version, ListedKind(version), GetField(response, "Verbs"))
          case Err(e) => Err(e)
          case Ok(b) =>
            var rest := Remaining(response);
            if version == V000 then Ok(Parsed(a, v, p, b, None, rest))
            else
              match MetaId(rest)
              case Err(e) => Err(e)
              case Ok(id) => Ok(Parsed(a, v, p, b, id, rest))
  }

  /** `toJSON`: attributes and values as maps from name to body, properties
      and verbs as lists of their records. */
  function Json(attributez: seq<Fields>, values: seq<Fields>, properties: seq<Fields>, verbs: seq<Fields>): Value
  {
    Obj([("Attributes", Obj(ToMap(attributez))), ("Values", Obj(ToMap(values))),
         ("Properties", List(Objs(properties))), ("Verbs", List(Objs(verbs)))])
  }

  // ----------------------------------------------------------- validate

  datatype Source = FromAttributes | FromValues

  /** One rule of `validate`: if the collection has a record `name`, the
      `Value.value` of that record must pass `test`. */
  datatype Rule = Rule(source: Source, name: string, test: Requirement, message: string)

  /** The four predicates of the library that the object rules call. */
  datatype Requirement = Binary | ObjectNumber | ObjectNumberArray | PlainString

  predicate Meets(req: Requirement, v: Value)
  {
    match req
    case Binary => IsBinary(v)
    case ObjectNumber => IsObjectNumber(v)
    case ObjectNumberArray => IsValidObjectNumberArray(v)
    case PlainString => IsString(v)
  }

  const ObjectRules: seq<Rule> :=
    [Rule(FromAttributes, "player", Binary, "invalid attribute: `player' must be 0 or 1"),
     Rule(FromAttributes, "parents", ObjectNumberArray, "invalid attribute: `parents' must be an array of object numbers"),
     Rule(FromValues, "name", PlainString, "invalid value: `name' must be a string"),
     Rule(FromValues, "owner", ObjectNumber, "invalid value: `owner' must be an object number"),
     Rule(FromValues, "location", ObjectNumber, "invalid value: `location' must be an object number"),
     Rule(FromValues, "contents", ObjectNumberArray, "invalid value: `contents' must be an array of object numbers"),
     Rule(FromValues, "programmer", Binary, "invalid value: `programmer' must be 0 or 1"),
     Rule(FromValues, "wizard", Binary, "invalid value: `wizard' must be 0 or 1"),
     Rule(FromValues, "r", Binary, "invalid value: `r' must be 0 or 1"),
     Rule(FromValues, "w", Binary, "invalid value: `w' must be 0 or 1"),
     Rule(FromValues, "f", Binary, "invalid value: `f' must be 0 or 1")]

  /** `collection.get(name)`: the first record whose `id` names `name`. */
  function Find(records: seq<Fields>, name: string): Option<Fields>
  {
    if |records| == 0 then None
    else if KeyText(GetField(records[0], "id")) == name then Some(records[0])
    else Find(records[1..], name)
  }

  /** Whether a record's `id` names `name`. */
  predicate Named(record: Fields, name: string)
  {
    KeyText(GetField(record, "id")) == name
  }

  /** `Find` finds a record exactly when one is named `name`, and what it
      finds is the first of them. */
  lemma {:induction false} FindFirst(records: seq<Fields>, name: string)
    ensures Find(records, name).Some? <==> exists i :: 0 <= i < |records| && Named(records[i], name)
    ensures Find(records, name).Some? ==>
      exists i :: (0 <= i < |records| && Find(records, name).value == records[i] && Named(records[i], name) &&
                   forall j :: 0 <= j < i ==> !Named(records[j], name))
  {
    if |records| > 0 && !Named(records[0], name) {
      var tail := records[1..];
      FindFirst(tail, name);
      assert Find(records, name) == Find(tail, name);
      if Find(records, name).Some? {
        var i :| 0 <= i < |tail| && Find(tail, name).value == tail[i] && Named(tail[i], name) &&
          forall j :: 0 <= j < i ==> !Named(tail[j], name);
        FirstInTail(records, name, i);
      } else {
        forall k | 0 <= k < |records|
          ensures !Named(records[k], name)
        {
          if k > 0 { assert records[k] == tail[k - 1]; }
        }
      }
    }
  }

  /** The first match in the tail, after a head that does not match, is the
      first match of the whole. */
  lemma FirstInTail(records: seq<Fields>, name: string, i: nat)
    requires |records| > 0 && !Named(records[0], name)
    requires i < |records| - 1 && Named(records[1..][i], name)
    requires forall j :: 0 <= j < i ==> !Named(records[1..][j], name)
    ensures records[i + 1] == records[1..][i]
    ensures forall j :: 0 <= j < i + 1 ==> !Named(records[j], name)
  {
    forall j | 0 < j < i + 1
      ensures !Named(records[j], name)
    {
      assert records[j] == records[1..][j - 1];
    }
  }

  /** `record.get('Value.value')`, the path already split. */
  function ValueOf(record: Fields): Result<Option<Value>, Exception>
  {
    Store.Walk(GetField(record, "Value"), ["value"])
  }

  /** It is the path lookup of `Value.value`. */
  lemma ValueOfLookup(record: Fields)
    ensures ValueOf(record) == Store.Lookup(record, "Value.value")
  {
    ValueValuePath();
  }

  /** What one rule says about the two collections. */
  function RuleVerdict(attributez: seq<Fields>, values: seq<Fields>, rule: Rule): Verdict
  {
    match Find(if rule.source == FromAttributes then attributez else values, rule.name)
    case None => Valid
    case Some(record) =>
      match ValueOf(record)
      case Err(_) => Throws
      case Ok(None) => Invalid(rule.message)
      case Ok(Some(x)) => if Meets(rule.test, x) then Valid else Invalid(rule.message)
  }

  /** The rules in order: the verdict of the first one that does not
      pass, or `Valid`. */
  function RunRules(attributez: seq<Fields>, values: seq<Fields>, rules: seq<Rule>): Verdict
  {
    RunFrom(attributez, values, rules, 0)
  }

  /** The same for the rules from index `k` on. */
  function RunFrom(attributez: seq<Fields>, values: seq<Fields>, rules: seq<Rule>, k: nat): Verdict
    decreases |rules| - k
  {
    if k >= |rules| then Valid
    else
      var v := RuleVerdict(attributez, values, rules[k]);
      if v != Valid then v else RunFrom(attributez, values, rules, k + 1)
  }

  /** `Moo.Object.prototype.validate`. */
  function ValidateObject(attributez: seq<Fields>, values: seq<Fields>): Verdict
  {
    RunRules(attributez, values, ObjectRules)
  }

  // ------------------------------------------------------------ the class

  class MooObject {
    const version: Version
    var attributes: Fields
    var id: Option<Value>
    const attributez: Collection
    const values: Collection
    const properties: Collection
    const verbs: Collection

    /** The four collections are distinct objects of the object's version
        and of the kinds that version gives them. */
    ghost predicate Valid()
      reads this
    {
      attributez.version == version && values.version == version &&
      properties.version == version && verbs.version == version &&
      attributez.kind == MappedKind(version) && values.kind == MappedKind(version) &&
      properties.kind == ListedKind(version) && verbs.kind == ListedKind(version) &&
      attributez != values && attributez != properties && attributez != verbs &&
      values != properties && values != verbs && properties != verbs
    }

    /** The object before `initialize` parses: Backbone's constructor has
        set the attributes, which takes the id from a top-level `id` key,
        and `initialize` has made four empty collections. */
    constructor(version: Version, attributes: Fields)
      ensures Valid() && this.version == version && this.attributes == attributes && id == GetField(attributes, "id")
      ensures attributez.models == [] && values.models == [] && properties.models == [] && verbs.models == []
      ensures fresh(attributez) && fresh(values) && fresh(properties) && fresh(verbs)
    {
      this.version := version;
      this.attributes := attributes;
      id := GetField(attributes, "id");
      attributez := new Collection(version, MappedKind(version));
      values := new Collection(version, MappedKind(version));
      properties := new Collection(version, ListedKind(version));
      verbs := new Collection(version, ListedKind(version));
    }

    /** `new Moo.Object(attributes)`: the constructor, whose `initialize`
        parses the attributes themselves. */
    static method Create(version: Version, attributes: Fields) returns (r: Result<MooObject, LoadError>)
      ensures ParseResponse(version, attributes).Ok? <==> r.Ok?
      ensures r.Err? ==> r.error == ParseResponse(version, attributes).error
      ensures r.Ok? ==> fresh(r.value) && r.value.Valid() && r.value.version == version
      ensures r.Ok? ==> var p := ParseResponse(version, attributes).value;
        r.value.attributes == p.rest &&
        r.value.id == (if p.id.Some? then p.id else GetField(attributes, "id")) &&
        r.value.attributez.models == p.attributez && r.value.values.models == p.values &&
        r.value.properties.models == p.properties && r.value.verbs.models == p.verbs
    {
      var o := new MooObject(version, attributes);
      var parsed := o.Parse(attributes);
      if parsed.Err? {
        return Err(parsed.error);
      }
      // `parse` deletes the four keys from the very object it is given,
      // and here that object is the model's own attribute map.
      o.attributes := parsed.value;
      return Ok(o);
    }

    /** `parse(response)`: the collections are reset from the response,
        `Meta.id` becomes the object's id, and the response is returned
        without its four collections. The attribute map is not touched:
        what becomes of the returned object is up to the caller. */
    method Parse(response: Fields) returns (r: Result<Fields, LoadError>)
      requires Valid()
      modifies this, attributez, values, properties, verbs
      ensures Valid()
      ensures ParseResponse(version, response).Ok? <==> r.Ok?
      ensures r.Err? ==> r.error == ParseResponse(version, response).error
      ensures r.Err? ==> unchanged(this) && unchanged(attributez) && unchanged(values) && unchanged(properties) && unchanged(verbs)
      ensures r.Ok? ==> var p := ParseResponse(version, response).value;
        r.value == p.rest && attributes == old(attributes) &&
        id == (if p.id.Some? then p.id else old(id)) &&
        attributez.models == p.attributez && values.models == p.values &&
        properties.models == p.properties && verbs.models == p.verbs
    {
      var a := LoadMapped(version, GetField(response, "Attributes"));
      if a.Err? {
        return Err(a.error);
      }
      var v := LoadMapped(version, GetField(response, "Values"));
      if v.Err? {
        return Err(v.error);
      }
      var p := LoadListed(version, ListedKind(version), GetField(response, "Properties"));
      if p.Err? {
        return Err(p.error);
      }
      var b := LoadListed(version, ListedKind(version), GetField(response, "Verbs"));
      if b.Err? {
        return Err(b.error);
      }
      var rest := Remaining(response);
      var newId: Option<Value> := None;
      if version != V000 {
        var meta := MetaId(rest);
        if meta.Err? {
          return Err(meta.error);
        }
        newId := meta.value;
      }
      attributez.models := a.value;
      values.models := v.value;
      properties.models := p.value;
      verbs.models := b.value;
      if newId.Some? {
        id := newId;
      }
      return Ok(rest);
    }

    /** The records of the attributes or the values. */
    static method LoadMapped(version: Version, payload: Option<Value>) returns (r: Result<seq<Fields>, LoadError>)
      ensures r == MappedRecords(version, payload)
    {
      if version == V000 {
        r := LoadListed(version, Plain, payload);
      } else {
        r := Collection.Build(version, Mapped, ResetBatch(payload));
      }
    }

    /** The records of the properties or the verbs. */
    static method LoadListed(version: Version, kind: Kind, payload: Option<Value>) returns (r: Result<seq<Fields>, LoadError>)
      ensures r == Pushed(version, kind, payload)
    {
      var records := Collection.IdBodies(payload);
      if records.Err? {
        return Err(records.error);
      }
      r := Collection.Build(version, kind, ResetBatch(Some(List(Objs(records.value)))));
    }

    /** `toJSON()`. */
    method ToJson() returns (r: Value)
      ensures r == Json(attributez.models, values.models, properties.models, verbs.models)
    {
      var a := attributez.ToMapped();
      var v := values.ToMapped();
      r := Obj([("Attributes", Obj(a)), ("Values", Obj(v)),
                ("Properties", List(Objs(properties.models))), ("Verbs", List(Objs(verbs.models)))]);
    }

    /** `validate()`. */
    function Validate(): Verdict
      reads this, attributez, values
    {
      ValidateObject(attributez.models, values.models)
    }
  }

  // --------------------------------------------------------- properties

  /** The rules return the verdict of the first rule that does not
      pass ... */
  lemma RulesFirstFailure(attributez: seq<Fields>, values: seq<Fields>, rules: seq<Rule>, i: nat)
    requires i < |rules| && RuleVerdict(attributez, values, rules[i]) != Valid
    requires forall j :: 0 <= j < i ==> RuleVerdict(attributez, values, rules[j]) == Valid
    ensures RunRules(attributez, values, rules) == RuleVerdict(attributez, values, rules[i])
  {
    FromFirstFailure(attributez, values, rules, i, 0);
  }

  lemma {:induction false} FromFirstFailure(attributez: seq<Fields>, values: seq<Fields>, rules: seq<Rule>, i: nat, k: nat)
    requires k <= i < |rules| && RuleVerdict(attributez, values, rules[i]) != Valid
    requires forall j :: k <= j < i ==> RuleVerdict(attributez, values, rules[j]) == Valid
    ensures RunFrom(attributez, values, rules, k) == RuleVerdict(attributez, values, rules[i])
    decreases i - k
  {
    if k < i {
      FromFirstFailure(attributez, values, rules, i, k + 1);
    }
  }

  /** ... and `Valid` exactly when every rule passes. */
  lemma RulesAllValid(attributez: seq<Fields>, values: seq<Fields>, rules: seq<Rule>)
    ensures RunRules(attributez, values, rules) == Valid <==>
      forall j :: 0 <= j < |rules| ==> RuleVerdict(attributez, values, rules[j]) == Valid
  {
    FromAllValid(attributez, values, rules, 0);
  }

  lemma {:induction false} FromAllValid(attributez: seq<Fields>, values: seq<Fields>, rules: seq<Rule>, k: nat)
    ensures RunFrom(attributez, values, rules, k) == Valid <==>
      forall j :: k <= j < |rules| ==> RuleVerdict(attributez, values, rules[j]) == Valid
    decreases |rules| - k
  {
    if k < |rules| {
      FromAllValid(attributez, values, rules, k + 1);
    }
  }

  /** When every rule but the `i`th passes, the `i`th decides. */
  lemma OnlyRuleDecides(attributez: seq<Fields>, values: seq<Fields>, rules: seq<Rule>, i: nat)
    requires i < |rules|
    requires forall j :: 0 <= j < |rules| && j != i ==> RuleVerdict(attributez, values, rules[j]) == Valid
    ensures RunRules(attributez, values, rules) == RuleVerdict(attributez, values, rules[i])
  {
    if RuleVerdict(attributez, values, rules[i]) != Valid {
      RulesFirstFailure(attributez, values, rules, i);
    } else {
      RulesAllValid(attributez, values, rules);
    }
  }

  /** The record `{id: name, Value: {value: x}}` the object tests add. */
  function ValueRecord(name: string, x: Value): Fields
  {
    [("id", Str(name)), ("Value", Obj([("value", x)]))]
  }

  lemma ValueValuePath()
    ensures Split("Value.value", '.') == ["Value", "value"]
  {
    assert Join(["Value", "value"], ".") == "Value.value";
    Store.SplitPath(["Value", "value"]);
  }

  /** `record.get('Value.value')` of such a record is `x`; a record with no
      `Value` gives undefined, and one whose `Value` is a string throws. */
  lemma RecordValue(name: string, x: Value, s: string)
    ensures Store.Lookup(ValueRecord(name, x), "Value.value") == Ok(Some(x))
    ensures Store.Lookup([("id", Str(name))], "Value.value") == Ok(None)
    ensures Store.Lookup([("id", Str(name)), ("Value", Str(s))], "Value.value") == Err(TypeError)
  {
    ValueValuePath();
    assert Split("Value.value", '.')[1..] == ["value"];
    WalkValue(Obj([("value", x)]), Ok(Some(x)));
    WalkValue(Str(s), Err(TypeError));
    assert GetField(ValueRecord(name, x), "Value") == Some(Obj([("value", x)]));
    assert GetField([("id", Str(name)), ("Value", Str(s))], "Value") == Some(Str(s));
    assert GetField([("id", Str(name))], "Value") == None;
  }

  /** One step of the walk, from the `Value` field to its `value`. */
  lemma WalkValue(body: Value, r: Result<Option<Value>, Exception>)
    requires body.Obj? ==> |body.fields| == 1 && body.fields[0].0 == "value" && r == Ok(Some(body.fields[0].1))
    requires body.Str? ==> r == Err(TypeError)
    requires body.Obj? || body.Str?
    ensures Store.Walk(Some(body), ["value"]) == r
  {
    assert ["value"][1..] == [];
  }

  /** Within each collection the rules name distinct records. */
  predicate DistinctNames(rules: seq<Rule>)
  {
    forall i, j :: 0 <= i < j < |rules| && rules[i].source == rules[j].source ==> rules[i].name != rules[j].name
  }

  lemma RuleNamesDistinct()
    ensures DistinctNames(ObjectRules)
  {
  }

  /** The records of one collection when the only record is the one rule
      `i` names. */
  function Holding(rules: seq<Rule>, source: Source, i: nat, x: Value): seq<Fields>
    requires i < |rules|
  {
    if rules[i].source == source then [ValueRecord(rules[i].name, x)] else []
  }

  /** An object whose only record is the one its rule `i` names: the rule's
      test on the record's `Value.value` decides `validate`. */
  lemma SingleRecordDecides(rules: seq<Rule>, i: nat, x: Value)
    requires i < |rules| && DistinctNames(rules)
    ensures RunRules(Holding(rules, FromAttributes, i, x), Holding(rules, FromValues, i, x), rules)
      == if Meets(rules[i].test, x) then Valid else Invalid(rules[i].message)
  {
    var attributez := Holding(rules, FromAttributes, i, x);
    var values := Holding(rules, FromValues, i, x);
    forall j | 0 <= j < |rules| && j != i
      ensures RuleVerdict(attributez, values, rules[j]) == Valid
    {
      OtherRuleValid(rules, i, j, x);
    }
    HeldRuleDecides(rules, i, x);
    OnlyRuleDecides(attributez, values, rules, i);
  }

  /** A rule whose record is missing passes. */
  lemma OtherRuleValid(rules: seq<Rule>, i: nat, j: nat, x: Value)
    requires i < |rules| && j < |rules| && j != i && DistinctNames(rules)
    ensures RuleVerdict(Holding(rules, FromAttributes, i, x), Holding(rules, FromValues, i, x), rules[j]) == Valid
  {
    var r := rules[i];
    var rj := rules[j];
    assert rj.source == r.source ==> rj.name != r.name;
    var held := Holding(rules, rj.source, i, x);
    assert forall k :: 0 <= k < |held| ==> KeyText(GetField(held[k], "id")) == r.name by {
      if |held| == 1 {
        assert GetField(ValueRecord(r.name, x), "id") == Some(Str(r.name));
      }
    }
    FindFirst(held, rj.name);
    assert Find(held, rj.name) == None;
  }

  /** The rule whose record is there decides by its test. */
  lemma HeldRuleDecides(rules: seq<Rule>, i: nat, x: Value)
    requires i < |rules|
    ensures RuleVerdict(Holding(rules, FromAttributes, i, x), Holding(rules, FromValues, i, x), rules[i])
      == if Meets(rules[i].test, x) then Valid else Invalid(rules[i].message)
  {
    var r := rules[i];
    var record := ValueRecord(r.name, x);
    assert Holding(rules, r.source, i, x) == [record];
    assert GetField(record, "id") == Some(Str(r.name));
    assert Find([record], r.name) == Some(record);
    RecordValue(r.name, x, "");
    ValueOfLookup(record);
    assert ValueOf(record) == Ok(Some(x));
  }

  /** The same for the object's own rules. */
  lemma SingleObjectRecord(i: nat, x: Value)
    requires i < |ObjectRules|
    ensures ValidateObject(Holding(ObjectRules, FromAttributes, i, x), Holding(ObjectRules, FromValues, i, x))
      == if Meets(ObjectRules[i].test, x) then Valid else Invalid(ObjectRules[i].message)
  {
    RuleNamesDistinct();
    SingleRecordDecides(ObjectRules, i, x);
  }

  /** An object whose one record is an attribute record a rule names. */
  lemma AttributeRecordDecides(i: nat, x: Value)
    requires i < |ObjectRules| && ObjectRules[i].source == FromAttributes
    ensures ValidateObject([ValueRecord(ObjectRules[i].name, x)], [])
      == if Meets(ObjectRules[i].test, x) then Valid else Invalid(ObjectRules[i].message)
  {
    SingleObjectRecord(i, x);
  }

  /** An object whose one record is a value record a rule names. */
  lemma ValueRecordDecides(i: nat, x: Value)
    requires i < |ObjectRules| && ObjectRules[i].source == FromValues
    ensures ValidateObject([], [ValueRecord(ObjectRules[i].name, x)])
      == if Meets(ObjectRules[i].test, x) then Valid else Invalid(ObjectRules[i].message)
  {
    SingleObjectRecord(i, x);
  }

  /** An object whose one attribute record is `player`: it must be 0 or 1. */
  lemma PlayerRule(x: Value)
    ensures ValidateObject([ValueRecord("player", x)], []) ==
      if IsBinary(x) then Valid else Invalid("invalid attribute: `player' must be 0 or 1")
  {
    AttributeRecordDecides(0, x);
  }

  /** `parents` must be an array of object numbers. */
  lemma ParentsRule(x: Value)
    ensures ValidateObject([ValueRecord("parents", x)], []) ==
      if IsValidObjectNumberArray(x) then Valid else Invalid("invalid attribute: `parents' must be an array of object numbers")
  {
    AttributeRecordDecides(1, x);
  }

  /** The value `name` must be a string. */
  lemma NameRule(x: Value)
    ensures ValidateObject([], [ValueRecord("name", x)]) ==
      if IsString(x) then Valid else Invalid("invalid value: `name' must be a string")
  {
    ValueRecordDecides(2, x);
  }

  /** The value `owner` must be an object number. */
  lemma OwnerRule(x: Value)
    ensures ValidateObject([], [ValueRecord("owner", x)]) ==
      if IsObjectNumber(x) then Valid else Invalid("invalid value: `owner' must be an object number")
  {
    ValueRecordDecides(3, x);
  }

  /** The test suite's cases for `player`. */
  lemma PlayerExamples()
    ensures ValidateObject([ValueRecord("player", Str("test"))], []) == Invalid("invalid attribute: `player' must be 0 or 1")
    ensures ValidateObject([ValueRecord("player", Num(5))], []) == Invalid("invalid attribute: `player' must be 0 or 1")
    ensures ValidateObject([ValueRecord("player", Num(1))], []) == Valid
  {
    PlayerRule(Str("test"));
    PlayerRule(Num(5));
    PlayerRule(Num(1));
  }

  /** The test suite's cases for `parents`. */
  lemma ParentsExamples()
    ensures ValidateObject([ValueRecord("parents", Str("test"))], []) ==
      Invalid("invalid attribute: `parents' must be an array of object numbers")
    ensures ValidateObject([ValueRecord("parents", List([Str("test")]))], []) ==
      Invalid("invalid attribute: `parents' must be an array of object numbers")
    ensures ValidateObject([ValueRecord("parents", List([Str("#1|obj")]))], []) == Valid
  {
    TestIsNoObjectNumber();
    SingletonNotObjectNumbers(Str("test"));
    ObjectNumberOne();
    SingletonObjectNumbers(Str("#1|obj"));
    ParentsRule(Str("test"));
    ParentsRule(List([Str("test")]));
    ParentsRule(List([Str("#1|obj")]));
  }

  lemma TestIsNoObjectNumber()
    ensures !IsObjectNumber(Str("test"))
  {
    assert "test"[0] != "|obj"[0];
  }

  lemma ObjectNumberOne()
    ensures IsObjectNumber(Str("#1|obj"))
  {
    assert "#1|obj"[2..] == "|obj";
  }

  lemma SingletonNotObjectNumbers(x: Value)
    requires !IsObjectNumber(x)
    ensures !IsValidObjectNumberArray(List([x]))
  {
    assert List([x]).items[0] == x;
  }

  lemma SingletonObjectNumbers(x: Value)
    requires IsObjectNumber(x)
    ensures IsValidObjectNumberArray(List([x]))
  {
  }

  /** The test suite's cases for `name`. */
  lemma NameExamples()
    ensures ValidateObject([], [ValueRecord("name", Str("#1|obj"))]) == Invalid("invalid value: `name' must be a string")
    ensures ValidateObject([], [ValueRecord("name", Num(5))]) == Invalid("invalid value: `name' must be a string")
    ensures ValidateObject([], [ValueRecord("name", Str("5"))]) == Valid
  {
    NameKinds();
    NameRule(Str("#1|obj"));
    NameRule(Num(5));
    NameRule(Str("5"));
  }

  /** How the values of the `name` cases are classified. */
  lemma NameKinds()
    ensures !IsString(Str("#1|obj")) && IsString(Str("5"))
  {
    assert "#1|obj"[2..] == "|obj";
    KindOfString("#1|obj");
  }

  /** The test suite's cases for `owner`. */
  lemma OwnerExamples()
    ensures ValidateObject([], [ValueRecord("owner", Str("#1"))]) == Invalid("invalid value: `owner' must be an object number")
    ensures ValidateObject([], [ValueRecord("owner", Num(5))]) == Invalid("invalid value: `owner' must be an object number")
    ensures ValidateObject([], [ValueRecord("owner", Str("#5|obj"))]) == Valid
  {
    OwnerRule(Num(5));
    assert !HasSuffix("#1", "|obj");
    OwnerRule(Str("#1"));
    assert "#5|obj"[2..] == "|obj";
    OwnerRule(Str("#5|obj"));
  }

  /** The attributes and values of an object whose bodies are plain
      records come back through `parse` and `toJSON` as they were sent, in
      every version. */
  lemma ParseThenJson(version: Version, a: Fields, v: Fields)
    requires PlainMap(a) && PlainBodies(version, a) && PlainMap(v) && PlainBodies(version, v)
    ensures ParseResponse(version, [("Attributes", Obj(a)), ("Values", Obj(v))]).Ok?
    ensures var p := ParseResponse(version, [("Attributes", Obj(a)), ("Values", Obj(v))]).value;
      Json(p.attributez, p.values, p.properties, p.verbs)
        == Obj([("Attributes", Obj(a)), ("Values", Obj(v)), ("Properties", List([])), ("Verbs", List([]))])
  {
    ResponseFields(Obj(a), Obj(v));
    MappedLoads(version, a);
    MappedLoads(version, v);
    NoPayload(version, ListedKind(version));
  }

  /** The fields `parse` reads from a response that holds only attributes and values. */
  lemma ResponseFields(a: Value, v: Value)
    ensures var r := [("Attributes", a), ("Values", v)];
      GetField(r, "Attributes") == Some(a) && GetField(r, "Values") == Some(v) &&
      GetField(r, "Properties") == None && GetField(r, "Verbs") == None &&
      GetField(r, "Meta") == None && Remaining(r) == []
  {
    var r := [("Attributes", a), ("Values", v)];
    assert r[1..] == [("Values", v)];
    assert "Values" != "Attributes" && "Properties" != "Attributes" && "Verbs" != "Attributes";
    assert "Properties" != "Values" && "Verbs" != "Values" && "Meta" != "Attributes" && "Meta" != "Values";
    assert DeleteField(r, "Attributes") == [("Values", v)];
  }

  /** A mapped payload of plain bodies loads, in every version, into
      models whose `to_map` is the payload. */
  lemma MappedLoads(version: Version, m: Fields)
    requires PlainMap(m) && PlainBodies(version, m)
    ensures MappedRecords(version, Some(Obj(m))).Ok?
    ensures ToMap(MappedRecords(version, Some(Obj(m))).value) == m
  {
    if version == V000 {
      IdRecordsReset(version, Plain, Some(Obj(m)));
      KeyedPlain(version, m);
      KeyedRoundTrip(m);
    } else {
      MappedRoundTrip(version, m);
    }
  }

  /** An attribute whose body has a dotted key does not come back through
      `parse` and `toJSON` as it was sent: the model's constructor nests
      the key, in every version. */
  lemma DottedBodyNests(version: Version, n: string, f: string, b: string, x: Value)
    requires '.' !in f && '.' !in b && n != "id" && f != "id" && f != "toHTML"
    ensures var sent := Obj([(n, Obj([(Join([f, b], "."), x)]))]);
      ParseResponse(version, [("Attributes", sent), ("Values", Obj([]))]).Ok?
    ensures var sent := Obj([(n, Obj([(Join([f, b], "."), x)]))]);
      var p := ParseResponse(version, [("Attributes", sent), ("Values", Obj([]))]).value;
      Json(p.attributez, p.values, p.properties, p.verbs)
        == Obj([("Attributes", Obj([(n, Obj([(f, Obj([(b, x)]))]))])), ("Values", Obj([])),
                ("Properties", List([])), ("Verbs", List([]))])
    ensures Obj([(n, Obj([(f, Obj([(b, x)]))]))]) != Obj([(n, Obj([(Join([f, b], "."), x)]))])
  {
    DottedParsed(version, n, f, b, x);
    DottedJson(n, f, b, x);
    DottedKeyDiffers(f, b);
  }

  lemma DottedJson(n: string, f: string, b: string, x: Value)
    requires f != "id"
    ensures Json([[(f, Obj([(b, x)])), ("id", Str(n))]], [], [], [])
         == Obj([("Attributes", Obj([(n, Obj([(f, Obj([(b, x)]))]))])), ("Values", Obj([])),
                 ("Properties", List([])), ("Verbs", List([]))])
  {
    var record := [(f, Obj([(b, x)])), ("id", Str(n))];
    assert [record][..0] == [];
    assert DeleteField(record, "id") == [(f, Obj([(b, x)]))];
    assert ToMap([record]) == [(n, Obj([(f, Obj([(b, x)]))]))];
    assert Objs([]) == [];
  }

  /** A dotted key is not its own first segment. */
  lemma DottedKeyDiffers(f: string, b: string)
    requires '.' !in f && '.' !in b
    ensures f != Join([f, b], ".")
  {
    Store.SplitPath([f, b]);
    Store.UndottedKey(f);
  }

  lemma DottedParsed(version: Version, n: string, f: string, b: string, x: Value)
    requires '.' !in f && '.' !in b && n != "id" && f != "id" && f != "toHTML"
    ensures ParseResponse(version, [("Attributes", Obj([(n, Obj([(Join([f, b], "."), x)]))])), ("Values", Obj([]))])
         == Ok(Parsed([[(f, Obj([(b, x)])), ("id", Str(n))]], [], [], [], None, []))
  {
    AttributesOnly(version, Obj([(n, Obj([(Join([f, b], "."), x)]))]));
    DottedMapped(version, n, f, b, x);
  }

  /** A response holding attributes and no values parses to the attribute
      records alone. */
  lemma AttributesOnly(version: Version, a: Value)
    ensures ParseResponse(version, [("Attributes", a), ("Values", Obj([]))])
         == match MappedRecords(version, Some(a))
            case Ok(r) => Ok(Parsed(r, [], [], [], None, []))
            case Err(e) => Err(e)
  {
    ResponseFields(a, Obj([]));
    MappedLoads(version, []);
    NoPayload(version, ListedKind(version));
  }

  /** The attribute records of a mapped payload `{n: {'f.b': x}}`. */
  lemma DottedMapped(version: Version, n: string, f: string, b: string, x: Value)
    requires '.' !in f && '.' !in b && n != "id" && f != "id" && f != "toHTML"
    ensures MappedRecords(version, Some(Obj([(n, Obj([(Join([f, b], "."), x)]))])))
         == Ok([[(f, Obj([(b, x)])), ("id", Str(n))]])
  {
    var key := Join([f, b], ".");
    var m := [(n, Obj([(key, x)]))];
    var record := [(key, x), ("id", Str(n))];
    Store.SplitPath([f, b]);
    Store.UndottedKey("id");
    assert key != "id";
    assert !HasKey([(key, x)], "id");
    assert PutField([(key, x)], "id", Str(n)) == record;
    assert Keyed(Str(n), Obj([(key, x)])) == Ok(record);
    assert m[1..] == [] && KeyedAll([]) == Ok([]);
    assert [record] + [] == [record];
    assert KeyedAll(m) == Ok([record]);
    Store.DottedRecordNests(version, f, b, "id", x, Str(n));
    BuiltOne(version, record);
    if version == V000 {
      IdRecordsReset(version, Plain, Some(Obj(m)));
    } else {
      assert ResetBatch(Some(Obj(m))) == [Obj(m)];
      MappedAdded(m);
    }
  }

  /** No properties or verbs in the response: none in the collection. */
  lemma NoPayload(version: Version, kind: Kind)
    ensures Pushed(version, kind, None) == Ok([])
  {
    assert Objs([]) == [];
    assert AddAll(kind, 0, []) == Ok([]);
    assert Built(version, []) == Ok([]);
  }

  /** `parse` gives each property of an array payload its position as
      `id`, in every version; it fails exactly when the constructor of one
      of those records throws. */
  lemma PropertyPositions(version: Version, items: seq<Value>, i: nat)
    requires forall j :: 0 <= j < |items| ==> items[j].Obj? && DistinctKeys(items[j].fields)
    requires i < |items|
    ensures ParseResponse(version, [("Properties", List(items))]).Ok?
        <==> forall j :: 0 <= j < |items| ==> Store.Constructed(version, PutField(items[j].fields, "id", Num(j))).Ok?
    ensures ParseResponse(version, [("Properties", List(items))]).Ok? ==>
      var p := ParseResponse(version, [("Properties", List(items))]).value;
      |p.properties| == |items| && GetField(p.properties[i], "id") == Some(Num(i))
  {
    PropertiesOnly(version, items);
    PositionIds(items, i);
    IdRecordsReset(version, ListedKind(version), Some(List(items)));
    var record := PutField(items[i].fields, "id", Num(i));
    PutKeepsDistinct(items[i].fields, "id", Num(i));
    if Store.Constructed(version, record).Ok? {
      Store.ConstructedKeepsId(version, record, Num(i));
    }
  }

  /** A response holding only `Properties` parses to their records. */
  lemma PropertiesOnly(version: Version, items: seq<Value>)
    ensures ParseResponse(version, [("Properties", List(items))])
         == match Pushed(version, ListedKind(version), Some(List(items)))
            case Ok(p) => Ok(Parsed([], [], p, [], None, []))
            case Err(e) => Err(e)
  {
    var response := [("Properties", List(items))];
    assert GetField(response, "Attributes") == None && GetField(response, "Values") == None;
    assert GetField(response, "Verbs") == None;
    assert ResetBatch(None) == [];
    assert AddAll(Mapped, 0, []) == Ok([]);
    assert Built(version, []) == Ok([]);
    NoPayload(version, Plain);
    NoPayload(version, ListedKind(version));
    assert Remaining(response) == [];
  }

  /** Without a `Meta` entry `parse` sets no id, so the object keeps the
      one its constructor took from the attributes. */
  lemma NoMetaNoId(version: Version, response: Fields)
    requires !HasKey(response, "Meta")
    ensures ParseResponse(version, response).Ok? ==> ParseResponse(version, response).value.id == None
  {
    var a := DeleteField(response, "Attributes");
    var b := DeleteField(a, "Values");
    var c := DeleteField(b, "Properties");
    GetDeleteOther(response, "Attributes", "Meta");
    GetDeleteOther(a, "Values", "Meta");
    GetDeleteOther(b, "Properties", "Meta");
    GetDeleteOther(c, "Verbs", "Meta");
  }

  /** `parse` takes the object's id from `Meta.id` (0.0.0 does not), and a
      `Meta` that is a string makes it throw. */
  lemma MetaIdParsed(version: Version, x: Value, s: string)
    ensures ParseResponse(version, [("Meta", Obj([("id", x)]))]).Ok?
    ensures ParseResponse(version, [("Meta", Obj([("id", x)]))]).value.id == if version == V000 then None else Some(x)
    ensures version != V000 ==> ParseResponse(version, [("Meta", Str(s))]) == Err(Thrown(TypeError))
  {
    assert ResetBatch(None) == [];
    assert AddAll(Mapped, 0, []) == Ok([]);
    assert Built(version, []) == Ok([]);
    NoPayload(version, Plain);
    NoPayload(version, ListedKind(version));
    assert Remaining([("Meta", Obj([("id", x)]))]) == [("Meta", Obj([("id", x)]))];
    assert Remaining([("Meta", Str(s))]) == [("Meta", Str(s))];
  }
}
