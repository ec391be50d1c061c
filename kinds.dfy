/** The value-kind predicates (`Moo.isString`, `Moo.isObjectNumber`, ...)
    and the `validate` functions of attribute, value, property and verb
    records. A record's `validate` runs its checks in a fixed order and
    returns the message of the first that fails, or nothing. The three
    releases define these identically. */
module Kinds {
  import opened Wrappers
  import opened Text
  import opened Values

  // ------------------------------------------------------------ predicates

  /** `Moo.isString`: a string that is neither an object number nor an error. */
  predicate IsString(v: Value)
  {
    v.Str? && !(HasSuffix(v.s, "|obj") || HasSuffix(v.s, "|err"))
  }

  /** `Moo.isObjectNumber`: a string ending in `|obj`. */
  predicate IsObjectNumber(v: Value)
  {
    v.Str? && HasSuffix(v.s, "|obj")
  }

  /** `Moo.isError`: a string ending in `|err`. */
  predicate IsError(v: Value)
  {
    v.Str? && HasSuffix(v.s, "|err")
  }

  /** `Moo.isBinary`: the number 0 or the number 1 (compared with `===`). */
  predicate IsBinary(v: Value)
  {
    v == Num(0) || v == Num(1)
  }

  /** Characters that stand for themselves inside a regular-expression
      character class. */
  predicate ClassLiteral(allowed: string)
  {
    forall i :: 0 <= i < |allowed| ==> allowed[i] != ']' && allowed[i] != '\\' && allowed[i] != '^' && allowed[i] != '-'
  }

  /** `Moo.isValidPerms(v, allowed)`: a string matching `^[allowed]*$`. */
  predicate IsValidPerms(v: Value, allowed: string)
    requires ClassLiteral(allowed)
  {
    v.Str? && forall i :: 0 <= i < |v.s| ==> v.s[i] in allowed
  }

  /** `Moo.isValidObj`: one of the argument specifiers of a verb. */
  predicate IsValidObj(v: Value)
  {
    v.Str? && v.s in ["this", "none", "any"]
  }

  /** The prepositions a verb may be declared with, in the library's order
      (written in three parts so that facts about them are proved part by
      part). */
  const Preps: seq<string> := PrepsA + PrepsB + PrepsC

  const PrepsA: seq<string> :=
    ["with", "using", "at", "to", "in front of", "in", "inside", "into",
     "on top of", "on"]

  const PrepsB: seq<string> :=
    ["onto", "upon", "out of", "from inside", "from",
     "over", "through", "under", "underneath", "beneath"]

  const PrepsC: seq<string> :=
    ["behind", "beside", "for", "about", "is", "as", "off", "off of", "none", "any"]

  /** `Moo.isValidPrep`. */
  predicate IsValidPrep(v: Value)
  {
    v.Str? && v.s in Preps
  }

  /** `Moo.isValidCode`: an array of strings (in the sense of `IsString`). */
  predicate IsValidCode(v: Value)
  {
    v.List? && forall i :: 0 <= i < |v.items| ==> IsString(v.items[i])
  }

  /** `Moo.isValidObjectNumberArray`: an array of object numbers. */
  predicate IsValidObjectNumberArray(v: Value)
  {
    v.List? && forall i :: 0 <= i < |v.items| ==> IsObjectNumber(v.items[i])
  }

  /** A string ends in at most one tag. */
  lemma {:induction false} OneTag(s: string, t: string, u: string)
    requires |t| == |u| && t != u
    requires HasSuffix(s, t)
    ensures !HasSuffix(s, u)
  {
  }

  /** The predicates read the tag `Classify` finds: a string is an object
      number, an error, or (in the sense of `isString`) a string, and exactly
      one of the three. */
  lemma KindOfString(s: string)
    ensures IsObjectNumber(Str(s)) <==> Classify(s).tag == Some(ObjTag)
    ensures IsError(Str(s)) <==> Classify(s).tag == Some(ErrTag)
    ensures IsString(Str(s)) <==> !IsObjectNumber(Str(s)) && !IsError(Str(s))
    ensures !(IsObjectNumber(Str(s)) && IsError(Str(s)))
  {
    if HasSuffix(s, "|err") {
      OneTag(s, "|err", "|obj");
    }
  }

  /** Any text with `|obj` appended is an object number, and with `|str` or a
      numeric tag appended is a string. */
  lemma TaggedKinds(base: string)
    ensures IsObjectNumber(Str(base + "|obj"))
    ensures IsError(Str(base + "|err"))
    ensures IsString(Str(base + "|str")) && IsString(Str(base + "|int"))
  {
    ClassifyTagged(base, ObjTag);
    ClassifyTagged(base, ErrTag);
    ClassifyTagged(base, StrTag);
    ClassifyTagged(base, IntTag);
    KindOfString(base + "|obj");
    KindOfString(base + "|err");
    KindOfString(base + "|str");
    KindOfString(base + "|int");
  }

  /** The empty string has every permission set, and a permission string is
      valid for a larger set whenever it is valid for a smaller one. */
  lemma PermsMonotone(s: string, allowed: string, allowed': string)
    requires ClassLiteral(allowed) && ClassLiteral(allowed')
    requires forall c :: c in allowed ==> c in allowed'
    ensures IsValidPerms(Str(""), allowed)
    ensures IsValidPerms(Str(s), allowed) ==> IsValidPerms(Str(s), allowed')
  {
  }

  /** A verb's `rwxd` accepts every property permission string `rw` allows
      but no `c`, the property-only permission. */
  lemma PropertyAndVerbPerms(s: string)
    ensures ClassLiteral("rwc") && ClassLiteral("rwxd")
    ensures IsValidPerms(Str(s), "rwc") && 'c' !in s ==> IsValidPerms(Str(s), "rwxd")
    ensures 'c' in s ==> !IsValidPerms(Str(s), "rwxd")
  {
    assert ClassLiteral("rwc") && ClassLiteral("rwxd");
    if IsValidPerms(Str(s), "rwc") && 'c' !in s {
      forall i | 0 <= i < |s| ensures s[i] in "rwxd" {
        assert s[i] in "rwc";
      }
    }
    if 'c' in s {
      var i :| 0 <= i < |s| && s[i] == 'c';
      assert s[i] !in "rwxd";
    }
  }

  /** Arrays: the empty array is valid code and a valid object-number array;
      appending an element keeps validity exactly when the element is valid. */
  lemma ArraysGrow(items: seq<Value>, x: Value)
    ensures IsValidCode(List([])) && IsValidObjectNumberArray(List([]))
    ensures IsValidCode(List(items + [x])) <==> IsValidCode(List(items)) && IsString(x)
    ensures IsValidObjectNumberArray(List(items + [x])) <==> IsValidObjectNumberArray(List(items)) && IsObjectNumber(x)
  {
    var t := items + [x];
    assert forall i :: 0 <= i < |items| ==> t[i] == items[i];
    assert t[|items|] == x;
  }

  // ------------------------------------------------------------ validators

  /** What `validate` comes to: nothing, a message, or a TypeError
      (`'name' in null`, when a record's body is null). */
  datatype Verdict = Valid | Invalid(message: string) | Throws

  /** The test a check applies to a field that is present. */
  datatype Test =
    | StringTest
    | ObjectNumberTest
    | PermsTest(allowed: string)
    | ObjTest
    | PrepTest
    | CodeTest
    | BinaryTest
    | ObjectNumberArrayTest

  predicate WellFormedTest(t: Test)
  {
    t.PermsTest? ==> ClassLiteral(t.allowed)
  }

  predicate Passes(t: Test, v: Value)
    requires WellFormedTest(t)
  {
    match t
    case StringTest => IsString(v)
    case ObjectNumberTest => IsObjectNumber(v)
    case PermsTest(allowed) => IsValidPerms(v, allowed)
    case ObjTest => IsValidObj(v)
    case PrepTest => IsValidPrep(v)
    case CodeTest => IsValidCode(v)
    case BinaryTest => IsBinary(v)
    case ObjectNumberArrayTest => IsValidObjectNumberArray(v)
  }

  /** One check of a record body: if the body has the field `key`, its value
      must pass `test`, or `validate` returns `message`. */
  datatype Check = Check(key: string, test: Test, message: string)

  predicate WellFormedChecks(checks: seq<Check>)
  {
    forall i :: 0 <= i < |checks| ==> WellFormedTest(checks[i].test)
  }

  /** What one check alone says about a body. */
  function CheckVerdict(body: Value, c: Check): Verdict
    requires WellFormedTest(c.test)
  {
    match Member(body, c.key)
    case Err(_) => Throws
    case Ok(None) => Valid
    case Ok(Some(x)) => if Passes(c.test, x) then Valid else Invalid(c.message)
  }

  /** The checks in order; the first that does not pass decides. */
  function RunChecks(body: Value, checks: seq<Check>): (r: Verdict)
    requires WellFormedChecks(checks)
    ensures r.Valid? || exists i :: 0 <= i < |checks| && r == CheckVerdict(body, checks[i])
  {
    if |checks| == 0 then Valid
    else
      var r := CheckVerdict(body, checks[0]);
      if r != Valid then r
      else
        var rest := RunChecks(body, checks[1..]);
        assert rest.Valid? || exists i :: 1 <= i < |checks| && rest == CheckVerdict(body, checks[i]) by {
          if !rest.Valid? {
            var i :| 0 <= i < |checks[1..]| && rest == CheckVerdict(body, checks[1..][i]);
            assert checks[1..][i] == checks[i + 1];
          }
        }
        rest
  }

  /** A record's `validate`: a record without the `root` field is valid; one
      whose `root` is a number or a string is `rootMessage`; otherwise its
      body goes through the checks. (A null body passes `typeof == 'object'`
      and then makes the first check throw.) */
  function ValidateRecord(attrs: Fields, root: string, rootMessage: string, checks: seq<Check>): Verdict
    requires WellFormedChecks(checks)
  {
    match GetField(attrs, root)
    case None => Valid
    case Some(body) =>
      if body.Num? || body.Str? then Invalid(rootMessage) else RunChecks(body, checks)
  }

  const ValueChecks: seq<Check> := [Check("clear", BinaryTest, "invalid value: `clear' must be 0 or 1")]

  const PropertyChecks: seq<Check> :=
    [Check("name", StringTest, "invalid property: `name' must be a string"),
     Check("owner", ObjectNumberTest, "invalid property: `owner' must be an object number"),
     Check("perms", PermsTest("rwc"), "invalid property: `perms' must be in the set 'rwc'")]

  const VerbChecks: seq<Check> :=
    [Check("names", StringTest, "invalid verb: `names' must be a string"),
     Check("owner", ObjectNumberTest, "invalid verb: `owner' must be an object number"),
     Check("perms", PermsTest("rwxd"), "invalid verb: `perms' must be in the set 'rwxd'"),
     Check("dobj", ObjTest, "invalid verb: `dobj' must be valid"),
     Check("prep", PrepTest, "invalid verb: `prep' must be valid"),
     Check("iobj", ObjTest, "invalid verb: `iobj' must be valid"),
     Check("code", CodeTest, "invalid verb: `code' must be an array of strings")]

  lemma ChecksWellFormed()
    ensures WellFormedChecks(ValueChecks) && WellFormedChecks(PropertyChecks) && WellFormedChecks(VerbChecks)
  {
    assert ClassLiteral("rwc") && ClassLiteral("rwxd");
  }

  /** `Moo.Attribute.prototype.validate`. */
  function ValidateAttribute(attrs: Fields): Verdict
  {
    ValidateRecord(attrs, "Value", "invalid attribute", [])
  }

  /** `Moo.Value.prototype.validate`. */
  function ValidateValue(attrs: Fields): Verdict
  {
    ChecksWellFormed();
    ValidateRecord(attrs, "Value", "invalid value", ValueChecks)
  }

  /** `Moo.Property.prototype.validate`. */
  function ValidateProperty(attrs: Fields): Verdict
  {
    ChecksWellFormed();
    ValidateRecord(attrs, "Property", "invalid property", PropertyChecks)
  }

  /** `Moo.Verb.prototype.validate`. */
  function ValidateVerb(attrs: Fields): Verdict
  {
    ChecksWellFormed();
    ValidateRecord(attrs, "Verb", "invalid verb", VerbChecks)
  }

  // ------------------------------------------------------ first failure wins

  /** The checks return the verdict of the first check that does not pass... */
  lemma {:induction false} FirstFailureDecides(body: Value, checks: seq<Check>, i: nat)
    requires WellFormedChecks(checks)
    requires i < |checks| && CheckVerdict(body, checks[i]) != Valid
    requires forall j :: 0 <= j < i ==> CheckVerdict(body, checks[j]) == Valid
    ensures RunChecks(body, checks) == CheckVerdict(body, checks[i])
  {
    if i > 0 {
      assert CheckVerdict(body, checks[0]) == Valid;
      forall j | 0 <= j < i - 1 ensures CheckVerdict(body, checks[1..][j]) == Valid {
        assert checks[1..][j] == checks[j + 1];
      }
      FirstFailureDecides(body, checks[1..], i - 1);
    }
  }

  /** ... and pass exactly when every check passes. */
  lemma {:induction false} AllChecksPass(body: Value, checks: seq<Check>)
    requires WellFormedChecks(checks)
    ensures RunChecks(body, checks) == Valid <==> forall j :: 0 <= j < |checks| ==> CheckVerdict(body, checks[j]) == Valid
  {
    if |checks| > 0 {
      AllChecksPass(body, checks[1..]);
      if CheckVerdict(body, checks[0]) == Valid {
        assert forall j :: 1 <= j < |checks| ==> checks[j] == checks[1..][j - 1];
      }
    }
  }

  /** A body that passes every check, field by field, is valid. */
  lemma BodyOfValidFields(f: Fields, checks: seq<Check>)
    requires WellFormedChecks(checks)
    requires forall j :: 0 <= j < |checks| ==> (GetField(f, checks[j].key).Some?
      ==> Passes(checks[j].test, GetField(f, checks[j].key).value))
    ensures RunChecks(Obj(f), checks) == Valid
  {
    forall j | 0 <= j < |checks| ensures CheckVerdict(Obj(f), checks[j]) == Valid {
      FieldPasses(f, checks[j]);
    }
    AllChecksPass(Obj(f), checks);
  }

  /** One check on an object body passes when the field is absent or its
      value passes the test. */
  lemma FieldPasses(f: Fields, c: Check)
    requires WellFormedTest(c.test)
    requires GetField(f, c.key).Some? ==> Passes(c.test, GetField(f, c.key).value)
    ensures CheckVerdict(Obj(f), c) == Valid
  {
  }

  /** A null body passes the root check and then throws at the first check;
      an array body has none of the checked fields and is valid. */
  lemma OddBodies(attrs: Fields, root: string, rootMessage: string, checks: seq<Check>)
    requires WellFormedChecks(checks) && |checks| > 0
    requires checks[0].key != "length" && !IsIndexKey(checks[0].key)
    ensures GetField(attrs, root) == Some(Null) ==> ValidateRecord(attrs, root, rootMessage, checks) == Throws
    ensures (forall j :: 0 <= j < |checks| ==> checks[j].key != "length" && !IsIndexKey(checks[j].key))
      && GetField(attrs, root).Some? && GetField(attrs, root).value.List?
      ==> ValidateRecord(attrs, root, rootMessage, checks) == Valid
  {
    if GetField(attrs, root).Some? && GetField(attrs, root).value.List? {
      AllChecksPass(GetField(attrs, root).value, checks);
    }
  }

  /** `validate` of a verb returns the message of the first rule it breaks. */
  lemma VerbFirstFailure(attrs: Fields, body: Fields, i: nat)
    requires GetField(attrs, "Verb") == Some(Obj(body))
    requires i < |VerbChecks|
    requires GetField(body, VerbChecks[i].key).Some?
    requires (ChecksWellFormed(); !Passes(VerbChecks[i].test, GetField(body, VerbChecks[i].key).value))
    requires forall j :: 0 <= j < i ==> (GetField(body, VerbChecks[j].key).Some?
      ==> Passes(VerbChecks[j].test, GetField(body, VerbChecks[j].key).value))
    ensures ValidateVerb(attrs) == Invalid(VerbChecks[i].message)
  {
    ChecksWellFormed();
    FirstFailureDecides(Obj(body), VerbChecks, i);
  }

  /** No check's key occurs twice. */
  predicate DistinctCheckKeys(checks: seq<Check>)
  {
    forall i, j :: 0 <= i < j < |checks| ==> checks[i].key != checks[j].key
  }

  /** A record whose body holds just one field, failing that field's test,
      is invalid with that check's message. */
  lemma SingleFieldFails(root: string, rootMessage: string, checks: seq<Check>, i: nat, x: Value)
    requires WellFormedChecks(checks) && DistinctCheckKeys(checks)
    requires i < |checks| && !Passes(checks[i].test, x)
    ensures ValidateRecord([(root, Obj([(checks[i].key, x)]))], root, rootMessage, checks) == Invalid(checks[i].message)
  {
    var body := Obj([(checks[i].key, x)]);
    forall j | 0 <= j < i ensures CheckVerdict(body, checks[j]) == Valid {
      assert checks[j].key != checks[i].key;
    }
    FirstFailureDecides(body, checks, i);
  }

  /** A number other than 0 and 1 passes no test. */
  lemma NumberFailsAll(t: Test, n: int)
    requires WellFormedTest(t) && n != 0 && n != 1
    ensures !Passes(t, Num(n))
  {
  }

  /** No preposition and no argument specifier holds a `|`. */
  lemma NoBarInNames()
    ensures forall p :: p in Preps ==> '|' !in p
    ensures forall p :: p in ["this", "none", "any"] ==> '|' !in p
  {
    NoBarInPrepsA();
    NoBarInPrepsB();
    NoBarInPrepsC();
  }

  lemma NoBarInPrepsA()
    ensures forall p :: p in PrepsA ==> '|' !in p
  {
  }

  lemma NoBarInPrepsB()
    ensures forall p :: p in PrepsB ==> '|' !in p
  {
  }

  lemma NoBarInPrepsC()
    ensures forall p :: p in PrepsC ==> '|' !in p
  {
  }

  /** An error string passes no test (`|` is in no permission set used). */
  lemma ErrorFailsAll(t: Test, b: string)
    requires WellFormedTest(t)
    requires t.PermsTest? ==> '|' !in t.allowed
    ensures !Passes(t, Str(b + "|err"))
  {
    var s := b + "|err";
    match t
    case StringTest =>
      TaggedKinds(b);
      KindOfString(s);
    case ObjectNumberTest =>
      TaggedKinds(b);
      KindOfString(s);
    case PermsTest(allowed) =>
      ErrorHasBar(b);
    case ObjTest =>
      ErrorHasBar(b);
      NoBarInNames();
    case PrepTest =>
      ErrorHasBar(b);
      NoBarInNames();
    case CodeTest =>
    case BinaryTest =>
    case ObjectNumberArrayTest =>
  }

  lemma ErrorHasBar(b: string)
    ensures var s := b + "|err"; |b| < |s| && s[|b|] == '|' && '|' in s
  {
    var s := b + "|err";
    assert s[|b|] == '|';
  }

  lemma RecordChecksDistinct()
    ensures DistinctCheckKeys(ValueChecks) && DistinctCheckKeys(PropertyChecks) && DistinctCheckKeys(VerbChecks)
  {
  }

  /** The rejections the library's own tests expect: a body that is a number
      or a string, and a body whose one field is the number 5 or an error
      string, each with the message of the check concerned. */
  lemma RecordRejections(i: nat, b: string)
    ensures ValidateAttribute([("Value", Num(5))]) == Invalid("invalid attribute")
    ensures ValidateValue([("Value", Str(b))]) == Invalid("invalid value")
    ensures ValidateProperty([("Property", Num(5))]) == Invalid("invalid property")
    ensures ValidateVerb([("Verb", Str(b))]) == Invalid("invalid verb")
    ensures i < |ValueChecks| ==>
      ValidateValue([("Value", Obj([(ValueChecks[i].key, Num(5))]))]) == Invalid(ValueChecks[i].message)
      && ValidateValue([("Value", Obj([(ValueChecks[i].key, Str(b + "|err"))]))]) == Invalid(ValueChecks[i].message)
    ensures i < |PropertyChecks| ==>
      ValidateProperty([("Property", Obj([(PropertyChecks[i].key, Num(5))]))]) == Invalid(PropertyChecks[i].message)
      && ValidateProperty([("Property", Obj([(PropertyChecks[i].key, Str(b + "|err"))]))]) == Invalid(PropertyChecks[i].message)
    ensures i < |VerbChecks| ==>
      ValidateVerb([("Verb", Obj([(VerbChecks[i].key, Num(5))]))]) == Invalid(VerbChecks[i].message)
      && ValidateVerb([("Verb", Obj([(VerbChecks[i].key, Str(b + "|err"))]))]) == Invalid(VerbChecks[i].message)
  {
    ChecksWellFormed();
    RecordChecksDistinct();
    if i < |ValueChecks| {
      NumberFailsAll(ValueChecks[i].test, 5);
      ErrorFailsAll(ValueChecks[i].test, b);
      SingleFieldFails("Value", "invalid value", ValueChecks, i, Num(5));
      SingleFieldFails("Value", "invalid value", ValueChecks, i, Str(b + "|err"));
    }
    if i < |PropertyChecks| {
      NumberFailsAll(PropertyChecks[i].test, 5);
      ErrorFailsAll(PropertyChecks[i].test, b);
      SingleFieldFails("Property", "invalid property", PropertyChecks, i, Num(5));
      SingleFieldFails("Property", "invalid property", PropertyChecks, i, Str(b + "|err"));
    }
    if i < |VerbChecks| {
      NumberFailsAll(VerbChecks[i].test, 5);
      ErrorFailsAll(VerbChecks[i].test, b);
      SingleFieldFails("Verb", "invalid verb", VerbChecks, i, Num(5));
      SingleFieldFails("Verb", "invalid verb", VerbChecks, i, Str(b + "|err"));
    }
  }
}
