/**
 * Operation contracts compiled to JSON Schema.
 *
 * `Parameters` turns a table of operation contracts into a schema; `Valid` evaluates the schema
 * keywords that it uses (JSON Schema Core, sections 10.2.1, 10.2.2 and 10.3.2, and JSON Schema
 * Validation, sections 6.1, 6.3, 6.4 and 6.5).  Annotations never affect validity.
 */
module ToolContracts {
  import opened Wrappers
  import opened CanonicalJson

  datatype TypeName = NullType | BooleanType | IntegerType | StringType | ArrayType | ObjectType

  datatype Property = Property(name: string, schema: Schema)

  datatype Choice = NoChoice | OneOf(choices: seq<Schema>)

  datatype Conditional = Unconditional | IfThen(test: Schema, consequence: Schema)

  datatype Schema =
    | Never                          // the boolean schema `false`
    | Schema(
        typ: Option<TypeName>,
        constant: Option<Value>,
        enumeration: Option<seq<Value>>,
        required: seq<string>,
        properties: seq<Property>,
        additional: bool,            // false: `"additionalProperties": false`
        negated: Option<Schema>,
        oneOf: Choice,
        allOf: seq<Schema>,
        conditional: Conditional,
        minLength: nat,
        nonBlank: bool,              // `"pattern": "\\S"`
        minItems: nat,
        minProperties: nat,
        description: string)

  const Any := Schema(None, None, None, [], [], true, None, NoChoice, [], Unconditional, 0, false, 0, 0, "")

  // ---------- Evaluation ----------

  predicate HasType(t: TypeName, v: Value) {
    match t
    case NullType => v.NullValue?
    case BooleanType => v.BoolValue?
    case IntegerType => v.IntValue?
    case StringType => v.StrValue?
    case ArrayType => v.ArrValue?
    case ObjectType => v.ObjValue?
  }

  // The complement of `\S` in the validator's regular expressions.
  predicate IsSpace(c: char) {
    var n := c as int;
    || 9 <= n <= 13 || 28 <= n <= 32 || n == 0x85 || n == 0xA0 || n == 0x1680
    || 0x2000 <= n <= 0x200A || n == 0x2028 || n == 0x2029 || n == 0x202F || n == 0x205F || n == 0x3000
  }

  predicate HasText(s: string) {
    exists i :: 0 <= i < |s| && !IsSpace(s[i])
  }

  ghost predicate Valid(s: Schema, v: Value)
    decreases s, 1
  {
    && s.Schema?
    && (s.typ.Some? ==> HasType(s.typ.value, v))
    && (s.constant.Some? ==> v == s.constant.value)
    && (s.enumeration.Some? ==> v in s.enumeration.value)
    && (v.ObjValue? ==>
          && (forall k :: k in s.required ==> k in v.fields)
          && (forall i :: 0 <= i < |s.properties| && s.properties[i].name in v.fields ==>
                Valid(s.properties[i].schema, v.fields[s.properties[i].name]))
          && (s.additional || forall k :: k in v.fields ==> k in Names(s.properties))
          && |v.fields| >= s.minProperties)
    && (s.negated.Some? ==> !Valid(s.negated.value, v))
    && (s.oneOf.OneOf? ==> CountValid(s.oneOf.choices, v) == 1)
    && (forall i :: 0 <= i < |s.allOf| ==> Valid(s.allOf[i], v))
    && (s.conditional.IfThen? ==> Valid(s.conditional.test, v) ==> Valid(s.conditional.consequence, v))
    && (v.StrValue? ==> |v.s| >= s.minLength && (s.nonBlank ==> HasText(v.s)))
    && (v.ArrValue? ==> |v.items| >= s.minItems)
  }

  ghost function CountValid(choices: seq<Schema>, v: Value): nat
    decreases choices, 0
  {
    if choices == [] then 0 else (if Valid(choices[0], v) then 1 else 0) + CountValid(choices[1..], v)
  }

  function Names(properties: seq<Property>): (r: set<string>)
    ensures forall k :: k in r <==> exists i :: 0 <= i < |properties| && properties[i].name == k
  {
    set i | 0 <= i < |properties| :: properties[i].name
  }

  // ---------- Contracts ----------

  datatype Contract = Contract(required: seq<string>, optional: seq<string>, oneOf: seq<string>)

  datatype Entry = Entry(name: string, contract: Contract)

  type Table = seq<Entry>

  datatype Config = Config(enabledOperations: Option<set<string>>, allowScriptExecution: bool)

  function Operation(required: seq<string> := [], optional: seq<string> := [], oneOf: seq<string> := []): Contract {
    Contract(required, optional, oneOf)
  }

  function Arguments(c: Contract): set<string> {
    (set k | k in c.required) + (set k | k in c.optional) + set k | k in c.oneOf
  }

  const OPERATION := "operation"

  // The arguments of all enabled operations, and the operation itself.
  function Used(table: Table, enabled: set<string>): set<string> {
    if table == [] then {OPERATION}
    else
      var last := table[|table| - 1];
      Used(table[..|table| - 1], enabled) + if last.name in enabled then Arguments(last.contract) else {}
  }

  // Rejects null and the empty string, list and object, and a string of white space.
  const Present := Any.(negated := Some(Any.(typ := Some(NullType))),
                        minLength := 1, nonBlank := true, minItems := 1, minProperties := 1)

  function Forbidden(properties: seq<Property>, used: set<string>, allowed: set<string>): seq<Property> {
    if properties == [] then []
    else
      var last := properties[|properties| - 1];
      Forbidden(properties[..|properties| - 1], used, allowed)
      + if last.name in used && last.name !in allowed then [Property(last.name, Never)] else []
  }

  // Empty files are valid; their content must still be supplied.
  function Demanded(required: seq<string>): seq<Property> {
    if required == [] then []
    else
      var last := required[|required| - 1];
      Demanded(required[..|required| - 1]) + if last != "file_content" then [Property(last, Present)] else []
  }

  function Alternatives(oneOf: seq<string>): seq<Schema> {
    seq(|oneOf|, i requires 0 <= i < |oneOf| => Any.(required := [oneOf[i]], properties := [Property(oneOf[i], Present)]))
  }

  const NotAList := Any.(negated := Some(Any.(typ := Some(ArrayType))))

  // The analyze operation of visual media takes one image, not a list.
  predicate SingleImage(kind: string, name: string) {
    kind == "visual_media" && name == "analyze"
  }

  function Except(properties: seq<Property>, name: string): (r: seq<Property>)
    ensures forall p :: p in r <==> p in properties && p.name != name
  {
    if properties == [] then []
    else
      var r := (if properties[0].name == name then [] else [properties[0]]) + Except(properties[1..], name);
      assert forall p :: p in properties <==> p == properties[0] || p in properties[1..];
      r
  }

  // The constraints of a branch, with the one on the single image.
  function BranchProperties(kind: string, properties: seq<Property>, used: set<string>, e: Entry): seq<Property> {
    var constraints := Forbidden(properties, used, Arguments(e.contract) + {OPERATION}) + Demanded(e.contract.required);
    if SingleImage(kind, e.name) then Except(constraints, "imageRef") + [Property("imageRef", NotAList)] else constraints
  }

  function Branch(kind: string, properties: seq<Property>, used: set<string>, e: Entry): Schema {
    Any.(required := e.contract.required,
         properties := BranchProperties(kind, properties, used, e),
         oneOf := if e.contract.oneOf == [] then NoChoice else OneOf(Alternatives(e.contract.oneOf)))
  }

  function Rule(kind: string, properties: seq<Property>, used: set<string>, e: Entry): Schema {
    Any.(conditional := IfThen(Any.(properties := [Property(OPERATION, Any.(constant := Some(StrValue(e.name))))]),
                               Branch(kind, properties, used, e)))
  }

  function RulesOf(kind: string, properties: seq<Property>, used: set<string>, table: Table, enabled: set<string>): seq<Schema> {
    if table == [] then []
    else
      var last := table[|table| - 1];
      RulesOf(kind, properties, used, table[..|table| - 1], enabled)
      + if last.name in enabled then [Rule(kind, properties, used, last)] else []
  }

  function EnabledNames(table: Table, enabled: set<string>): seq<Value> {
    if table == [] then []
    else
      var last := table[|table| - 1];
      EnabledNames(table[..|table| - 1], enabled) + if last.name in enabled then [StrValue(last.name)] else []
  }

  function JoinNames(names: seq<string>): string {
    if names == [] then "" else if |names| == 1 then names[0] else names[0] + ", " + JoinNames(names[1..])
  }

  function Describe(e: Property, table: Table, enabled: set<string>): string {
    var permitted := NamesWhere(table, x requires x in table => x.name in enabled && e.name in Arguments(x.contract));
    var required := NamesWhere(table, x requires x in table => x.name in enabled && e.name in x.contract.required);
    (if e.schema.Schema? && e.schema.description != "" then e.schema.description + " " else "")
    + "Allowed only for: " + JoinNames(permitted) + "."
    + if required == [] then "" else " Required for: " + JoinNames(required) + "."
  }

  function NamesWhere(table: Table, keep: Entry --> bool): seq<string>
    requires forall e :: e in table ==> keep.requires(e)
  {
    if table == [] then []
    else (if keep(table[0]) then [table[0].name] else []) + NamesWhere(table[1..], keep)
  }

  // The properties of the emitted schema: the used ones, the operation restricted to the enabled names.
  function Documented(properties: seq<Property>, used: set<string>, table: Table, enabled: set<string>): seq<Property> {
    if properties == [] then []
    else
      var last := properties[|properties| - 1];
      Documented(properties[..|properties| - 1], used, table, enabled) + DocumentedOne(last, used, table, enabled)
  }

  const OPERATION_HELP := "Required operation; supply only the arguments for that operation."

  function DocumentedOne(p: Property, used: set<string>, table: Table, enabled: set<string>): seq<Property> {
    if p.name !in used then []
    else if p.name == OPERATION then
      [Property(OPERATION, Any.(typ := Some(StringType), enumeration := Some(EnabledNames(table, enabled)),
                                description := OPERATION_HELP))]
    else if p.schema.Never? then [p]
    else [Property(p.name, p.schema.(description := Describe(p, table, enabled)))]
  }

  function Compile(kind: string, original: Schema, table: Table, enabled: set<string>): Schema
    requires original.Schema?
  {
    var used := Used(table, enabled);
    original.(properties := Documented(original.properties, used, table, enabled),
              required := [OPERATION],
              additional := false,
              allOf := original.allOf + RulesOf(kind, original.properties, used, table, enabled))
  }

  // ---------- What a contract means ----------

  // Whether a value counts as supplied: not null, and not an empty or blank container or text.
  predicate NonBlank(v: Value) {
    match v
    case NullValue => false
    case StrValue(s) => HasText(s)
    case ArrValue(items) => items != []
    case ObjValue(fields) => fields != map[]
    case _ => true
  }

  predicate Supplied(args: map<string, Value>, k: string) { k in args && NonBlank(args[k]) }

  ghost predicate Fits(kind: string, original: Schema, e: Entry, args: map<string, Value>)
    requires original.Schema?
  {
    && (forall k :: k in args ==> k == OPERATION || k in Arguments(e.contract))
    && (forall p :: p in original.properties && p.name in args && p.name != OPERATION ==> Valid(p.schema, args[p.name]))
    && (forall k :: k in e.contract.required ==> k in args && (k == "file_content" || NonBlank(args[k])))
    && (e.contract.oneOf != [] ==>
          exists k :: k in e.contract.oneOf && Supplied(args, k)
                      && forall l :: l in e.contract.oneOf && l != k ==> !Supplied(args, l))
    && (kind == "visual_media" && e.name == "analyze" && "imageRef" in args ==> !args["imageRef"].ArrValue?)
  }

  ghost predicate Obeys(kind: string, original: Schema, table: Table, enabled: set<string>, args: map<string, Value>)
    requires original.Schema?
  {
    exists e :: e in table && e.name in enabled
                && OPERATION in args && args[OPERATION] == StrValue(e.name)
                && Fits(kind, original, e, args)
  }

  // What the original schema demands beside its own fields and required names.
  function Residual(original: Schema): Schema
    requires original.Schema?
  {
    original.(properties := [], required := [], additional := true)
  }

  ghost predicate Distinct(names: seq<string>) {
    forall i, j :: 0 <= i < j < |names| ==> names[i] != names[j]
  }

  ghost predicate Tidy(kind: string, table: Table) {
    && (forall i, j :: 0 <= i < j < |table| ==> table[i].name != table[j].name)
    && (forall e :: e in table ==> TidyEntry(kind, e))
  }

  ghost predicate TidyEntry(kind: string, e: Entry) {
    && OPERATION !in Arguments(e.contract)
    && Distinct(e.contract.oneOf)
    && (SingleImage(kind, e.name) ==> "imageRef" !in e.contract.required && "imageRef" in Arguments(e.contract))
  }

  // ---------- The schema means the contract ----------

  lemma PresentMeansNonBlank(v: Value)
    ensures Valid(Present, v) <==> NonBlank(v)
  {
  }

  lemma DescriptionIsIdle(s: Schema, d: string, v: Value)
    requires s.Schema?
    ensures Valid(s.(description := d), v) <==> Valid(s, v)
  {
  }

  lemma {:induction false} ForbiddenMembers(properties: seq<Property>, used: set<string>, allowed: set<string>, p: Property)
    ensures p in Forbidden(properties, used, allowed) <==>
            p.schema == Never && p.name in used && p.name !in allowed && p.name in Names(properties)
    decreases |properties|
  {
    if properties != [] {
      var n := |properties| - 1;
      ForbiddenMembers(properties[..n], used, allowed, p);
      assert properties == properties[..n] + [properties[n]];
    }
  }

  lemma {:induction false} DemandedMembers(required: seq<string>, p: Property)
    ensures p in Demanded(required) <==> p.schema == Present && p.name in required && p.name != "file_content"
    decreases |required|
  {
    if required != [] {
      var n := |required| - 1;
      DemandedMembers(required[..n], p);
      assert required == required[..n] + [required[n]];
    }
  }

  // Properties hold of an object exactly if each listed one that is present is valid.
  ghost predicate PropertiesHold(properties: seq<Property>, args: map<string, Value>) {
    forall p :: p in properties && p.name in args ==> Valid(p.schema, args[p.name])
  }

  lemma OnlyProperties(required: seq<string>, properties: seq<Property>, oneOf: Choice, args: map<string, Value>)
    ensures Valid(Any.(required := required, properties := properties, oneOf := oneOf), ObjValue(args)) <==>
            && (forall k :: k in required ==> k in args)
            && PropertiesHold(properties, args)
            && (oneOf.OneOf? ==> Valid(Any.(oneOf := oneOf), ObjValue(args)))
  {
    var s := Any.(required := required, properties := properties, oneOf := oneOf);
    if Valid(s, ObjValue(args)) {
      forall p | p in properties && p.name in args ensures Valid(p.schema, args[p.name]) {
        var i :| 0 <= i < |properties| && properties[i] == p;
        assert s.properties[i] == p;
      }
    }
  }

  lemma AlternativeMeansSupplied(name: string, args: map<string, Value>)
    ensures Valid(Any.(required := [name], properties := [Property(name, Present)]), ObjValue(args)) <==> Supplied(args, name)
  {
    OnlyProperties([name], [Property(name, Present)], NoChoice, args);
    assert Property(name, Present) in [Property(name, Present)];
    if name in args {
      PresentMeansNonBlank(args[name]);
    }
  }

  ghost predicate ExactlyOneSupplied(names: seq<string>, args: map<string, Value>) {
    exists k :: k in names && Supplied(args, k) && forall l :: l in names && l != k ==> !Supplied(args, l)
  }

  ghost function CountSupplied(names: seq<string>, args: map<string, Value>): nat {
    if names == [] then 0 else (if Supplied(args, names[0]) then 1 else 0) + CountSupplied(names[1..], args)
  }

  lemma {:induction false} AlternativesAreCounted(names: seq<string>, args: map<string, Value>)
    ensures CountValid(Alternatives(names), ObjValue(args)) == CountSupplied(names, args)
    decreases |names|
  {
    if names != [] {
      AlternativesAreCounted(names[1..], args);
      AlternativeMeansSupplied(names[0], args);
      assert Alternatives(names)[1..] == Alternatives(names[1..]);
    }
  }

  lemma {:induction false} CountNone(names: seq<string>, args: map<string, Value>)
    ensures CountSupplied(names, args) == 0 <==> forall k :: k in names ==> !Supplied(args, k)
    decreases |names|
  {
    if names != [] {
      CountNone(names[1..], args);
      assert forall k :: k in names <==> k == names[0] || k in names[1..];
    }
  }

  lemma {:induction false} CountOne(names: seq<string>, args: map<string, Value>)
    requires Distinct(names)
    ensures CountSupplied(names, args) == 1 <==> ExactlyOneSupplied(names, args)
    decreases |names|
  {
    if names != [] {
      CountOne(names[1..], args);
      CountNone(names[1..], args);
      assert names == [names[0]] + names[1..];
      assert names[0] !in names[1..];
      OneMoreName(names[0], names[1..], args);
    }
  }

  lemma OneMoreName(k: string, rest: seq<string>, args: map<string, Value>)
    requires k !in rest
    ensures ExactlyOneSupplied([k] + rest, args) <==>
            if Supplied(args, k) then forall l :: l in rest ==> !Supplied(args, l) else ExactlyOneSupplied(rest, args)
  {
    assert forall l :: l in [k] + rest <==> l == k || l in rest;
  }

  lemma AlternativesMeanExactlyOne(names: seq<string>, args: map<string, Value>)
    requires Distinct(names)
    ensures Valid(Any.(oneOf := OneOf(Alternatives(names))), ObjValue(args)) <==> ExactlyOneSupplied(names, args)
  {
    AlternativesAreCounted(names, args);
    CountOne(names, args);
  }

  // The part of `Fits` that a branch enforces once all arguments are used ones.
  ghost predicate FitsBranch(kind: string, e: Entry, args: map<string, Value>) {
    && (forall k :: k in args ==> k == OPERATION || k in Arguments(e.contract))
    && (forall k :: k in e.contract.required ==> k in args && (k == "file_content" || NonBlank(args[k])))
    && (e.contract.oneOf != [] ==> ExactlyOneSupplied(e.contract.oneOf, args))
    && (SingleImage(kind, e.name) && "imageRef" in args ==> !args["imageRef"].ArrValue?)
  }

  lemma ForbiddenMean(properties: seq<Property>, used: set<string>, allowed: set<string>, args: map<string, Value>)
    requires forall k :: k in args ==> k in used && k in Names(properties)
    ensures PropertiesHold(Forbidden(properties, used, allowed), args) <==> forall k :: k in args ==> k in allowed
  {
    var forbidden := Forbidden(properties, used, allowed);
    if PropertiesHold(forbidden, args) {
      forall k | k in args ensures k in allowed {
        ForbiddenMembers(properties, used, allowed, Property(k, Never));
      }
    }
    if forall k :: k in args ==> k in allowed {
      forall p | p in forbidden ensures p.name !in args {
        ForbiddenMembers(properties, used, allowed, p);
      }
    }
  }

  lemma DemandedMean(required: seq<string>, args: map<string, Value>)
    requires forall k :: k in required ==> k in args
    ensures PropertiesHold(Demanded(required), args) <==>
            forall k :: k in required ==> k == "file_content" || NonBlank(args[k])
  {
    if PropertiesHold(Demanded(required), args) {
      forall k | k in required ensures k == "file_content" || NonBlank(args[k]) {
        DemandedMembers(required, Property(k, Present));
        PresentMeansNonBlank(args[k]);
      }
    }
    if forall k :: k in required ==> k == "file_content" || NonBlank(args[k]) {
      forall p | p in Demanded(required) && p.name in args ensures Valid(p.schema, args[p.name]) {
        DemandedMembers(required, p);
        PresentMeansNonBlank(args[p.name]);
      }
    }
  }

  lemma ConstraintsMean(properties: seq<Property>, used: set<string>, e: Entry, args: map<string, Value>)
    requires forall k :: k in args ==> k in used && k in Names(properties)
    requires forall k :: k in e.contract.required ==> k in args
    ensures PropertiesHold(Forbidden(properties, used, Arguments(e.contract) + {OPERATION}) + Demanded(e.contract.required), args) <==>
            && (forall k :: k in args ==> k == OPERATION || k in Arguments(e.contract))
            && (forall k :: k in e.contract.required ==> k == "file_content" || NonBlank(args[k]))
  {
    var allowed := Arguments(e.contract) + {OPERATION};
    ForbiddenMean(properties, used, allowed, args);
    DemandedMean(e.contract.required, args);
    HoldOfBoth(Forbidden(properties, used, allowed), Demanded(e.contract.required), args);
  }

  lemma HoldOfBoth(a: seq<Property>, b: seq<Property>, args: map<string, Value>)
    ensures PropertiesHold(a + b, args) <==> PropertiesHold(a, args) && PropertiesHold(b, args)
  {
    assert forall p :: p in a + b <==> p in a || p in b;
  }

  lemma BranchPropertiesMean(kind: string, properties: seq<Property>, used: set<string>, e: Entry, args: map<string, Value>)
    requires TidyEntry(kind, e)
    requires forall k :: k in args ==> k in used && k in Names(properties)
    requires forall k :: k in e.contract.required ==> k in args
    ensures PropertiesHold(BranchProperties(kind, properties, used, e), args) <==>
            && (forall k :: k in args ==> k == OPERATION || k in Arguments(e.contract))
            && (forall k :: k in e.contract.required ==> k == "file_content" || NonBlank(args[k]))
            && (SingleImage(kind, e.name) && "imageRef" in args ==> !args["imageRef"].ArrValue?)
  {
    ConstraintsMean(properties, used, e, args);
    if SingleImage(kind, e.name) {
      ImageConstraintAdds(properties, used, e, args);
    }
  }

  lemma ChoiceMeans(oneOf: seq<string>, args: map<string, Value>)
    requires Distinct(oneOf)
    ensures var choice := if oneOf == [] then NoChoice else OneOf(Alternatives(oneOf));
            (choice.OneOf? ==> Valid(Any.(oneOf := choice), ObjValue(args))) <==> (oneOf != [] ==> ExactlyOneSupplied(oneOf, args))
  {
    AlternativesMeanExactlyOne(oneOf, args);
  }

  lemma BranchParts(kind: string, properties: seq<Property>, used: set<string>, e: Entry, args: map<string, Value>)
    requires TidyEntry(kind, e)
    ensures Valid(Branch(kind, properties, used, e), ObjValue(args)) <==>
            && (forall k :: k in e.contract.required ==> k in args)
            && PropertiesHold(BranchProperties(kind, properties, used, e), args)
            && (e.contract.oneOf != [] ==> ExactlyOneSupplied(e.contract.oneOf, args))
  {
    var choice := if e.contract.oneOf == [] then NoChoice else OneOf(Alternatives(e.contract.oneOf));
    OnlyProperties(e.contract.required, BranchProperties(kind, properties, used, e), choice, args);
    ChoiceMeans(e.contract.oneOf, args);
  }

  lemma BranchMeansFits(kind: string, properties: seq<Property>, used: set<string>, e: Entry, args: map<string, Value>)
    requires TidyEntry(kind, e)
    requires forall k :: k in args ==> k in used && k in Names(properties)
    ensures Valid(Branch(kind, properties, used, e), ObjValue(args)) <==> FitsBranch(kind, e, args)
  {
    BranchParts(kind, properties, used, e, args);
    if forall k :: k in e.contract.required ==> k in args {
      BranchPropertiesMean(kind, properties, used, e, args);
    }
  }

  lemma ImageConstraintAdds(properties: seq<Property>, used: set<string>, e: Entry, args: map<string, Value>)
    requires "imageRef" !in e.contract.required && "imageRef" in Arguments(e.contract)
    ensures var constraints := Forbidden(properties, used, Arguments(e.contract) + {OPERATION}) + Demanded(e.contract.required);
            PropertiesHold(Except(constraints, "imageRef") + [Property("imageRef", NotAList)], args) <==>
            PropertiesHold(constraints, args) && ("imageRef" in args ==> !args["imageRef"].ArrValue?)
  {
    var image := "imageRef";
    var allowed := Arguments(e.contract) + {OPERATION};
    var constraints := Forbidden(properties, used, allowed) + Demanded(e.contract.required);
    forall p | p in constraints ensures p.name != image {
      ForbiddenMembers(properties, used, allowed, p);
      DemandedMembers(e.contract.required, p);
    }
    assert forall p :: p in Except(constraints, image) <==> p in constraints;
    assert Property(image, NotAList) in Except(constraints, image) + [Property(image, NotAList)];
    if image in args {
      NotAListMeans(args[image]);
    }
  }

  lemma NotAListMeans(v: Value)
    ensures Valid(NotAList, v) <==> !v.ArrValue?
  {
  }

  lemma OperationTest(name: string, args: map<string, Value>)
    ensures Valid(Any.(properties := [Property(OPERATION, Any.(constant := Some(StrValue(name))))]), ObjValue(args)) <==>
            (OPERATION in args ==> args[OPERATION] == StrValue(name))
  {
    var p := Property(OPERATION, Any.(constant := Some(StrValue(name))));
    OnlyProperties([], [p], NoChoice, args);
    assert p in [p];
    if OPERATION in args {
      ConstantMeans(StrValue(name), args[OPERATION]);
    }
  }

  lemma ConstantMeans(c: Value, v: Value)
    ensures Valid(Any.(constant := Some(c)), v) <==> v == c
  {
  }

  lemma ConditionalMeans(test: Schema, consequence: Schema, v: Value)
    ensures Valid(Any.(conditional := IfThen(test, consequence)), v) <==> (Valid(test, v) ==> Valid(consequence, v))
  {
  }

  lemma RuleMeansFits(kind: string, properties: seq<Property>, used: set<string>, e: Entry, args: map<string, Value>)
    requires TidyEntry(kind, e) && OPERATION in args
    requires forall k :: k in args ==> k in used && k in Names(properties)
    ensures Valid(Rule(kind, properties, used, e), ObjValue(args)) <==>
            (args[OPERATION] == StrValue(e.name) ==> FitsBranch(kind, e, args))
  {
    OperationTest(e.name, args);
    BranchMeansFits(kind, properties, used, e, args);
    ConditionalMeans(Any.(properties := [Property(OPERATION, Any.(constant := Some(StrValue(e.name))))]),
                     Branch(kind, properties, used, e), ObjValue(args));
  }

  ghost predicate AllValid(schemas: seq<Schema>, v: Value) {
    forall s :: s in schemas ==> Valid(s, v)
  }

  // What the rule of one entry demands.
  ghost predicate RuleHolds(kind: string, e: Entry, enabled: set<string>, args: map<string, Value>)
    requires OPERATION in args
  {
    e.name in enabled && args[OPERATION] == StrValue(e.name) ==> FitsBranch(kind, e, args)
  }

  ghost predicate RulesHold(kind: string, table: Table, enabled: set<string>, args: map<string, Value>)
    requires OPERATION in args
  {
    forall e :: e in table ==> RuleHolds(kind, e, enabled, args)
  }

  lemma AllOfOne(s: Schema, v: Value)
    ensures AllValid([s], v) <==> Valid(s, v)
  {
    assert s in [s];
  }

  lemma AllOfBoth(a: seq<Schema>, b: seq<Schema>, v: Value)
    ensures AllValid(a + b, v) <==> AllValid(a, v) && AllValid(b, v)
  {
    assert forall s :: s in a + b <==> s in a || s in b;
  }

  lemma RulesOfBoth(kind: string, a: Table, b: Entry, enabled: set<string>, args: map<string, Value>)
    requires OPERATION in args
    ensures RulesHold(kind, a + [b], enabled, args) <==>
            RulesHold(kind, a, enabled, args) && RuleHolds(kind, b, enabled, args)
  {
    assert forall e :: e in a + [b] <==> e in a || e == b;
  }

  lemma LastRuleMeans(kind: string, properties: seq<Property>, used: set<string>, last: Entry, enabled: set<string>,
                      args: map<string, Value>)
    requires TidyEntry(kind, last)
    requires OPERATION in args && forall k :: k in args ==> k in used && k in Names(properties)
    ensures AllValid(if last.name in enabled then [Rule(kind, properties, used, last)] else [], ObjValue(args)) <==>
            RuleHolds(kind, last, enabled, args)
  {
    if last.name in enabled {
      RuleMeansFits(kind, properties, used, last, args);
      AllOfOne(Rule(kind, properties, used, last), ObjValue(args));
    }
  }

  lemma {:induction false} RulesMean(kind: string, properties: seq<Property>, used: set<string>, table: Table,
                                     enabled: set<string>, args: map<string, Value>)
    requires forall e :: e in table ==> TidyEntry(kind, e)
    requires OPERATION in args && forall k :: k in args ==> k in used && k in Names(properties)
    ensures AllValid(RulesOf(kind, properties, used, table, enabled), ObjValue(args)) <==> RulesHold(kind, table, enabled, args)
    decreases |table|
  {
    if table != [] {
      var n := |table| - 1;
      var last, earlier := table[n], table[..n];
      assert forall e :: e in earlier ==> e in table;
      RulesMean(kind, properties, used, earlier, enabled, args);
      LastRuleMeans(kind, properties, used, last, enabled, args);
      AllOfBoth(RulesOf(kind, properties, used, earlier, enabled),
                if last.name in enabled then [Rule(kind, properties, used, last)] else [], ObjValue(args));
      assert table == earlier + [last];
      RulesOfBoth(kind, earlier, last, enabled, args);
    }
  }

  lemma {:induction false} UsedMembers(table: Table, enabled: set<string>, k: string)
    ensures k in Used(table, enabled) <==>
            k == OPERATION || exists i :: 0 <= i < |table| && table[i].name in enabled && k in Arguments(table[i].contract)
    decreases |table|
  {
    if table != [] {
      UsedMembers(table[..|table| - 1], enabled, k);
    }
  }

  lemma {:induction false} EnabledNamesMembers(table: Table, enabled: set<string>, v: Value)
    ensures v in EnabledNames(table, enabled) <==>
            exists i :: 0 <= i < |table| && table[i].name in enabled && v == StrValue(table[i].name)
    decreases |table|
  {
    if table != [] {
      EnabledNamesMembers(table[..|table| - 1], enabled, v);
    }
  }

  ghost predicate FieldsHold(properties: seq<Property>, args: map<string, Value>) {
    forall p :: p in properties && p.name in args && p.name != OPERATION ==> Valid(p.schema, args[p.name])
  }

  lemma OperationProperty(names: seq<Value>, d: string, v: Value)
    requires forall n :: n in names ==> n.StrValue?
    ensures Valid(Any.(typ := Some(StringType), enumeration := Some(names), description := d), v) <==> v in names
  {
  }

  lemma {:induction false} DocumentedNames(properties: seq<Property>, used: set<string>, table: Table, enabled: set<string>)
    ensures Names(Documented(properties, used, table, enabled)) == Names(properties) * used
    decreases |properties|
  {
    if properties != [] {
      var n := |properties| - 1;
      var last, earlier := properties[n], properties[..n];
      DocumentedNames(earlier, used, table, enabled);
      assert properties == earlier + [last];
      NamesOfBoth(earlier, [last]);
      NamesOfBoth(Documented(earlier, used, table, enabled), DocumentedOne(last, used, table, enabled));
      DocumentedLast(last, used, table, enabled, map[]);
    }
  }

  // What the properties of the emitted schema demand: their own schemas, and an enabled operation.
  ghost predicate DocumentedHold(properties: seq<Property>, table: Table, enabled: set<string>, args: map<string, Value>) {
    forall p :: p in properties && p.name in args ==> DocumentedHolds(p, table, enabled, args)
  }

  ghost predicate DocumentedHolds(p: Property, table: Table, enabled: set<string>, args: map<string, Value>)
    requires p.name in args
  {
    if p.name == OPERATION then args[OPERATION] in EnabledNames(table, enabled) else Valid(p.schema, args[p.name])
  }

  lemma DocumentedHoldOfBoth(a: seq<Property>, b: Property, table: Table, enabled: set<string>, args: map<string, Value>)
    ensures DocumentedHold(a + [b], table, enabled, args) <==>
            DocumentedHold(a, table, enabled, args) && (b.name in args ==> DocumentedHolds(b, table, enabled, args))
  {
    assert forall p :: p in a + [b] <==> p in a || p == b;
  }

  lemma {:induction false} DocumentedMean(properties: seq<Property>, used: set<string>, table: Table, enabled: set<string>,
                                          args: map<string, Value>)
    requires forall k :: k in args ==> k in used
    ensures PropertiesHold(Documented(properties, used, table, enabled), args) <==>
            DocumentedHold(properties, table, enabled, args)
    decreases |properties|
  {
    if properties != [] {
      var n := |properties| - 1;
      var last, earlier := properties[n], properties[..n];
      DocumentedMean(earlier, used, table, enabled, args);
      DocumentedLast(last, used, table, enabled, args);
      HoldOfBoth(Documented(earlier, used, table, enabled), DocumentedOne(last, used, table, enabled), args);
      assert properties == earlier + [last];
      DocumentedHoldOfBoth(earlier, last, table, enabled, args);
    }
  }

  lemma DocumentedHoldMeans(properties: seq<Property>, table: Table, enabled: set<string>, args: map<string, Value>)
    requires OPERATION in Names(properties) && OPERATION in args
    ensures DocumentedHold(properties, table, enabled, args) <==>
            FieldsHold(properties, args) && args[OPERATION] in EnabledNames(table, enabled)
  {
    var i :| 0 <= i < |properties| && properties[i].name == OPERATION;
    assert DocumentedHold(properties, table, enabled, args) ==> DocumentedHolds(properties[i], table, enabled, args);
  }

  lemma NamesOfBoth(a: seq<Property>, b: seq<Property>)
    ensures Names(a + b) == Names(a) + Names(b)
  {
    forall k ensures k in Names(a + b) <==> k in Names(a) || k in Names(b) {
      if k in Names(a) {
        var i :| 0 <= i < |a| && a[i].name == k;
        assert (a + b)[i] == a[i];
      }
      if k in Names(b) {
        var i :| 0 <= i < |b| && b[i].name == k;
        assert (a + b)[|a| + i] == b[i];
      }
    }
  }

  lemma DocumentedLast(p: Property, used: set<string>, table: Table, enabled: set<string>, args: map<string, Value>)
    requires forall k :: k in args ==> k in used
    ensures Names(DocumentedOne(p, used, table, enabled)) == {p.name} * used
    ensures PropertiesHold(DocumentedOne(p, used, table, enabled), args) <==>
            if p.name !in args then true
            else if p.name == OPERATION then args[OPERATION] in EnabledNames(table, enabled)
            else Valid(p.schema, args[p.name])
  {
    var here := DocumentedOne(p, used, table, enabled);
    if p.name in used {
      assert here == [here[0]] && here[0].name == p.name;
    }
    if p.name in args {
      var names := EnabledNames(table, enabled);
      forall v | v in names ensures v.StrValue? {
        EnabledNamesMembers(table, enabled, v);
      }
      if p.name == OPERATION {
        OperationProperty(names, here[0].schema.description, args[p.name]);
      } else if p.schema.Schema? {
        DescriptionIsIdle(p.schema, Describe(p, table, enabled), args[p.name]);
      }
      assert here[0] in here;
    }
  }

  // What the emitted schema demands beside its properties and rules.
  lemma CompiledShape(s: Schema, properties: seq<Property>, rules: seq<Schema>, args: map<string, Value>)
    requires s.Schema?
    ensures Valid(s.(properties := properties, required := [OPERATION], additional := false, allOf := s.allOf + rules), ObjValue(args))
            <==>
            && Valid(Residual(s), ObjValue(args))
            && OPERATION in args && (forall k :: k in args ==> k in Names(properties))
            && PropertiesHold(properties, args)
            && AllValid(rules, ObjValue(args))
  {
    var v := ObjValue(args);
    var c := s.(properties := properties, required := [OPERATION], additional := false, allOf := s.allOf + rules);
    AllOfBoth(s.allOf, rules, v);
    AllOfIndexed(s.allOf, v);
    AllOfIndexed(c.allOf, v);
    HoldIndexed(properties, args);
    assert OPERATION in [OPERATION];
  }

  lemma AllOfIndexed(schemas: seq<Schema>, v: Value)
    ensures AllValid(schemas, v) <==> forall i :: 0 <= i < |schemas| ==> Valid(schemas[i], v)
  {
  }

  lemma HoldIndexed(properties: seq<Property>, args: map<string, Value>)
    ensures PropertiesHold(properties, args) <==>
            forall i :: 0 <= i < |properties| && properties[i].name in args ==>
              Valid(properties[i].schema, args[properties[i].name])
  {
    if PropertiesHold(properties, args) {
      forall i | 0 <= i < |properties| && properties[i].name in args
        ensures Valid(properties[i].schema, args[properties[i].name]) {
        assert properties[i] in properties;
      }
    }
  }

  lemma UsedCovers(table: Table, enabled: set<string>, e: Entry)
    requires e in table && e.name in enabled
    ensures Arguments(e.contract) <= Used(table, enabled)
  {
    var i :| 0 <= i < |table| && table[i] == e;
    forall k | k in Arguments(e.contract) ensures k in Used(table, enabled) {
      UsedMembers(table, enabled, k);
    }
  }

  /** The emitted schema accepts exactly the objects that obey the contract of their operation. */
  lemma CompiledMeansObeys(kind: string, original: Schema, table: Table, enabled: set<string>, args: map<string, Value>)
    requires original.Schema?
    requires Tidy(kind, table) && Used(table, enabled) <= Names(original.properties)
    ensures Valid(Compile(kind, original, table, enabled), ObjValue(args)) <==>
            Valid(Residual(original), ObjValue(args)) && Obeys(kind, original, table, enabled, args)
  {
    var used := Used(table, enabled);
    UsedMembers(table, enabled, OPERATION);
    var properties := Documented(original.properties, used, table, enabled);
    CompiledShape(original, properties, RulesOf(kind, original.properties, used, table, enabled), args);
    DocumentedNames(original.properties, used, table, enabled);
    ObeysUsesOnlyUsed(kind, original, table, enabled, args);
    if OPERATION in args && forall k :: k in args ==> k in used {
      DocumentedMean(original.properties, used, table, enabled, args);
      DocumentedHoldMeans(original.properties, table, enabled, args);
      RulesMean(kind, original.properties, used, table, enabled, args);
      RulesMeanObeys(kind, original, table, enabled, args);
    }
  }

  lemma ObeysUsesOnlyUsed(kind: string, original: Schema, table: Table, enabled: set<string>, args: map<string, Value>)
    requires original.Schema?
    ensures Obeys(kind, original, table, enabled, args) ==>
              OPERATION in args && forall k :: k in args ==> k in Used(table, enabled)
  {
    if Obeys(kind, original, table, enabled, args) {
      var e :| e in table && e.name in enabled && OPERATION in args && args[OPERATION] == StrValue(e.name)
               && Fits(kind, original, e, args);
      UsedCovers(table, enabled, e);
      UsedMembers(table, enabled, OPERATION);
    }
  }

  lemma RulesMeanObeys(kind: string, original: Schema, table: Table, enabled: set<string>, args: map<string, Value>)
    requires original.Schema? && Tidy(kind, table) && OPERATION in args
    ensures Obeys(kind, original, table, enabled, args) <==>
            && args[OPERATION] in EnabledNames(table, enabled)
            && FieldsHold(original.properties, args)
            && RulesHold(kind, table, enabled, args)
  {
    EnabledNamesMembers(table, enabled, args[OPERATION]);
    if args[OPERATION] in EnabledNames(table, enabled) {
      var i :| 0 <= i < |table| && table[i].name in enabled && args[OPERATION] == StrValue(table[i].name);
      OnlyRule(kind, table, enabled, args, i);
      FitsParts(kind, original, table[i], args);
    }
  }

  lemma FitsParts(kind: string, original: Schema, e: Entry, args: map<string, Value>)
    requires original.Schema?
    ensures Fits(kind, original, e, args) <==> FieldsHold(original.properties, args) && FitsBranch(kind, e, args)
  {
  }

  lemma OnlyRule(kind: string, table: Table, enabled: set<string>, args: map<string, Value>, i: nat)
    requires Tidy(kind, table) && OPERATION in args
    requires i < |table| && table[i].name in enabled && args[OPERATION] == StrValue(table[i].name)
    ensures RulesHold(kind, table, enabled, args) <==> FitsBranch(kind, table[i], args)
    ensures forall e :: e in table && args[OPERATION] == StrValue(e.name) ==> e == table[i]
  {
    forall e | e in table && args[OPERATION] == StrValue(e.name) ensures e == table[i] {
      var j :| 0 <= j < |table| && table[j] == e;
    }
    assert RulesHold(kind, table, enabled, args) ==> RuleHolds(kind, table[i], enabled, args);
  }

  // ---------- The configured tools ----------

  const AgentSkills: Table := [
    Entry("list_skills", Operation(optional := ["query"])),
    Entry("load_skill", Operation(["skill_name"], ["resource"])),
    Entry("run_skill_script", Operation(["skill_name", "script"], ["args"]))]

  const SourceVerifier: Table := [
    Entry("verify_claim", Operation(["claim", "source_url"], ["context"])),
    Entry("plan_sources", Operation(["research_question"], ["selected_sources_json", "disabled_sources_json", "depth"])),
    Entry("audit_citations", Operation(["answer_markdown"], ["source_urls_json", "require_references"]))]

  const VisualMedia: Table := [
    Entry("generate", Operation(["prompt"], ["brief", "options", "guidance", "background"])),
    Entry("edit", Operation(["prompt", "imageRef"], ["brief", "options", "guidance", "background"])),
    Entry("analyze", Operation(["question"], oneOf := ["imageRef", "image_url", "videoRef", "video_url"]))]

  const Ingest: Table := [
    Entry("search", Operation(["query"], ["collection_name", "top_k", "filters"])),
    Entry("list_collections", Operation()),
    Entry("ingest", Operation(optional := ["collection_name", "provenance", "chunk_size", "chunk_overlap"],
                              oneOf := ["documentRef", "documentRefs"])),
    Entry("extract", Operation(["documentRef"]))]

  const Sandbox: Table := [
    Entry("list_commands", Operation()),
    Entry("execute", Operation(optional := ["timeout_seconds", "env_json", "working_directory"], oneOf := ["argv", "command"])),
    Entry("write_file", Operation(["file_path", "file_content"], ["append"])),
    Entry("read_file", Operation(["file_path"])),
    Entry("publish_file", Operation(["file_path"]))]

  function Operations(kind: string): Option<Table> {
    if kind == "agent_skills" then Some(AgentSkills)
    else if kind == "source_verifier" then Some(SourceVerifier)
    else if kind == "visual_media" then Some(VisualMedia)
    else if kind == "nat_nv_ingest" then Some(Ingest)
    else if kind == "llm_sandbox" then Some(Sandbox)
    else None
  }

  function OperationNames(table: Table): set<string> { set e | e in table :: e.name }

  function Enabled(kind: string, table: Table, config: Config): set<string> {
    var enabled := if config.enabledOperations.Some? then config.enabledOperations.value else OperationNames(table);
    if kind == "agent_skills" && !config.allowScriptExecution then enabled - {"run_skill_script"} else enabled
  }

  datatype Outcome = Emitted(schema: Schema) | MissingArgument | UnknownOperation | UnknownArgument

  const Nothing := Any.(typ := Some(ObjectType), negated := Some(Any))

  const SingleQuery := Any.(required := ["query"], properties := [Property("query", Present), Property("queries", Never)])

  const Discovery := Any.(required := ["mode", "queries"],
                          properties := [Property("mode", Any.(constant := Some(StrValue("discover")))),
                                         Property("queries", Present), Property("query", Never),
                                         Property("feed_scope", Never)])

  function Feed(original: Schema): Schema
    requires original.Schema?
  {
    original.(additional := false, oneOf := OneOf([SingleQuery, Discovery]))
  }

  function Parameters(kind: string, original: Schema, config: Config): Outcome
    requires original.Schema?
  {
    if kind == "rss_feed" then
      if {"query", "queries"} <= Names(original.properties) then Emitted(Feed(original)) else MissingArgument
    else if Operations(kind).None? then Emitted(original)
    else Contracted(kind, original, Operations(kind).value, config)
  }

  function Contracted(kind: string, original: Schema, table: Table, config: Config): Outcome
    requires original.Schema?
  {
    var enabled := Enabled(kind, table, config);
    if !(enabled <= OperationNames(table)) then UnknownOperation
    else if enabled == {} then Emitted(Nothing)
    else if !(Used(table, enabled) <= Names(original.properties)) then UnknownArgument
    else Emitted(Compile(kind, original, table, enabled))
  }

  lemma TidyTable(kind: string, table: Table)
    requires forall i, j :: 0 <= i < j < |table| ==> table[i].name != table[j].name
    requires forall i :: 0 <= i < |table| ==> TidyEntry(kind, table[i])
    ensures Tidy(kind, table)
  {
  }

  lemma AgentSkillsIsTidy()
    ensures Tidy("agent_skills", AgentSkills)
  {
    assert TidyEntry("agent_skills", AgentSkills[0]);
    assert TidyEntry("agent_skills", AgentSkills[1]);
    assert TidyEntry("agent_skills", AgentSkills[2]);
    TidyTable("agent_skills", AgentSkills);
  }

  lemma SourceVerifierIsTidy()
    ensures Tidy("source_verifier", SourceVerifier)
  {
    assert TidyEntry("source_verifier", SourceVerifier[0]);
    assert TidyEntry("source_verifier", SourceVerifier[1]);
    assert TidyEntry("source_verifier", SourceVerifier[2]);
    TidyTable("source_verifier", SourceVerifier);
  }

  lemma VisualMediaIsTidy()
    ensures Tidy("visual_media", VisualMedia)
  {
    assert TidyEntry("visual_media", VisualMedia[0]);
    assert TidyEntry("visual_media", VisualMedia[1]);
    assert TidyEntry("visual_media", VisualMedia[2]);
    TidyTable("visual_media", VisualMedia);
  }

  lemma IngestIsTidy()
    ensures Tidy("nat_nv_ingest", Ingest)
  {
    assert TidyEntry("nat_nv_ingest", Ingest[0]);
    assert TidyEntry("nat_nv_ingest", Ingest[1]);
    assert TidyEntry("nat_nv_ingest", Ingest[2]);
    assert TidyEntry("nat_nv_ingest", Ingest[3]);
    TidyTable("nat_nv_ingest", Ingest);
  }

  lemma SandboxIsTidy()
    ensures Tidy("llm_sandbox", Sandbox)
  {
    assert TidyEntry("llm_sandbox", Sandbox[0]);
    assert TidyEntry("llm_sandbox", Sandbox[1]);
    assert TidyEntry("llm_sandbox", Sandbox[2]);
    assert TidyEntry("llm_sandbox", Sandbox[3]);
    assert TidyEntry("llm_sandbox", Sandbox[4]);
    TidyTable("llm_sandbox", Sandbox);
  }

  lemma ContractsAreTidy(kind: string)
    requires Operations(kind).Some?
    ensures Tidy(kind, Operations(kind).value)
  {
    AgentSkillsIsTidy();
    SourceVerifierIsTidy();
    VisualMediaIsTidy();
    IngestIsTidy();
    SandboxIsTidy();
  }

  // The operator enabled the operation, or named none, and allowed scripts where it runs one.
  predicate Permitted(kind: string, config: Config, name: string) {
    && (config.enabledOperations.Some? ==> name in config.enabledOperations.value)
    && (kind == "agent_skills" && name == "run_skill_script" ==> config.allowScriptExecution)
  }

  // A call of one permitted operation with the arguments of its contract.
  ghost predicate CallsPermitted(kind: string, original: Schema, config: Config, args: map<string, Value>)
    requires original.Schema? && Operations(kind).Some?
  {
    exists e :: e in Operations(kind).value && Permitted(kind, config, e.name)
                && OPERATION in args && args[OPERATION] == StrValue(e.name)
                && Fits(kind, original, e, args)
  }

  lemma EnabledMeansPermitted(kind: string, table: Table, config: Config, e: Entry)
    requires e in table
    ensures e.name in Enabled(kind, table, config) <==> Permitted(kind, config, e.name)
  {
    assert e.name in OperationNames(table);
  }

  lemma ObeysMeansCallsPermitted(kind: string, original: Schema, config: Config, args: map<string, Value>)
    requires original.Schema? && Operations(kind).Some?
    ensures Obeys(kind, original, Operations(kind).value, Enabled(kind, Operations(kind).value, config), args) <==>
            CallsPermitted(kind, original, config, args)
  {
    var table := Operations(kind).value;
    forall e | e in table ensures e.name in Enabled(kind, table, config) <==> Permitted(kind, config, e.name) {
      EnabledMeansPermitted(kind, table, config, e);
    }
  }

  /**
   * For a tool with contracts, an emitted schema accepts exactly the calls of one permitted operation
   * with the arguments of its contract, beside what the original schema demands of the whole object.
   */
  lemma ParametersMeanTheContracts(kind: string, original: Schema, config: Config, args: map<string, Value>)
    requires original.Schema? && kind != "rss_feed" && Operations(kind).Some?
    requires Parameters(kind, original, config).Emitted?
    ensures Valid(Parameters(kind, original, config).schema, ObjValue(args)) <==>
            CallsPermitted(kind, original, config, args) && Valid(Residual(original), ObjValue(args))
  {
    var table := Operations(kind).value;
    ContractsAreTidy(kind);
    ObeysMeansCallsPermitted(kind, original, config, args);
    if Enabled(kind, table, config) != {} {
      CompiledMeansObeys(kind, original, table, Enabled(kind, table, config), args);
    } else {
      NothingIsAccepted(ObjValue(args));
    }
  }

  /** Unless scripts are allowed, no accepted arguments ask for one. */
  lemma ScriptsNeedPermission(original: Schema, config: Config, args: map<string, Value>)
    requires original.Schema? && !config.allowScriptExecution
    requires Parameters("agent_skills", original, config).Emitted?
    requires OPERATION in args && args[OPERATION] == StrValue("run_skill_script")
    ensures !Valid(Parameters("agent_skills", original, config).schema, ObjValue(args))
  {
    ParametersMeanTheContracts("agent_skills", original, config, args);
  }

  /**
   * An accepted operation is one of the tool's, is configured unless none are, and needs permission
   * where it runs a script.
   */
  lemma AcceptedOperationsArePermitted(kind: string, original: Schema, config: Config, args: map<string, Value>)
    requires original.Schema? && kind != "rss_feed" && Operations(kind).Some?
    requires Parameters(kind, original, config).Emitted?
    requires Valid(Parameters(kind, original, config).schema, ObjValue(args))
    ensures OPERATION in args && args[OPERATION].StrValue?
    ensures args[OPERATION].s in OperationNames(Operations(kind).value)
    ensures config.enabledOperations.Some? ==> args[OPERATION].s in config.enabledOperations.value
    ensures kind == "agent_skills" && args[OPERATION].s == "run_skill_script" ==> config.allowScriptExecution
  {
    ParametersMeanTheContracts(kind, original, config, args);
  }

  // The operation names that a schema offers.
  function Offered(s: Schema): seq<Value>
    requires s.Schema?
  {
    OfferedIn(s.properties)
  }

  function OfferedIn(properties: seq<Property>): seq<Value> {
    if properties == [] then []
    else (if properties[0].name == OPERATION && properties[0].schema.Schema? && properties[0].schema.enumeration.Some?
          then properties[0].schema.enumeration.value else []) + OfferedIn(properties[1..])
  }

  /** Whenever some operation is permitted, the schema offers exactly the permitted ones. */
  lemma PermittedOperationsAreOffered(kind: string, original: Schema, config: Config, name: string)
    requires original.Schema? && kind != "rss_feed" && Operations(kind).Some?
    requires Parameters(kind, original, config).Emitted?
    requires exists n :: n in OperationNames(Operations(kind).value) && Permitted(kind, config, n)
    ensures Parameters(kind, original, config).schema.Schema?
    ensures StrValue(name) in Offered(Parameters(kind, original, config).schema) <==>
            name in OperationNames(Operations(kind).value) && Permitted(kind, config, name)
  {
    ContractedOffers(kind, original, Operations(kind).value, config, name);
  }

  lemma ContractedOffers(kind: string, original: Schema, table: Table, config: Config, name: string)
    requires original.Schema? && Contracted(kind, original, table, config).Emitted?
    requires exists n :: n in OperationNames(table) && Permitted(kind, config, n)
    ensures Contracted(kind, original, table, config).schema.Schema?
    ensures StrValue(name) in Offered(Contracted(kind, original, table, config).schema) <==>
            name in OperationNames(table) && Permitted(kind, config, name)
  {
    var enabled := Enabled(kind, table, config);
    var n :| n in OperationNames(table) && Permitted(kind, config, n);
    SomeIsEnabled(kind, table, config, n);
    CompiledSchemasOffer(kind, original, table, enabled, StrValue(name));
    EnabledNamesMembers(table, enabled, StrValue(name));
    NamedEntries(table, name);
    if e :| e in table && e.name == name {
      EnabledMeansPermitted(kind, table, config, e);
    }
  }

  lemma CompiledSchemasOffer(kind: string, original: Schema, table: Table, enabled: set<string>, v: Value)
    requires original.Schema? && Used(table, enabled) <= Names(original.properties)
    ensures v in Offered(Compile(kind, original, table, enabled)) <==> v in EnabledNames(table, enabled)
  {
    var used := Used(table, enabled);
    UsedMembers(table, enabled, OPERATION);
    assert OPERATION in Names(original.properties);
    DocumentedOffer(original.properties, used, table, enabled, v);
  }

  lemma {:induction false} OfferedJoin(a: seq<Property>, b: seq<Property>)
    ensures OfferedIn(a + b) == OfferedIn(a) + OfferedIn(b)
    decreases |a|
  {
    if a == [] {
      assert a + b == b;
    } else {
      assert (a + b)[1..] == a[1..] + b;
      OfferedJoin(a[1..], b);
    }
  }

  lemma OneOffers(p: Property, used: set<string>, table: Table, enabled: set<string>)
    requires OPERATION in used
    ensures OfferedIn(DocumentedOne(p, used, table, enabled)) == if p.name == OPERATION then EnabledNames(table, enabled) else []
  {
    var one := DocumentedOne(p, used, table, enabled);
    if one != [] {
      assert one[1..] == [];
    }
  }

  lemma {:induction false} DocumentedOffer(properties: seq<Property>, used: set<string>, table: Table, enabled: set<string>, v: Value)
    requires OPERATION in used
    ensures v in OfferedIn(Documented(properties, used, table, enabled)) <==>
            OPERATION in Names(properties) && v in EnabledNames(table, enabled)
    decreases |properties|
  {
    if properties != [] {
      var n := |properties| - 1;
      DocumentedOffer(properties[..n], used, table, enabled, v);
      OneOffers(properties[n], used, table, enabled);
      OfferedJoin(Documented(properties[..n], used, table, enabled), DocumentedOne(properties[n], used, table, enabled));
      InEither(v, OfferedIn(Documented(properties[..n], used, table, enabled)), OfferedIn(DocumentedOne(properties[n], used, table, enabled)));
      NamesOfOneMore(properties, OPERATION);
    }
  }

  lemma InEither<T>(v: T, a: seq<T>, b: seq<T>)
    ensures v in a + b <==> v in a || v in b
  {
  }

  lemma NamesOfOneMore(properties: seq<Property>, k: string)
    requires properties != []
    ensures var n := |properties| - 1;
            k in Names(properties) <==> k in Names(properties[..n]) || k == properties[n].name
  {
    var n := |properties| - 1;
    if k in Names(properties[..n]) {
      var i :| 0 <= i < n && properties[..n][i].name == k;
      assert properties[i].name == k;
    }
    if k in Names(properties) {
      var i :| 0 <= i < |properties| && properties[i].name == k;
      assert i < n ==> properties[..n][i].name == k;
    }
  }

  lemma NamedEntries(table: Table, name: string)
    ensures name in OperationNames(table) <==> exists e :: e in table && e.name == name
  {
  }

  lemma SomeIsEnabled(kind: string, table: Table, config: Config, name: string)
    requires name in OperationNames(table) && Permitted(kind, config, name)
    ensures name in Enabled(kind, table, config)
  {
    var e :| e in table && e.name == name;
    EnabledMeansPermitted(kind, table, config, e);
  }

  ghost predicate NamesUnknown(table: Table, config: Config) {
    config.enabledOperations.Some? && exists n :: n in config.enabledOperations.value && n !in OperationNames(table)
  }

  ghost predicate LacksArgument(kind: string, original: Schema, table: Table, config: Config)
    requires original.Schema?
  {
    exists e :: e in table && Permitted(kind, config, e.name)
                && exists k :: (k == OPERATION || k in Arguments(e.contract)) && k !in Names(original.properties)
  }

  /**
   * A configuration is refused exactly if it enables an operation that the tool does not have, or a
   * permitted operation takes an argument that the tool's own schema does not name.
   */
  lemma FaultsAreExact(kind: string, original: Schema, config: Config)
    requires original.Schema? && kind != "rss_feed" && Operations(kind).Some?
    ensures var table := Operations(kind).value;
            var r := Parameters(kind, original, config);
            && (r.UnknownOperation? <==> NamesUnknown(table, config))
            && (r.UnknownArgument? <==> !NamesUnknown(table, config) && LacksArgument(kind, original, table, config))
            && !r.MissingArgument?
  {
    ScriptsAreKnown(kind);
    ContractedFaults(kind, original, Operations(kind).value, config);
  }

  lemma ContractedFaults(kind: string, original: Schema, table: Table, config: Config)
    requires original.Schema? && (kind == "agent_skills" ==> "run_skill_script" in OperationNames(table))
    ensures var r := Contracted(kind, original, table, config);
            && (r.UnknownOperation? <==> NamesUnknown(table, config))
            && (r.UnknownArgument? <==> !NamesUnknown(table, config) && LacksArgument(kind, original, table, config))
            && !r.MissingArgument?
  {
    var enabled := Enabled(kind, table, config);
    UnknownNames(kind, table, config);
    forall e | e in table ensures e.name in enabled <==> Permitted(kind, config, e.name) {
      EnabledMeansPermitted(kind, table, config, e);
    }
    forall k ensures k in Used(table, enabled) <==>
                     k == OPERATION || exists e :: e in table && e.name in enabled && k in Arguments(e.contract) {
      UsedMembers(table, enabled, k);
    }
    if enabled <= OperationNames(table) && enabled != {} {
      var n :| n in enabled;
      NamedEntries(table, n);
    }
  }

  lemma UnknownNames(kind: string, table: Table, config: Config)
    requires kind == "agent_skills" ==> "run_skill_script" in OperationNames(table)
    ensures Enabled(kind, table, config) <= OperationNames(table) <==> !NamesUnknown(table, config)
  {
  }

  lemma ScriptsAreKnown(kind: string)
    ensures kind == "agent_skills" ==> Operations(kind).Some? && "run_skill_script" in OperationNames(Operations(kind).value)
  {
    assert AgentSkills[2] in AgentSkills;
  }

  /** An empty set of enabled operations accepts nothing at all. */
  lemma NothingIsAccepted(v: Value)
    ensures !Valid(Nothing, v)
  {
    assert Valid(Any, v);
  }

  // One query, or several in discovery mode; never both.
  predicate FeedArguments(args: map<string, Value>) {
    || (Supplied(args, "query") && "queries" !in args)
    || (Supplied(args, "queries") && "mode" in args && args["mode"] == StrValue("discover")
        && "query" !in args && "feed_scope" !in args)
  }

  lemma SingleQueryMeans(args: map<string, Value>)
    ensures Valid(SingleQuery, ObjValue(args)) <==> Supplied(args, "query") && "queries" !in args
  {
    var a, b := [Property("query", Present)], [Property("queries", Never)];
    OnlyProperties(["query"], SingleQuery.properties, NoChoice, args);
    assert SingleQuery.properties == a + b;
    HoldOfBoth(a, b, args);
    assert a[0] in a && b[0] in b && "query" in SingleQuery.required;
    if "query" in args {
      PresentMeansNonBlank(args["query"]);
    }
  }

  lemma DiscoveryMeans(args: map<string, Value>)
    ensures Valid(Discovery, ObjValue(args)) <==>
            && Supplied(args, "queries") && "mode" in args && args["mode"] == StrValue("discover")
            && "query" !in args && "feed_scope" !in args
  {
    var mode, queries := [Property("mode", Any.(constant := Some(StrValue("discover"))))], [Property("queries", Present)];
    var query, scope := [Property("query", Never)], [Property("feed_scope", Never)];
    OnlyProperties(["mode", "queries"], Discovery.properties, NoChoice, args);
    assert Discovery.properties == mode + queries + (query + scope);
    HoldOfBoth(mode + queries, query + scope, args);
    HoldOfBoth(mode, queries, args);
    HoldOfBoth(query, scope, args);
    assert mode[0] in mode && queries[0] in queries && query[0] in query && scope[0] in scope;
    assert "mode" in Discovery.required && "queries" in Discovery.required;
    if "mode" in args {
      ConstantMeans(StrValue("discover"), args["mode"]);
    }
    if "queries" in args {
      PresentMeansNonBlank(args["queries"]);
    }
  }

  lemma FeedShape(original: Schema, args: map<string, Value>)
    requires original.Schema?
    ensures Valid(Feed(original), ObjValue(args)) <==>
            && Valid(original.(oneOf := NoChoice), ObjValue(args))
            && (forall k :: k in args ==> k in Names(original.properties))
            && CountValid([SingleQuery, Discovery], ObjValue(args)) == 1
  {
  }

  /** The feed tool takes one query, or several in discovery mode, beside what its fields demand. */
  lemma FeedMeans(original: Schema, args: map<string, Value>)
    requires original.Schema?
    ensures Valid(Feed(original), ObjValue(args)) <==>
            && Valid(original.(oneOf := NoChoice), ObjValue(args))
            && (forall k :: k in args ==> k in Names(original.properties))
            && FeedArguments(args)
  {
    FeedShape(original, args);
    SingleQueryMeans(args);
    DiscoveryMeans(args);
    var v := ObjValue(args);
    assert [SingleQuery, Discovery][1..] == [Discovery] && [Discovery][1..] == [];
    assert CountValid([Discovery], v) == if Valid(Discovery, v) then 1 else 0;
  }

  /** The feed tool's schema is emitted exactly if it has both fields, and then means one of its two forms. */
  lemma FeedParametersMean(original: Schema, config: Config, args: map<string, Value>)
    requires original.Schema?
    ensures Parameters("rss_feed", original, config).Emitted? <==>
            "query" in Names(original.properties) && "queries" in Names(original.properties)
    ensures Parameters("rss_feed", original, config).Emitted? ==>
              (Valid(Parameters("rss_feed", original, config).schema, ObjValue(args)) <==>
               && Valid(original.(oneOf := NoChoice), ObjValue(args))
               && (forall k :: k in args ==> k in Names(original.properties))
               && FeedArguments(args))
  {
    FeedMeans(original, args);
  }

  /** A tool without contracts keeps its own schema. */
  lemma OtherToolsKeepTheirSchema(kind: string, original: Schema, config: Config)
    requires original.Schema?
    requires kind !in {"rss_feed", "agent_skills", "source_verifier", "visual_media", "nat_nv_ingest", "llm_sandbox"}
    ensures Parameters(kind, original, config) == Emitted(original)
  {
  }

  // ---------- What accepted calls carry ----------

  ghost predicate ExactlyOne(args: map<string, Value>, keys: seq<string>) {
    exists k :: k in keys && Supplied(args, k) && forall l :: l in keys && l != k ==> !Supplied(args, l)
  }

  predicate Asks(args: map<string, Value>, name: string) {
    OPERATION in args && args[OPERATION] == StrValue(name)
  }

  // The arguments that a contract asks for and permits.
  ghost predicate Carries(e: Entry, args: map<string, Value>) {
    && (forall k :: k in args ==> k == OPERATION || k in e.contract.required + e.contract.optional + e.contract.oneOf)
    && (forall k :: k in e.contract.required ==> k in args && (k == "file_content" || NonBlank(args[k])))
    && (e.contract.oneOf != [] ==> ExactlyOne(args, e.contract.oneOf))
  }

  lemma FitsCarries(kind: string, original: Schema, e: Entry, args: map<string, Value>)
    requires original.Schema? && Fits(kind, original, e, args)
    ensures Carries(e, args)
  {
  }

  lemma OneEntryIsAsked(kind: string, table: Table, e: Entry, args: map<string, Value>, i: nat)
    requires Tidy(kind, table) && i < |table| && e in table && Asks(args, e.name) && Asks(args, table[i].name)
    ensures e == table[i]
  {
    var j :| 0 <= j < |table| && table[j] == e;
  }

  /** An accepted call carries what the contract of its operation asks for, and nothing else. */
  lemma AcceptedCallsCarry(kind: string, original: Schema, config: Config, args: map<string, Value>, table: Table, i: nat)
    requires original.Schema? && kind != "rss_feed" && Operations(kind) == Some(table)
    requires Parameters(kind, original, config).Emitted?
    requires Valid(Parameters(kind, original, config).schema, ObjValue(args))
    requires i < |table| && Asks(args, table[i].name)
    ensures Carries(table[i], args)
    ensures kind == "visual_media" && table[i].name == "analyze" && "imageRef" in args ==> !args["imageRef"].ArrValue?
  {
    ParametersMeanTheContracts(kind, original, config, args);
    ContractsAreTidy(kind);
    var e :| e in table && OPERATION in args && args[OPERATION] == StrValue(e.name) && Fits(kind, original, e, args);
    OneEntryIsAsked(kind, table, e, args, i);
    FitsCarries(kind, original, e, args);
  }

  // ---------- The schema as it is built ----------

  /** Collects the used arguments, documents them and adds one rule for each enabled operation. */
  method BuildParameters(kind: string, original: Schema, config: Config) returns (r: Outcome)
    requires original.Schema?
    ensures r == Parameters(kind, original, config)
  {
    if kind == "rss_feed" {
      if "query" !in Names(original.properties) || "queries" !in Names(original.properties) {
        return MissingArgument;
      }
      return Emitted(Feed(original));
    }
    var contracts := Operations(kind);
    if contracts.None? {
      return Emitted(original);
    }
    var table := contracts.value;
    var enabled := Enabled(kind, table, config);
    if !(enabled <= OperationNames(table)) {
      return UnknownOperation;
    }
    if enabled == {} {
      return Emitted(Nothing);
    }
    var used := CollectUsed(table, enabled);
    if !(used <= Names(original.properties)) {
      return UnknownArgument;
    }
    var properties := Document(original.properties, used, table, enabled);
    var rules := BuildRules(kind, original.properties, used, table, enabled);
    r := Emitted(original.(properties := properties, required := [OPERATION], additional := false,
                           allOf := original.allOf + rules));
  }

  method CollectUsed(table: Table, enabled: set<string>) returns (used: set<string>)
    ensures used == Used(table, enabled)
    ensures forall k :: k in used <==> k == OPERATION || exists e :: e in table && e.name in enabled && k in Arguments(e.contract)
  {
    used := {OPERATION};
    for i := 0 to |table|
      invariant used == Used(table[..i], enabled)
      invariant forall k :: k in used <==> k == OPERATION || exists e :: e in table[..i] && e.name in enabled && k in Arguments(e.contract)
    {
      assert table[..i + 1][..i] == table[..i];
      if table[i].name in enabled {
        used := used + Arguments(table[i].contract);
      }
    }
    assert table[..|table|] == table;
  }

  method Document(properties: seq<Property>, used: set<string>, table: Table, enabled: set<string>) returns (r: seq<Property>)
    ensures r == Documented(properties, used, table, enabled)
  {
    r := [];
    for i := 0 to |properties|
      invariant r == Documented(properties[..i], used, table, enabled)
    {
      assert properties[..i + 1][..i] == properties[..i];
      r := r + DocumentedOne(properties[i], used, table, enabled);
    }
    assert properties[..|properties|] == properties;
  }

  method BuildRules(kind: string, properties: seq<Property>, used: set<string>, table: Table, enabled: set<string>)
    returns (rules: seq<Schema>)
    ensures rules == RulesOf(kind, properties, used, table, enabled)
  {
    rules := [];
    for i := 0 to |table|
      invariant rules == RulesOf(kind, properties, used, table[..i], enabled)
    {
      assert table[..i + 1][..i] == table[..i];
      if table[i].name in enabled {
        rules := rules + [Rule(kind, properties, used, table[i])];
      }
    }
    assert table[..|table|] == table;
  }
}
