/**
 What a Draft-07 schema accepts, for every keyword that applies a subschema
 (draft-handrews-json-schema-validation-01 and -json-schema-01). The other keywords
 see only their own value and the instance, so a dialect supplies them as a function.

 References are unfolded at most `fuel` times. A dialect also fixes the answer where
 a schema has none: a reference that does not resolve, runs out of fuel or is no text.
 */
module SchemaSemantics {
  import opened Outcomes
  import opened Json
  import opened JsonPointer

  datatype Dialect = Dialect(
    undefined: bool,
    assertion: (string, Value, Value) -> bool,
    matches: (string, string) -> bool)

  /** The keywords that apply subschemas, and the two that only store them. */
  datatype Keyword =
    | Definitions
    | Properties | PatternProperties | Dependencies
    | Items | AllOf | AnyOf | OneOf
    | AdditionalItems | AdditionalProperties | Contains | PropertyNames | Not | If | Then | Else
    | Other

  function KeywordOf(key: string): Keyword {
    if key == "$defs" || key == "definitions" then Definitions
    else if key == "properties" then Properties
    else if key == "patternProperties" then PatternProperties
    else if key == "dependencies" then Dependencies
    else if key == "items" then Items
    else if key == "allOf" then AllOf
    else if key == "anyOf" then AnyOf
    else if key == "oneOf" then OneOf
    else if key == "additionalItems" then AdditionalItems
    else if key == "additionalProperties" then AdditionalProperties
    else if key == "contains" then Contains
    else if key == "propertyNames" then PropertyNames
    else if key == "not" then Not
    else if key == "if" then If
    else if key == "then" then Then
    else if key == "else" then Else
    else Other
  }

  predicate IsSchema(v: Value) {
    v.Bool? || v.Object?
  }

  /** `name` is listed neither in the sibling `properties` nor by a sibling `patternProperties`. */
  ghost predicate IsExtra(d: Dialect, siblings: seq<Member>, name: string) {
    && (match Get(siblings, "properties")
        case Some(Object(listed)) => !Has(listed, name)
        case _ => true)
    && (match Get(siblings, "patternProperties")
        case Some(Object(patterns)) => forall k :: 0 <= k < |patterns| ==> !d.matches(patterns[k].key, name)
        case _ => true)
  }

  ghost predicate Accepts(d: Dialect, root: Value, node: Value, inst: Value, fuel: nat)
    decreases fuel, node, 0
  {
    match node
    case Bool(b) => b
    case Object(members) =>
      (match Get(members, "$ref")
       case Some(Text(pointer)) =>
         (match Resolve(root, pointer)
          case Some(target) => if fuel == 0 then d.undefined else Accepts(d, root, target, inst, fuel - 1)
          case None => d.undefined)
       case Some(_) => d.undefined
       case None => forall i :: 0 <= i < |members| ==> Holds(d, root, members, i, inst, fuel))
    case _ => d.undefined
  }

  /** Member `i` of a schema object holds of the instance, next to its siblings. */
  ghost predicate Holds(d: Dialect, root: Value, siblings: seq<Member>, i: nat, inst: Value, fuel: nat)
    requires i < |siblings|
    decreases fuel, siblings, 1
  {
    var value := siblings[i].value;
    match KeywordOf(siblings[i].key)
    case Definitions => true
    case Then => true
    case Else => true
    case Properties =>
      if value.Object? then HoldsMap(d, root, siblings, i, inst, fuel) else d.assertion("properties", value, inst)
    case PatternProperties =>
      if value.Object? then HoldsMap(d, root, siblings, i, inst, fuel)
      else d.assertion("patternProperties", value, inst)
    case Dependencies =>
      if value.Object? then HoldsMap(d, root, siblings, i, inst, fuel) else d.assertion("dependencies", value, inst)
    case Items =>
      if value.List? then HoldsElements(d, root, siblings, i, inst, fuel)
      else if IsSchema(value) then HoldsSingle(d, root, siblings, i, inst, fuel) else d.assertion("items", value, inst)
    case AllOf =>
      if value.List? then HoldsElements(d, root, siblings, i, inst, fuel) else d.assertion("allOf", value, inst)
    case AnyOf =>
      if value.List? then HoldsElements(d, root, siblings, i, inst, fuel) else d.assertion("anyOf", value, inst)
    case OneOf =>
      if value.List? then HoldsElements(d, root, siblings, i, inst, fuel) else d.assertion("oneOf", value, inst)
    case Other => d.assertion(siblings[i].key, value, inst)
    case _ =>
      if IsSchema(value) then HoldsSingle(d, root, siblings, i, inst, fuel)
      else d.assertion(siblings[i].key, value, inst)
  }

  /** `properties`, `patternProperties` and `dependencies`. */
  ghost predicate HoldsMap(d: Dialect, root: Value, siblings: seq<Member>, i: nat, inst: Value, fuel: nat)
    requires i < |siblings| && siblings[i].value.Object?
    decreases fuel, siblings, 0
  {
    var entries := siblings[i].value.members;
    inst.Object? ==>
    match KeywordOf(siblings[i].key)
    case Properties =>
      forall j :: 0 <= j < |entries| ==>
        (match Get(inst.members, entries[j].key)
         case Some(x) => Accepts(d, root, entries[j].value, x, fuel)
         case None => true)
    case PatternProperties =>
      forall j, k :: 0 <= j < |entries| && 0 <= k < |inst.members| && d.matches(entries[j].key, inst.members[k].key) ==>
        Accepts(d, root, entries[j].value, inst.members[k].value, fuel)
    case _ =>
      forall j :: 0 <= j < |entries| && Has(inst.members, entries[j].key) ==>
        (match entries[j].value
         case List(names) => forall n :: 0 <= n < |names| && names[n].Text? ==> Has(inst.members, names[n].chars)
         case _ => Accepts(d, root, entries[j].value, inst, fuel))
  }

  /** A list of schemas: `items` by position, `allOf`, `anyOf` and `oneOf`. */
  ghost predicate HoldsElements(d: Dialect, root: Value, siblings: seq<Member>, i: nat, inst: Value, fuel: nat)
    requires i < |siblings| && siblings[i].value.List?
    decreases fuel, siblings, 0
  {
    var schemas := siblings[i].value.items;
    match KeywordOf(siblings[i].key)
    case Items =>
      inst.List? ==> forall j :: 0 <= j < |schemas| && j < |inst.items| ==>
        Accepts(d, root, schemas[j], inst.items[j], fuel)
    case AllOf =>
      forall j :: 0 <= j < |schemas| ==> Accepts(d, root, schemas[j], inst, fuel)
    case AnyOf =>
      exists j :: 0 <= j < |schemas| && Accepts(d, root, schemas[j], inst, fuel)
    case _ =>
      exists j :: 0 <= j < |schemas| && AcceptsOnly(d, root, schemas, j, inst, fuel)
  }

  /** Schema `j` is the only one of the list that accepts the instance. */
  ghost predicate AcceptsOnly(d: Dialect, root: Value, schemas: seq<Value>, j: nat, inst: Value, fuel: nat)
    requires j < |schemas|
    decreases fuel, schemas, 0
  {
    && Accepts(d, root, schemas[j], inst, fuel)
    && forall k :: 0 <= k < |schemas| && k != j ==> !Accepts(d, root, schemas[k], inst, fuel)
  }

  /** A keyword whose value is one schema. */
  ghost predicate HoldsSingle(d: Dialect, root: Value, siblings: seq<Member>, i: nat, inst: Value, fuel: nat)
    requires i < |siblings|
    decreases fuel, siblings, 0
  {
    var value := siblings[i].value;
    match KeywordOf(siblings[i].key)
    case Items =>
      inst.List? ==> forall j :: 0 <= j < |inst.items| ==> Accepts(d, root, value, inst.items[j], fuel)
    case AdditionalItems =>
      (match Get(siblings, "items")
       case Some(List(fixed)) =>
         inst.List? ==> forall j :: |fixed| <= j < |inst.items| ==> Accepts(d, root, value, inst.items[j], fuel)
       case _ => true)
    case AdditionalProperties =>
      inst.Object? ==> forall k :: 0 <= k < |inst.members| && IsExtra(d, siblings, inst.members[k].key) ==>
        Accepts(d, root, value, inst.members[k].value, fuel)
    case Contains =>
      inst.List? ==> exists j :: 0 <= j < |inst.items| && Accepts(d, root, value, inst.items[j], fuel)
    case PropertyNames =>
      inst.Object? ==> forall k :: 0 <= k < |inst.members| ==>
        Accepts(d, root, value, Text(inst.members[k].key), fuel)
    case Not => !Accepts(d, root, value, inst, fuel)
    case _ =>
      (match Get(siblings, if Accepts(d, root, value, inst, fuel) then "then" else "else")
       case Some(branch) => Accepts(d, root, branch, inst, fuel)
       case None => true)
  }
}
