/**
 The shape of an expanded schema: no reference and no definitions in a schema
 position, the same property names as before, and nothing left to expand.
 */
module SchemaRefFree {
  import opened Outcomes
  import opened Json
  import opened JsonPointer
  import opened SchemaSemantics
  import opened SchemaExpansion
  import opened SchemaMeaning

  /** No schema position below `v` holds a `$ref` or a store of definitions. */
  ghost predicate RefFree(v: Value)
    decreases v, 0
  {
    match v
    case Bool(_) => true
    case Object(members) =>
      !Has(members, "$ref") &&
      forall i :: 0 <= i < |members| ==> RefFreeValue(members[i].key, members[i].value)
    case _ => false
  }

  /** No schema position below the value of a keyword does, and the keyword is no store of definitions. */
  ghost predicate RefFreeValue(key: string, value: Value)
    decreases value, 1
  {
    match Classify(key, value)
    case Dropped => false
    case Single => RefFree(value)
    case Elements => forall j :: 0 <= j < |value.items| ==> RefFree(value.items[j])
    case PropertyMap => forall j :: 0 <= j < |value.members| ==> RefFree(value.members[j].value)
    case DependencyMap =>
      forall j :: 0 <= j < |value.members| && IsSchema(value.members[j].value) ==> RefFree(value.members[j].value)
    case Copied => true
  }

  lemma {:induction false} ExpandIsRefFree(root: Value, node: Value, stack: set<string>)
    requires Expand(root, node, stack).Some?
    ensures IsSchema(Expand(root, node, stack).value.out) && RefFree(Expand(root, node, stack).value.out)
    decreases |Refs(root) - stack|, node, 0
  {
    if node.Object? {
      match Get(node.members, "$ref")
      case Some(Text(pointer)) =>
        JumpIsRefFree(root, node, stack, pointer);
      case Some(_) =>
      case None =>
        ObjectIsRefFree(root, node.members, stack);
    }
  }

  lemma {:induction false} JumpIsRefFree(root: Value, node: Value, stack: set<string>, pointer: string)
    requires node.Object? && Get(node.members, "$ref") == Some(Text(pointer))
    requires Expand(root, node, stack).Some?
    ensures IsSchema(Expand(root, node, stack).value.out) && RefFree(Expand(root, node, stack).value.out)
    decreases |Refs(root) - stack|, node, -1
  {
    hide Expand, Resolve, Refs, RefFree;
    ExpandJump(root, node, stack, pointer);
    JumpShrinks(root, stack, pointer);
    ExpandIsRefFree(root, Resolve(root, pointer).value, stack + {pointer});
  }

  lemma {:induction false} ObjectIsRefFree(root: Value, members: seq<Member>, stack: set<string>)
    requires Get(members, "$ref").None? && Expand(root, Object(members), stack).Some?
    ensures IsSchema(Expand(root, Object(members), stack).value.out)
    ensures RefFree(Expand(root, Object(members), stack).value.out)
    decreases |Refs(root) - stack|, members, 1
  {
    hide Expand, ExpandKeywords, ExpandKeyword, Refs, KeywordOf, RefFreeValue;
    ExpandObject(root, members, stack);
    var out := ExpandKeywords(root, members, stack).value.out;
    SiblingKeywords();
    GetImage(root, members, stack, "$ref");
    KeywordsAreImages(root, members, stack);
    forall j | 0 <= j < |out| ensures RefFreeValue(out[j].key, out[j].value) {
      var i :| 0 <= i < |members| && IsImage(root, stack, members[i], out[j]);
      KeywordIsRefFree(root, members[i].key, members[i].value, stack);
    }
  }

  lemma {:induction false} KeywordIsRefFree(root: Value, key: string, value: Value, stack: set<string>)
    requires ExpandKeyword(root, key, value, stack).Some? && !IsDropped(key)
    ensures RefFreeValue(key, ExpandKeyword(root, key, value, stack).value.out)
    decreases |Refs(root) - stack|, value, 1
  {
    hide Expand, ExpandElements, ExpandNamed, Refs, KeywordOf, RefFree;
    match Classify(key, value)
    case Single =>
      ExpandIsRefFree(root, value, stack);
    case Elements =>
      ElementImages(root, value.items, stack);
      forall j | 0 <= j < |value.items| ensures RefFree(Expand(root, value.items[j], stack).value.out) {
        ExpandIsRefFree(root, value.items[j], stack);
      }
    case PropertyMap =>
      NamedImages(root, value.members, stack, false);
      forall j | 0 <= j < |value.members| ensures RefFree(Expand(root, value.members[j].value, stack).value.out) {
        ExpandIsRefFree(root, value.members[j].value, stack);
      }
    case DependencyMap =>
      NamedImages(root, value.members, stack, true);
      forall j | 0 <= j < |value.members| && IsSchema(value.members[j].value)
        ensures RefFree(Expand(root, value.members[j].value, stack).value.out)
      {
        ExpandIsRefFree(root, value.members[j].value, stack);
      }
    case _ =>
  }

  /** The expanded schema holds no reference in any schema position. */
  lemma ExpandedIsRefFree(schema: Value)
    requires ExpandRoot(schema).Some?
    ensures RefFree(ExpandRoot(schema).value.out)
  {
    ExpandIsRefFree(schema, schema, {});
  }

  /** A property keeps its name, even one called `$ref`, and gets the expansion of its own schema. */
  lemma PropertiesSurvive(root: Value, members: seq<Member>, stack: set<string>, listed: seq<Member>, name: string)
    requires Get(members, "$ref").None? && Get(members, "properties") == Some(Object(listed))
    requires Expand(root, Object(members), stack).Some?
    ensures var out := Expand(root, Object(members), stack).value.out;
            out.Object? && match Get(out.members, "properties")
                           case Some(Object(kept)) =>
                             |kept| == |listed| && forall i :: 0 <= i < |listed| ==>
                               kept[i].key == listed[i].key && Expand(root, listed[i].value, stack).Some?
                               && kept[i].value == Expand(root, listed[i].value, stack).value.out
                           case _ => false
  {
    SiblingKeywords();
    ExpandObject(root, members, stack);
    GetImage(root, members, stack, "properties");
    PropertyMapExpands(root, listed, stack);
    hide Expand, ExpandKeywords, KeywordOf, ExpandNamed, Refs;
    NamedImages(root, listed, stack, false);
  }

  lemma PropertyMapExpands(root: Value, listed: seq<Member>, stack: set<string>)
    ensures var e := ExpandKeyword(root, "properties", Object(listed), stack);
            && (e.Some? <==> ExpandNamed(root, listed, stack, false).Some?)
            && (e.Some? ==> e.value.out == Object(ExpandNamed(root, listed, stack, false).value.out))
  {
    SiblingKeywords();
    hide Expand, ExpandNamed, KeywordOf, Refs;
  }

  // ---------------------------------------------------------------------
  // Expanding twice is expanding once
  // ---------------------------------------------------------------------

  lemma {:induction false} RefFreeIsFixed(root: Value, v: Value, stack: set<string>)
    requires RefFree(v)
    ensures Expand(root, v, stack).Some? && Expand(root, v, stack).value.out == v
    decreases v, 1
  {
    if v.Object? {
      hide ExpandKeywords, Refs;
      KeywordsAreFixed(root, v.members, stack, |v.members|);
      assert v.members[..|v.members|] == v.members;
    }
  }

  lemma {:induction false} KeywordsAreFixed(root: Value, members: seq<Member>, stack: set<string>, n: nat)
    requires n <= |members| && forall i :: 0 <= i < |members| ==> RefFreeValue(members[i].key, members[i].value)
    ensures var e := ExpandKeywords(root, members[..n], stack);
            e.Some? && e.value.out == members[..n]
    decreases members, 0, n
  {
    hide Expand, ExpandKeyword, Refs, KeywordOf, RefFreeValue, RefFree;
    if n > 0 {
      KeywordsAreFixed(root, members, stack, n - 1);
      assert members[..n][..n - 1] == members[..n - 1];
      KeywordIsFixed(root, members[n - 1].key, members[n - 1].value, stack);
    }
  }

  lemma {:induction false} KeywordIsFixed(root: Value, key: string, value: Value, stack: set<string>)
    requires RefFreeValue(key, value)
    ensures !Classify(key, value).Dropped?
    ensures var e := ExpandKeyword(root, key, value, stack);
            e.Some? && e.value.out == value
    decreases value, 3
  {
    hide Expand, ExpandElements, ExpandNamed, Refs, KeywordOf, RefFree;
    match Classify(key, value)
    case Single => RefFreeIsFixed(root, value, stack);
    case Elements =>
      ElementsAreFixed(root, value.items, stack, |value.items|);
      assert value.items[..|value.items|] == value.items;
    case PropertyMap =>
      NamedAreFixed(root, value.members, stack, false, |value.members|);
      assert value.members[..|value.members|] == value.members;
    case DependencyMap =>
      NamedAreFixed(root, value.members, stack, true, |value.members|);
      assert value.members[..|value.members|] == value.members;
    case _ =>
  }

  lemma {:induction false} ElementsAreFixed(root: Value, items: seq<Value>, stack: set<string>, n: nat)
    requires n <= |items| && forall j :: 0 <= j < |items| ==> RefFree(items[j])
    ensures var e := ExpandElements(root, items[..n], stack);
            e.Some? && e.value.out == items[..n]
    decreases items, 2, n
  {
    hide Expand, Refs, RefFree;
    if n > 0 {
      ElementsAreFixed(root, items, stack, n - 1);
      RefFreeIsFixed(root, items[n - 1], stack);
      assert items[..n][..n - 1] == items[..n - 1];
    }
  }

  lemma {:induction false} NamedAreFixed(root: Value, members: seq<Member>, stack: set<string>, partial: bool, n: nat)
    requires n <= |members|
    requires forall j :: 0 <= j < |members| && !(partial && !IsSchema(members[j].value)) ==> RefFree(members[j].value)
    ensures var e := ExpandNamed(root, members[..n], stack, partial);
            e.Some? && e.value.out == members[..n]
    decreases members, 2, n
  {
    hide Expand, Refs, RefFree;
    if n > 0 {
      NamedAreFixed(root, members, stack, partial, n - 1);
      if !(partial && !IsSchema(members[n - 1].value)) { RefFreeIsFixed(root, members[n - 1].value, stack); }
      assert members[..n][..n - 1] == members[..n - 1];
    }
  }

  /** An expanded schema expands to itself. */
  lemma ExpansionIsIdempotent(schema: Value)
    requires ExpandRoot(schema).Some?
    ensures var once := ExpandRoot(schema).value.out;
            ExpandRoot(once).Some? && ExpandRoot(once).value.out == once
  {
    ExpandedIsRefFree(schema);
    RefFreeIsFixed(ExpandRoot(schema).value.out, ExpandRoot(schema).value.out, {});
  }
}
