/**
 Inlining references keeps what a schema accepts, leaves no reference in a schema
 position and has nothing left to do on its own output.
 */
module SchemaMeaning {
  import opened Outcomes
  import opened Json
  import opened JsonPointer
  import opened SchemaSemantics
  import opened SchemaExpansion

  // ---------------------------------------------------------------------
  // What the expansion does to the members of an object
  // ---------------------------------------------------------------------

  lemma GetAppend(members: seq<Member>, m: Member, key: string)
    ensures Get(members + [m], key) ==
            if Has(members, key) then Get(members, key) else if m.key == key then Some(m.value) else None
  {
    if |members| == 0 {
      assert members + [m] == [m];
      assert [m][1..] == [];
    } else {
      GetAppend(members[1..], m, key);
      assert (members + [m])[1..] == members[1..] + [m];
    }
  }

  predicate IsDropped(key: string) {
    KeywordOf(key).Definitions?
  }

  /** The keywords that other keywords look at. */
  lemma SiblingKeywords()
    ensures KeywordOf("properties") == Properties && KeywordOf("patternProperties") == PatternProperties
    ensures KeywordOf("items") == Items && KeywordOf("then") == Then && KeywordOf("else") == Else
    ensures KeywordOf("$ref") == Other
  {
  }

  /** `out` is member `m` with its value expanded. */
  ghost predicate IsImage(root: Value, stack: set<string>, m: Member, out: Member)
  {
    && !IsDropped(m.key)
    && out.key == m.key
    && ExpandKeyword(root, m.key, m.value, stack).Some?
    && ExpandKeyword(root, m.key, m.value, stack).value.out == out.value
  }

  /** The last step of expanding the members. */
  lemma KeywordsStep(root: Value, members: seq<Member>, stack: set<string>)
    requires |members| > 0 && ExpandKeywords(root, members, stack).Some?
    ensures var last := members[|members| - 1];
            var before := ExpandKeywords(root, members[..|members| - 1], stack);
            var out := ExpandKeywords(root, members, stack).value.out;
            && before.Some?
            && if IsDropped(last.key) then out == before.value.out
               else ExpandKeyword(root, last.key, last.value, stack).Some?
                    && out == before.value.out
                              + [Member(last.key, ExpandKeyword(root, last.key, last.value, stack).value.out)]
  {
    hide Expand, ExpandKeyword, ExpandNamed, ExpandElements, KeywordOf;
  }

  ghost predicate AllHaveImages(root: Value, stack: set<string>, members: seq<Member>, out: seq<Member>)
  {
    forall i :: 0 <= i < |members| && !IsDropped(members[i].key) ==>
      exists j :: 0 <= j < |out| && IsImage(root, stack, members[i], out[j])
  }

  ghost predicate AllAreImages(root: Value, stack: set<string>, members: seq<Member>, out: seq<Member>)
  {
    forall j :: 0 <= j < |out| ==>
      exists i :: 0 <= i < |members| && IsImage(root, stack, members[i], out[j])
  }

  lemma {:induction false} KeywordsHaveImages(root: Value, members: seq<Member>, stack: set<string>)
    requires ExpandKeywords(root, members, stack).Some?
    ensures AllHaveImages(root, stack, members, ExpandKeywords(root, members, stack).value.out)
    decreases members
  {
    if |members| > 0 {
      hide ExpandKeywords, Expand, ExpandKeyword, KeywordOf, Refs;
      var n := |members| - 1;
      KeywordsStep(root, members, stack);
      KeywordsHaveImages(root, members[..n], stack);
      var before := ExpandKeywords(root, members[..n], stack).value.out;
      var out := ExpandKeywords(root, members, stack).value.out;
      forall i | 0 <= i < |members| && !IsDropped(members[i].key)
        ensures exists j :: 0 <= j < |out| && IsImage(root, stack, members[i], out[j])
      {
        if i == n {
          assert IsImage(root, stack, members[n], out[|before|]);
        } else {
          assert members[..n][i] == members[i];
          var j :| 0 <= j < |before| && IsImage(root, stack, members[i], before[j]);
          assert out[j] == before[j];
        }
      }
    }
  }

  lemma {:induction false} KeywordsAreImages(root: Value, members: seq<Member>, stack: set<string>)
    requires ExpandKeywords(root, members, stack).Some?
    ensures AllAreImages(root, stack, members, ExpandKeywords(root, members, stack).value.out)
    decreases members
  {
    if |members| > 0 {
      hide ExpandKeywords, Expand, ExpandKeyword, KeywordOf, Refs;
      var n := |members| - 1;
      KeywordsStep(root, members, stack);
      KeywordsAreImages(root, members[..n], stack);
      var before := ExpandKeywords(root, members[..n], stack).value.out;
      var out := ExpandKeywords(root, members, stack).value.out;
      forall j | 0 <= j < |out|
        ensures exists i :: 0 <= i < |members| && IsImage(root, stack, members[i], out[j])
      {
        if j < |before| {
          var i :| 0 <= i < n && IsImage(root, stack, members[..n][i], before[j]);
          assert members[i] == members[..n][i] && out[j] == before[j];
        } else {
          assert IsImage(root, stack, members[n], out[j]);
        }
      }
    } else {
      hide Expand, ExpandKeyword, KeywordOf, Refs;
    }
  }

  /** Looking a keyword up commutes with the expansion. */
  ghost predicate LookupCommutes(root: Value, stack: set<string>, members: seq<Member>, out: seq<Member>, key: string)
  {
    match Get(members, key)
    case None => Get(out, key).None?
    case Some(v) =>
      && ExpandKeyword(root, key, v, stack).Some?
      && Get(out, key) == Some(ExpandKeyword(root, key, v, stack).value.out)
  }

  lemma {:induction false} GetImage(root: Value, members: seq<Member>, stack: set<string>, key: string)
    requires ExpandKeywords(root, members, stack).Some? && !IsDropped(key)
    ensures LookupCommutes(root, stack, members, ExpandKeywords(root, members, stack).value.out, key)
    decreases members
  {
    hide Expand, ExpandKeyword, KeywordOf, Refs;
    if |members| > 0 {
      hide ExpandKeywords, Get;
      var n := |members| - 1;
      KeywordsStep(root, members, stack);
      GetImage(root, members[..n], stack, key);
      GetAppend(members[..n], members[n], key);
      assert members == members[..n] + [members[n]];
      var before := ExpandKeywords(root, members[..n], stack).value.out;
      if !IsDropped(members[n].key) {
        var v := ExpandKeyword(root, members[n].key, members[n].value, stack).value;
        GetAppend(before, Member(members[n].key, v.out), key);
      }
    }
  }

  lemma {:induction false} ElementImages(root: Value, items: seq<Value>, stack: set<string>)
    requires ExpandElements(root, items, stack).Some?
    ensures var out := ExpandElements(root, items, stack).value.out;
            && |out| == |items|
            && forall i :: 0 <= i < |items| ==>
                 Expand(root, items[i], stack).Some? && out[i] == Expand(root, items[i], stack).value.out
    decreases items
  {
    hide Expand, Refs;
    if |items| > 0 {
      var n := |items| - 1;
      ElementImages(root, items[..n], stack);
      assert forall i :: 0 <= i < n ==> items[..n][i] == items[i];
    }
  }

  lemma {:induction false} NamedImages(root: Value, members: seq<Member>, stack: set<string>, partial: bool)
    requires ExpandNamed(root, members, stack, partial).Some?
    ensures var out := ExpandNamed(root, members, stack, partial).value.out;
            && |out| == |members|
            && (forall i :: 0 <= i < |members| ==> out[i].key == members[i].key)
            && (forall i :: 0 <= i < |members| && partial && !IsSchema(members[i].value) ==> out[i] == members[i])
            && (forall i :: 0 <= i < |members| && !(partial && !IsSchema(members[i].value)) ==>
                  Expand(root, members[i].value, stack).Some?
                  && out[i].value == Expand(root, members[i].value, stack).value.out)
    decreases members
  {
    hide Expand, Refs;
    if |members| > 0 {
      var n := |members| - 1;
      NamedImages(root, members[..n], stack, partial);
      assert forall i :: 0 <= i < n ==> members[..n][i] == members[i];
    }
  }

  lemma {:induction false} SameKeysSameNames(a: seq<Member>, b: seq<Member>, key: string)
    requires |a| == |b| && forall i :: 0 <= i < |a| ==> a[i].key == b[i].key
    ensures Has(a, key) == Has(b, key)
  {
  }

  // ---------------------------------------------------------------------
  // Unfolding one level of the definitions
  // ---------------------------------------------------------------------

  lemma ExpandJump(root: Value, node: Value, stack: set<string>, pointer: string)
    requires node.Object? && Get(node.members, "$ref") == Some(Text(pointer))
    requires Expand(root, node, stack).Some?
    ensures pointer in Refs(root) && pointer !in stack && Resolve(root, pointer).Some?
    ensures var inner := Expand(root, Resolve(root, pointer).value, stack + {pointer});
            inner.Some? && inner.value.out == Expand(root, node, stack).value.out
  {
    hide ExpandKeywords, Resolve, Refs;
  }

  lemma ExpandObject(root: Value, members: seq<Member>, stack: set<string>)
    requires Get(members, "$ref").None? && Expand(root, Object(members), stack).Some?
    ensures ExpandKeywords(root, members, stack).Some?
    ensures Expand(root, Object(members), stack).value.out == Object(ExpandKeywords(root, members, stack).value.out)
  {
    hide ExpandKeywords, Resolve, Refs;
  }

  lemma AcceptsJump(d: Dialect, root: Value, node: Value, pointer: string, x: Value, fuel: nat)
    requires node.Object? && Get(node.members, "$ref") == Some(Text(pointer))
    requires Resolve(root, pointer).Some? && fuel > 0
    ensures Accepts(d, root, node, x, fuel) == Accepts(d, root, Resolve(root, pointer).value, x, fuel - 1)
  {
    hide Holds, Resolve;
  }

  ghost predicate AllHold(d: Dialect, root: Value, members: seq<Member>, x: Value, fuel: nat) {
    forall i :: 0 <= i < |members| ==> Holds(d, root, members, i, x, fuel)
  }

  lemma AcceptsObject(d: Dialect, root: Value, members: seq<Member>, x: Value, fuel: nat)
    requires Get(members, "$ref").None?
    ensures Accepts(d, root, Object(members), x, fuel) == AllHold(d, root, members, x, fuel)
  {
    hide Holds;
  }

  lemma NoSchemaIsUndefined(d: Dialect, root: Value, v: Value, x: Value, fuel: nat)
    ensures !IsSchema(v) ==> Accepts(d, root, v, x, fuel) == d.undefined
    ensures v.Bool? ==> Accepts(d, root, v, x, fuel) == v.flag
  {
    hide Holds;
  }

  // ---------------------------------------------------------------------
  // Meaning
  // ---------------------------------------------------------------------

  /** The two evaluations that are compared: the original and the expanded schema. */
  datatype Sides = Sides(d: Dialect, root: Value, fuel: nat, newRoot: Value, newFuel: nat)

  ghost predicate AcceptAlike(c: Sides, a: Value, b: Value, x: Value) {
    Accepts(c.d, c.root, a, x, c.fuel) == Accepts(c.d, c.newRoot, b, x, c.newFuel)
  }

  /** Two schemas accept the same instances. */
  ghost predicate Same(c: Sides, a: Value, b: Value) {
    forall x :: AcceptAlike(c, a, b, x)
  }

  ghost predicate HoldAlike(c: Sides, a: seq<Member>, i: nat, b: seq<Member>, j: nat, x: Value)
    requires i < |a| && j < |b|
  {
    Holds(c.d, c.root, a, i, x, c.fuel) == Holds(c.d, c.newRoot, b, j, x, c.newFuel)
  }

  /** The value of a keyword and its expansion mean the same. */
  ghost predicate SameValue(c: Sides, key: string, a: Value, b: Value) {
    match Classify(key, a)
    case Dropped => true
    case Single => IsSchema(b) && Same(c, a, b)
    case Elements =>
      b.List? && |b.items| == |a.items| && forall i :: 0 <= i < |a.items| ==> Same(c, a.items[i], b.items[i])
    case PropertyMap => b.Object? && SameEntries(c, a.members, b.members)
    case DependencyMap => b.Object? && SameDependencies(c, a.members, b.members)
    case Copied => a == b
  }

  ghost predicate SameEntries(c: Sides, a: seq<Member>, b: seq<Member>) {
    |b| == |a| && forall i :: 0 <= i < |a| ==> a[i].key == b[i].key && Same(c, a[i].value, b[i].value)
  }

  ghost predicate SameDependencies(c: Sides, a: seq<Member>, b: seq<Member>) {
    |b| == |a| && forall i :: 0 <= i < |a| ==>
      a[i].key == b[i].key
      && (if a[i].value.List? then b[i].value == a[i].value
          else !b[i].value.List? && Same(c, a[i].value, b[i].value))
  }

  /** What a keyword sees of its siblings is the same on both sides. */
  ghost predicate SameContext(c: Sides, a: seq<Member>, b: seq<Member>) {
    forall key :: !IsDropped(key) ==> SameSibling(c, a, b, key)
  }

  ghost predicate SameSibling(c: Sides, a: seq<Member>, b: seq<Member>, key: string) {
    match Get(a, key)
    case None => Get(b, key).None?
    case Some(v) => Get(b, key).Some? && SameValue(c, key, v, Get(b, key).value)
  }

  lemma SameExtras(c: Sides, a: seq<Member>, b: seq<Member>, name: string)
    requires SameContext(c, a, b)
    ensures IsExtra(c.d, a, name) == IsExtra(c.d, b, name)
  {
    SiblingKeywords();
    hide KeywordOf, Same;
    assert SameSibling(c, a, b, "properties") && SameSibling(c, a, b, "patternProperties");
    match Get(a, "properties")
    case Some(Object(listed)) => SameKeysSameNames(listed, Get(b, "properties").value.members, name);
    case _ =>
  }

  lemma SameFixedItems(c: Sides, a: seq<Member>, b: seq<Member>)
    requires SameContext(c, a, b)
    ensures match Get(a, "items")
            case Some(List(fixed)) => Get(b, "items").Some? && Get(b, "items").value.List?
                                      && |Get(b, "items").value.items| == |fixed|
            case Some(_) => Get(b, "items").Some? && !Get(b, "items").value.List?
            case None => Get(b, "items").None?
  {
    SiblingKeywords();
    hide KeywordOf, Same;
    assert SameSibling(c, a, b, "items");
  }

  lemma SameUnder(c: Sides, v: Value, w: Value, y: Value)
    requires Same(c, v, w)
    ensures Accepts(c.d, c.root, v, y, c.fuel) == Accepts(c.d, c.newRoot, w, y, c.newFuel)
  {
    hide Accepts;
    assert AcceptAlike(c, v, w, y);
  }

  lemma SameBranchValue(c: Sides, key: string, v: Value, w: Value, x: Value)
    requires (KeywordOf(key) == Then || KeywordOf(key) == Else) && SameValue(c, key, v, w)
    ensures AcceptAlike(c, v, w, x)
  {
    hide KeywordOf, Accepts, Same;
    if IsSchema(v) {
      SameUnder(c, v, w, x);
    } else {
      NoSchemaIsUndefined(c.d, c.root, v, x, c.fuel);
      NoSchemaIsUndefined(c.d, c.newRoot, v, x, c.newFuel);
    }
  }

  lemma SameBranch(c: Sides, a: seq<Member>, b: seq<Member>, key: string, x: Value)
    requires SameContext(c, a, b) && (key == "then" || key == "else")
    ensures match Get(a, key)
            case Some(v) => Get(b, key).Some? && AcceptAlike(c, v, Get(b, key).value, x)
            case None => Get(b, key).None?
  {
    SiblingKeywords();
    hide KeywordOf, AcceptAlike, SameValue;
    assert SameSibling(c, a, b, key);
    match Get(a, key)
    case Some(v) => SameBranchValue(c, key, v, Get(b, key).value, x);
    case None =>
  }

  lemma SameSingle(c: Sides, a: seq<Member>, b: seq<Member>, i: nat, j: nat, x: Value)
    requires i < |a| && j < |b| && a[i].key == b[j].key && Same(c, a[i].value, b[j].value)
    requires SameContext(c, a, b)
    ensures HoldsSingle(c.d, c.root, a, i, x, c.fuel) == HoldsSingle(c.d, c.newRoot, b, j, x, c.newFuel)
  {
    hide Accepts, KeywordOf, SameContext, IsExtra, Same;
    var v, w := a[i].value, b[j].value;
    forall y ensures Accepts(c.d, c.root, v, y, c.fuel) == Accepts(c.d, c.newRoot, w, y, c.newFuel) {
      SameUnder(c, v, w, y);
    }
    match KeywordOf(a[i].key)
    case AdditionalProperties =>
      forall name ensures IsExtra(c.d, a, name) == IsExtra(c.d, b, name) { SameExtras(c, a, b, name); }
    case AdditionalItems =>
      SameFixedItems(c, a, b);
    case Items =>
    case Contains =>
    case PropertyNames =>
    case Not =>
    case _ =>
      SameConditional(c, a, b, i, j, x);
  }

  lemma SameConditional(c: Sides, a: seq<Member>, b: seq<Member>, i: nat, j: nat, x: Value)
    requires i < |a| && j < |b| && a[i].key == b[j].key && Same(c, a[i].value, b[j].value)
    requires SameContext(c, a, b)
    requires KeywordOf(a[i].key) !in {Items, AdditionalItems, AdditionalProperties, Contains, PropertyNames, Not}
    ensures HoldsSingle(c.d, c.root, a, i, x, c.fuel) == HoldsSingle(c.d, c.newRoot, b, j, x, c.newFuel)
  {
    hide Accepts, KeywordOf, SameContext, IsExtra, Same;
    SameUnder(c, a[i].value, b[j].value, x);
    SameBranch(c, a, b, "then", x);
    SameBranch(c, a, b, "else", x);
  }

  lemma SameElements(c: Sides, a: seq<Member>, b: seq<Member>, i: nat, j: nat, x: Value)
    requires i < |a| && j < |b| && a[i].key == b[j].key && a[i].value.List? && b[j].value.List?
    requires |a[i].value.items| == |b[j].value.items|
    requires forall n :: 0 <= n < |a[i].value.items| ==> Same(c, a[i].value.items[n], b[j].value.items[n])
    ensures HoldsElements(c.d, c.root, a, i, x, c.fuel) == HoldsElements(c.d, c.newRoot, b, j, x, c.newFuel)
  {
    hide Accepts, KeywordOf, AcceptsOnly, Same;
    var left, right := a[i].value.items, b[j].value.items;
    forall n, y | 0 <= n < |left|
      ensures Accepts(c.d, c.root, left[n], y, c.fuel) == Accepts(c.d, c.newRoot, right[n], y, c.newFuel)
    {
      SameUnder(c, left[n], right[n], y);
    }
    forall n | 0 <= n < |left|
      ensures AcceptsOnly(c.d, c.root, left, n, x, c.fuel) == AcceptsOnly(c.d, c.newRoot, right, n, x, c.newFuel)
    {
      SameOnly(c, left, right, n, x);
    }
  }

  lemma SameOnly(c: Sides, left: seq<Value>, right: seq<Value>, n: nat, x: Value)
    requires |left| == |right| && n < |left|
    requires forall k :: 0 <= k < |left| ==>
               Accepts(c.d, c.root, left[k], x, c.fuel) == Accepts(c.d, c.newRoot, right[k], x, c.newFuel)
    ensures AcceptsOnly(c.d, c.root, left, n, x, c.fuel) == AcceptsOnly(c.d, c.newRoot, right, n, x, c.newFuel)
  {
    hide Accepts;
  }

  lemma SameMaps(c: Sides, a: seq<Member>, b: seq<Member>, i: nat, j: nat, x: Value)
    requires i < |a| && j < |b| && a[i].key == b[j].key && a[i].value.Object? && b[j].value.Object?
    requires match Classify(a[i].key, a[i].value)
             case PropertyMap => SameEntries(c, a[i].value.members, b[j].value.members)
             case DependencyMap => SameDependencies(c, a[i].value.members, b[j].value.members)
             case _ => false
    ensures HoldsMap(c.d, c.root, a, i, x, c.fuel) == HoldsMap(c.d, c.newRoot, b, j, x, c.newFuel)
  {
    hide Accepts, KeywordOf;
    var left, right := a[i].value.members, b[j].value.members;
    forall n, y | 0 <= n < |left| && Same(c, left[n].value, right[n].value)
      ensures Accepts(c.d, c.root, left[n].value, y, c.fuel) == Accepts(c.d, c.newRoot, right[n].value, y, c.newFuel)
    {
      assert AcceptAlike(c, left[n].value, right[n].value, y);
    }
  }

  lemma SameHolds(c: Sides, a: seq<Member>, b: seq<Member>, i: nat, j: nat, x: Value)
    requires i < |a| && j < |b| && a[i].key == b[j].key && !IsDropped(a[i].key)
    requires SameValue(c, a[i].key, a[i].value, b[j].value) && SameContext(c, a, b)
    ensures HoldAlike(c, a, i, b, j, x)
  {
    hide KeywordOf, HoldsSingle, HoldsElements, HoldsMap, SameContext, Same;
    match Classify(a[i].key, a[i].value)
    case Single => SameSingle(c, a, b, i, j, x);
    case Elements => SameElements(c, a, b, i, j, x);
    case PropertyMap => SameMaps(c, a, b, i, j, x);
    case DependencyMap => SameMaps(c, a, b, i, j, x);
    case Copied =>
    case Dropped =>
  }

  lemma {:induction false} ExpandKeepsMeaning(c: Sides, node: Value, stack: set<string>)
    requires Expand(c.root, node, stack).Some?
    requires c.fuel >= |Refs(c.root) - stack|
    ensures IsSchema(Expand(c.root, node, stack).value.out)
    ensures Same(c, node, Expand(c.root, node, stack).value.out)
    decreases |Refs(c.root) - stack|, node, 0
  {
    if node.Object? {
      var members := node.members;
      match Get(members, "$ref")
      case Some(Text(pointer)) =>
        JumpKeepsMeaning(c, node, stack, pointer);
      case Some(_) =>
      case None =>
        ExpandObject(c.root, members, stack);
        hide Expand, Accepts;
        ObjectKeepsMeaning(c, members, stack);
    } else {
      hide Accepts, ExpandKeywords, Refs;
      forall x ensures AcceptAlike(c, node, Expand(c.root, node, stack).value.out, x) {
        NoSchemaIsUndefined(c.d, c.root, node, x, c.fuel);
        NoSchemaIsUndefined(c.d, c.newRoot, node, x, c.newFuel);
      }
    }
  }

  lemma {:induction false} JumpKeepsMeaning(c: Sides, node: Value, stack: set<string>, pointer: string)
    requires node.Object? && Get(node.members, "$ref") == Some(Text(pointer))
    requires Expand(c.root, node, stack).Some?
    requires c.fuel >= |Refs(c.root) - stack|
    ensures IsSchema(Expand(c.root, node, stack).value.out)
    ensures Same(c, node, Expand(c.root, node, stack).value.out)
    decreases |Refs(c.root) - stack|, node, -1
  {
    hide Expand, Accepts, Resolve, Refs;
    ExpandJump(c.root, node, stack, pointer);
    JumpShrinks(c.root, stack, pointer);
    var target := Resolve(c.root, pointer).value;
    ExpandKeepsMeaning(c.(fuel := c.fuel - 1), target, stack + {pointer});
    var out := Expand(c.root, node, stack).value.out;
    forall x ensures AcceptAlike(c, node, out, x) {
      AcceptsJump(c.d, c.root, node, pointer, x, c.fuel);
      assert AcceptAlike(c.(fuel := c.fuel - 1), target, out, x);
    }
  }

  lemma {:induction false} ObjectKeepsMeaning(c: Sides, members: seq<Member>, stack: set<string>)
    requires Get(members, "$ref").None? && ExpandKeywords(c.root, members, stack).Some?
    requires c.fuel >= |Refs(c.root) - stack|
    ensures Same(c, Object(members), Object(ExpandKeywords(c.root, members, stack).value.out))
    decreases |Refs(c.root) - stack|, members, 1
  {
    hide Expand, ExpandKeywords, ExpandKeyword, Accepts, Holds, SameValue, KeywordOf, Refs;
    forall i | 0 <= i < |members| && ExpandKeyword(c.root, members[i].key, members[i].value, stack).Some?
      ensures SameImage(c, stack, members[i])
    {
      ValueKeepsMeaning(c, members[i].key, members[i].value, stack);
    }
    ImagesKeepMeaning(c, members, stack);
  }

  ghost predicate SameImage(c: Sides, stack: set<string>, m: Member) {
    var e := ExpandKeyword(c.root, m.key, m.value, stack);
    e.Some? ==> SameValue(c, m.key, m.value, e.value.out)
  }

  lemma SiblingImage(c: Sides, members: seq<Member>, stack: set<string>, key: string)
    requires ExpandKeywords(c.root, members, stack).Some? && !IsDropped(key)
    requires forall i :: 0 <= i < |members| ==> SameImage(c, stack, members[i])
    ensures SameSibling(c, members, ExpandKeywords(c.root, members, stack).value.out, key)
  {
    hide Expand, ExpandKeywords, ExpandKeyword, SameValue, KeywordOf;
    GetImage(c.root, members, stack, key);
    match Get(members, key)
    case Some(v) =>
      var i :| 0 <= i < |members| && members[i] == Member(key, v);
      assert SameImage(c, stack, members[i]);
    case None =>
  }

  lemma ImagesKeepMeaning(c: Sides, members: seq<Member>, stack: set<string>)
    requires Get(members, "$ref").None? && ExpandKeywords(c.root, members, stack).Some?
    requires forall i :: 0 <= i < |members| ==> SameImage(c, stack, members[i])
    ensures Same(c, Object(members), Object(ExpandKeywords(c.root, members, stack).value.out))
  {
    hide Expand, ExpandKeywords, ExpandKeyword, Accepts, Holds, SameValue, KeywordOf, Refs, AllHold;
    var out := ExpandKeywords(c.root, members, stack).value.out;
    KeywordsHaveImages(c.root, members, stack);
    KeywordsAreImages(c.root, members, stack);
    forall key | !IsDropped(key) ensures SameSibling(c, members, out, key) {
      SiblingImage(c, members, stack, key);
    }
    SiblingKeywords();
    assert SameSibling(c, members, out, "$ref");
    hide Get, SameSibling, IsImage;
    forall x ensures AcceptAlike(c, Object(members), Object(out), x) {
      AcceptsObject(c.d, c.root, members, x, c.fuel);
      AcceptsObject(c.d, c.newRoot, out, x, c.newFuel);
      ConjunctionSame(c, members, out, stack, x);
    }
  }

  lemma DroppedHolds(d: Dialect, root: Value, members: seq<Member>, i: nat, x: Value, fuel: nat)
    requires i < |members| && IsDropped(members[i].key)
    ensures Holds(d, root, members, i, x, fuel)
  {
    hide HoldsSingle, HoldsElements, HoldsMap, KeywordOf;
  }

  /** A member and its image hold of the same instances. */
  ghost predicate ImagesHoldAlike(c: Sides, members: seq<Member>, out: seq<Member>, stack: set<string>, x: Value) {
    forall i, j :: 0 <= i < |members| && 0 <= j < |out| && IsImage(c.root, stack, members[i], out[j]) ==>
      HoldAlike(c, members, i, out, j, x)
  }

  lemma ImagesAlike(c: Sides, members: seq<Member>, out: seq<Member>, stack: set<string>, x: Value)
    requires SameContext(c, members, out)
    requires forall i :: 0 <= i < |members| ==> SameImage(c, stack, members[i])
    ensures ImagesHoldAlike(c, members, out, stack, x)
  {
    hide Holds, SameValue, ExpandKeyword, KeywordOf, SameContext, HoldAlike;
    forall i, j | 0 <= i < |members| && 0 <= j < |out| && IsImage(c.root, stack, members[i], out[j])
      ensures HoldAlike(c, members, i, out, j, x)
    {
      assert SameImage(c, stack, members[i]);
      SameHolds(c, members, out, i, j, x);
    }
  }

  lemma HoldForward(c: Sides, members: seq<Member>, out: seq<Member>, stack: set<string>, x: Value)
    requires AllAreImages(c.root, stack, members, out) && ImagesHoldAlike(c, members, out, stack, x)
    requires AllHold(c.d, c.root, members, x, c.fuel)
    ensures AllHold(c.d, c.newRoot, out, x, c.newFuel)
  {
    hide Holds, IsImage;
    forall j | 0 <= j < |out| ensures Holds(c.d, c.newRoot, out, j, x, c.newFuel) {
      var i :| 0 <= i < |members| && IsImage(c.root, stack, members[i], out[j]);
      assert HoldAlike(c, members, i, out, j, x);
    }
  }

  lemma HoldBackward(c: Sides, members: seq<Member>, out: seq<Member>, stack: set<string>, x: Value)
    requires AllHaveImages(c.root, stack, members, out) && ImagesHoldAlike(c, members, out, stack, x)
    requires AllHold(c.d, c.newRoot, out, x, c.newFuel)
    ensures AllHold(c.d, c.root, members, x, c.fuel)
  {
    hide Holds, IsImage, KeywordOf;
    forall i | 0 <= i < |members| ensures Holds(c.d, c.root, members, i, x, c.fuel) {
      if IsDropped(members[i].key) {
        DroppedHolds(c.d, c.root, members, i, x, c.fuel);
      } else {
        var j :| 0 <= j < |out| && IsImage(c.root, stack, members[i], out[j]);
        assert HoldAlike(c, members, i, out, j, x);
      }
    }
  }

  lemma ConjunctionSame(c: Sides, members: seq<Member>, out: seq<Member>, stack: set<string>, x: Value)
    requires SameContext(c, members, out)
    requires AllHaveImages(c.root, stack, members, out) && AllAreImages(c.root, stack, members, out)
    requires forall i :: 0 <= i < |members| ==> SameImage(c, stack, members[i])
    ensures AllHold(c.d, c.root, members, x, c.fuel) == AllHold(c.d, c.newRoot, out, x, c.newFuel)
  {
    hide AllHold, AllHaveImages, AllAreImages, SameContext, SameImage, ImagesHoldAlike;
    ImagesAlike(c, members, out, stack, x);
    if AllHold(c.d, c.root, members, x, c.fuel) { HoldForward(c, members, out, stack, x); }
    if AllHold(c.d, c.newRoot, out, x, c.newFuel) { HoldBackward(c, members, out, stack, x); }
  }

  lemma {:induction false} ValueKeepsMeaning(c: Sides, key: string, value: Value, stack: set<string>)
    requires ExpandKeyword(c.root, key, value, stack).Some?
    requires c.fuel >= |Refs(c.root) - stack|
    ensures SameValue(c, key, value, ExpandKeyword(c.root, key, value, stack).value.out)
    decreases |Refs(c.root) - stack|, value, 1
  {
    hide Expand, ExpandElements, ExpandNamed, Same, KeywordOf, Refs;
    match Classify(key, value)
    case Single =>
      ExpandKeepsMeaning(c, value, stack);
    case Elements =>
      ElementImages(c.root, value.items, stack);
      forall i | 0 <= i < |value.items|
        ensures Same(c, value.items[i], Expand(c.root, value.items[i], stack).value.out)
      {
        ExpandKeepsMeaning(c, value.items[i], stack);
      }
    case PropertyMap =>
      NamedImages(c.root, value.members, stack, false);
      forall i | 0 <= i < |value.members|
        ensures Same(c, value.members[i].value, Expand(c.root, value.members[i].value, stack).value.out)
      {
        ExpandKeepsMeaning(c, value.members[i].value, stack);
      }
    case DependencyMap =>
      NamedImages(c.root, value.members, stack, true);
      var out := ExpandNamed(c.root, value.members, stack, true).value.out;
      forall i | 0 <= i < |value.members| && !value.members[i].value.List?
        ensures !out[i].value.List? && Same(c, value.members[i].value, out[i].value)
      {
        if IsSchema(value.members[i].value) {
          ExpandKeepsMeaning(c, value.members[i].value, stack);
        } else {
          CopyKeepsMeaning(c, value.members[i].value);
        }
      }
    case _ =>
  }

  lemma CopyKeepsMeaning(c: Sides, v: Value)
    requires !IsSchema(v)
    ensures Same(c, v, v)
  {
    hide Accepts;
    forall x ensures AcceptAlike(c, v, v, x) {
      NoSchemaIsUndefined(c.d, c.root, v, x, c.fuel);
      NoSchemaIsUndefined(c.d, c.newRoot, v, x, c.newFuel);
    }
  }

  /**
   The expanded schema accepts exactly the instances of the original, whatever the
   remaining keywords and regular expressions mean, once the original may unfold as
   many references as it has reference texts. The expanded schema needs neither a
   root nor fuel, and neither side ever falls back on the dialect's undefined answer:
   the statement holds for both values of it.
   */
  lemma ExpansionKeepsMeaning(d: Dialect, schema: Value, inst: Value, fuel: nat, otherRoot: Value, otherFuel: nat)
    requires ExpandRoot(schema).Some? && fuel >= |Refs(schema)|
    ensures Accepts(d, schema, schema, inst, fuel)
            == Accepts(d, otherRoot, ExpandRoot(schema).value.out, inst, otherFuel)
  {
    hide Accepts, Expand, Refs;
    assert Refs(schema) - {} == Refs(schema);
    var c := Sides(d, schema, fuel, otherRoot, otherFuel);
    ExpandKeepsMeaning(c, schema, {});
    assert AcceptAlike(c, schema, ExpandRoot(schema).value.out, inst);
  }
}
