/**
 What an expansion is charged for, read off its output alone: every schema in a schema
 position counts as a node, at its level, and with the size of its text.
 */
module SchemaCharges {
  import opened Outcomes
  import opened Json
  import opened JsonPointer
  import opened SchemaSemantics
  import opened SchemaExpansion
  import opened SchemaMeaning
  import opened SchemaRefFree

  /** A schema in a schema position and how many schemas enclose it. */
  datatype Place = Place(schema: Value, level: nat)

  /** All schemas in the schema positions of `v`, itself included, when `v` stands at `level`. */
  ghost function Places(v: Value, level: nat): seq<Place>
    decreases v, 0
  {
    match v
    case Bool(_) => [Place(v, level)]
    case Object(members) => MemberPlaces(members, level) + [Place(v, level)]
    case _ => []
  }

  ghost function MemberPlaces(members: seq<Member>, level: nat): seq<Place>
    decreases members, 0
  {
    if |members| == 0 then []
    else
      var last := members[|members| - 1];
      MemberPlaces(members[..|members| - 1], level) + ValuePlaces(last.key, last.value, level)
  }

  ghost function ValuePlaces(key: string, value: Value, level: nat): seq<Place>
    decreases value, 2
  {
    match Classify(key, value)
    case Single => Places(value, level + 1)
    case Elements => ItemPlaces(value.items, level)
    case PropertyMap => NamedPlaces(value.members, level, false)
    case DependencyMap => NamedPlaces(value.members, level, true)
    case _ => []
  }

  ghost function ItemPlaces(items: seq<Value>, level: nat): seq<Place>
    decreases items, 0
  {
    if |items| == 0 then [] else ItemPlaces(items[..|items| - 1], level) + Places(items[|items| - 1], level + 1)
  }

  ghost function NamedPlaces(members: seq<Member>, level: nat, partial: bool): seq<Place>
    decreases members, 0
  {
    if |members| == 0 then []
    else
      var last := members[|members| - 1].value;
      NamedPlaces(members[..|members| - 1], level, partial)
      + if partial && !IsSchema(last) then [] else Places(last, level + 1)
  }

  /** The sum of the sizes of the texts of these schemas. */
  ghost function TotalSize(places: seq<Place>): nat {
    if |places| == 0 then 0 else TotalSize(places[..|places| - 1]) + EncodedSize(places[|places| - 1].schema)
  }

  /** The greatest level, and at least `level`. */
  ghost function Deepest(places: seq<Place>, level: nat): nat {
    if |places| == 0 then level else Max(Deepest(places[..|places| - 1], level), places[|places| - 1].level)
  }

  lemma {:induction false} SizeOfConcat(a: seq<Place>, b: seq<Place>)
    ensures TotalSize(a + b) == TotalSize(a) + TotalSize(b)
  {
    hide EncodedSize;
    if |b| == 0 {
      assert a + b == a;
    } else {
      SizeOfConcat(a, b[..|b| - 1]);
      assert (a + b)[..|a + b| - 1] == a + b[..|b| - 1];
    }
  }

  lemma {:induction false} DeepestOfConcat(a: seq<Place>, b: seq<Place>, level: nat)
    ensures Deepest(a + b, level) == Max(Deepest(a, level), Deepest(b, level))
    ensures Deepest(b, level) >= level
  {
    if |b| == 0 {
      assert a + b == a;
      AtLeastLevel(a, level);
    } else {
      DeepestOfConcat(a, b[..|b| - 1], level);
      assert (a + b)[..|a + b| - 1] == a + b[..|b| - 1];
    }
  }

  lemma {:induction false} AtLeastLevel(a: seq<Place>, level: nat)
    ensures Deepest(a, level) >= level
  {
    if |a| > 0 { AtLeastLevel(a[..|a| - 1], level); }
  }

  lemma {:induction false} DeepestFromBelow(a: seq<Place>, level: nat, below: nat)
    requires below <= level
    ensures Max(Deepest(a, below), level) == Deepest(a, level)
  {
    if |a| > 0 { DeepestFromBelow(a[..|a| - 1], level, below); }
  }

  lemma {:induction false} LevelsAreBounded(places: seq<Place>, level: nat)
    ensures forall p :: p in places ==> p.level <= Deepest(places, level)
  {
    if |places| > 0 {
      var before := places[..|places| - 1];
      LevelsAreBounded(before, level);
      assert forall p :: p in places ==> p in before || p == places[|places| - 1];
    }
  }

  lemma {:induction false} DeepestIsBounded(places: seq<Place>, level: nat, bound: nat)
    requires level <= bound && forall p :: p in places ==> p.level <= bound
    ensures Deepest(places, level) <= bound
  {
    if |places| > 0 { DeepestIsBounded(places[..|places| - 1], level, bound); }
  }

  /**
   The cost of a piece of an expansion that produced these places below `level`: the bytes are the
   sizes of the schemas, and nodes and height cover them. Nodes and height are exact when nothing
   was a reference.
   */
  ghost predicate Covers(cost: Cost, places: seq<Place>, level: nat, exact: bool) {
    && cost.bytes == TotalSize(places)
    && cost.nodes >= |places| && level + cost.height >= Deepest(places, level)
    && (exact ==> cost.nodes == |places| && level + cost.height == Deepest(places, level))
  }

  lemma NothingIsFree(level: nat, exact: bool)
    ensures Covers(FREE, [], level, exact)
  {
  }

  lemma ChildCovers(before: Cost, a: seq<Place>, child: Cost, b: seq<Place>, level: nat, exactBefore: bool, exact: bool)
    requires Covers(before, a, level, exactBefore) && Covers(child, b, level + 1, exact) && |b| > 0
    requires forall p :: p in b ==> p.level >= level + 1
    ensures Covers(Below(before, child), a + b, level, exactBefore && exact)
  {
    SizeOfConcat(a, b);
    DeepestOfConcat(a, b, level);
    DeepestFromBelow(b, level + 1, level);
    SomethingIsBelow(b, level);
  }

  lemma {:induction false} SomethingIsBelow(b: seq<Place>, level: nat)
    requires |b| > 0 && forall p :: p in b ==> p.level >= level + 1
    ensures Deepest(b, level) >= level + 1
  {
    assert b[|b| - 1] in b;
  }

  lemma BesideCovers(x: Cost, a: seq<Place>, y: Cost, b: seq<Place>, level: nat, exactX: bool, exactY: bool)
    requires Covers(x, a, level, exactX) && Covers(y, b, level, exactY)
    ensures Covers(Beside(x, y), a + b, level, exactX && exactY)
  {
    SizeOfConcat(a, b);
    DeepestOfConcat(a, b, level);
  }

  lemma SchemaItselfCovers(inner: Cost, places: seq<Place>, schema: Value, level: nat, exact: bool)
    requires Covers(inner, places, level, exact)
    ensures Covers(Cost(1 + inner.nodes, inner.height, inner.bytes + EncodedSize(schema)),
                   places + [Place(schema, level)], level, exact)
  {
    hide EncodedSize;
    var one := [Place(schema, level)];
    assert one[..0] == [] && one[0] == Place(schema, level);
    assert TotalSize(one) == EncodedSize(schema);
    assert Deepest(one[..0], level) == level;
    assert Deepest(one, level) == level;
    SizeOfConcat(places, one);
    DeepestOfConcat(places, one, level);
    AtLeastLevel(places, level);
  }

  lemma JumpCovers(inner: Cost, places: seq<Place>, level: nat)
    requires Covers(inner, places, level, false)
    ensures Covers(Below(Cost(1, 0, 0), inner), places, level, false)
  {
  }

  // ---------------------------------------------------------------------
  // Levels only grow inwards
  // ---------------------------------------------------------------------

  ghost predicate AllAtLeast(places: seq<Place>, level: nat) {
    forall p :: p in places ==> p.level >= level
  }

  lemma {:induction false} PlacesAtLeast(v: Value, level: nat)
    ensures AllAtLeast(Places(v, level), level) && (IsSchema(v) ==> |Places(v, level)| > 0)
    decreases v, 0
  {
    if v.Object? { MembersAtLeast(v.members, level); }
  }

  lemma {:induction false} MembersAtLeast(members: seq<Member>, level: nat)
    ensures AllAtLeast(MemberPlaces(members, level), level)
    decreases members, 0
  {
    if |members| > 0 {
      var last := members[|members| - 1];
      MembersAtLeast(members[..|members| - 1], level);
      ValueAtLeast(last.key, last.value, level);
    }
  }

  lemma {:induction false} ValueAtLeast(key: string, value: Value, level: nat)
    ensures AllAtLeast(ValuePlaces(key, value, level), level)
    decreases value, 2
  {
    hide KeywordOf;
    match Classify(key, value)
    case Single => PlacesAtLeast(value, level + 1);
    case Elements => ItemsAtLeast(value.items, level);
    case PropertyMap => NamedAtLeast(value.members, level, false);
    case DependencyMap => NamedAtLeast(value.members, level, true);
    case _ =>
  }

  lemma {:induction false} ItemsAtLeast(items: seq<Value>, level: nat)
    ensures AllAtLeast(ItemPlaces(items, level), level)
    decreases items, 0
  {
    if |items| > 0 {
      ItemsAtLeast(items[..|items| - 1], level);
      PlacesAtLeast(items[|items| - 1], level + 1);
    }
  }

  lemma {:induction false} NamedAtLeast(members: seq<Member>, level: nat, partial: bool)
    ensures AllAtLeast(NamedPlaces(members, level, partial), level)
    decreases members, 0
  {
    if |members| > 0 {
      NamedAtLeast(members[..|members| - 1], level, partial);
      PlacesAtLeast(members[|members| - 1].value, level + 1);
    }
  }

  // ---------------------------------------------------------------------
  // The charge of an expansion
  // ---------------------------------------------------------------------

  /** What a schema costs is what its expansion holds. */
  lemma {:induction false} ExpandCharges(root: Value, node: Value, stack: set<string>, level: nat)
    requires Expand(root, node, stack).Some?
    ensures var e := Expand(root, node, stack).value; Covers(e.cost, Places(e.out, level), level, RefFree(node))
    decreases |Refs(root) - stack|, node, 0
  {
    match node
    case Bool(_) =>
      NothingIsFree(level, true);
      SchemaItselfCovers(FREE, [], node, level, true);
      assert [] + [Place(node, level)] == [Place(node, level)];
    case Object(members) =>
      match Get(members, "$ref") {
        case Some(Text(pointer)) =>
          JumpCharges(root, node, stack, pointer, level);
        case Some(_) =>
        case None =>
          ObjectCharges(root, members, stack, level);
      }
    case _ =>
  }

  lemma {:induction false} JumpCharges(root: Value, node: Value, stack: set<string>, pointer: string, level: nat)
    requires node.Object? && Get(node.members, "$ref") == Some(Text(pointer)) && Expand(root, node, stack).Some?
    ensures var e := Expand(root, node, stack).value; Covers(e.cost, Places(e.out, level), level, RefFree(node))
    decreases |Refs(root) - stack|, node, -1
  {
    ExpandJump(root, node, stack, pointer);
    JumpIsCharged(root, node, stack, pointer);
    RefIsNotFree(node.members, pointer);
    hide Expand, Resolve, Refs, Covers, RefFree, Places;
    var target := Resolve(root, pointer).value;
    JumpShrinks(root, stack, pointer);
    ExpandCharges(root, target, stack + {pointer}, level);
    var e := Expand(root, target, stack + {pointer}).value;
    CoversWeaker(e.cost, Places(e.out, level), level, RefFree(target));
    JumpCovers(e.cost, Places(e.out, level), level);
  }

  lemma CoversWeaker(cost: Cost, places: seq<Place>, level: nat, exact: bool)
    requires Covers(cost, places, level, exact)
    ensures Covers(cost, places, level, false)
  {
  }

  lemma RefIsNotFree(members: seq<Member>, pointer: string)
    requires Get(members, "$ref") == Some(Text(pointer))
    ensures !RefFree(Object(members))
  {
  }

  lemma {:induction false} ObjectCharges(root: Value, members: seq<Member>, stack: set<string>, level: nat)
    requires Get(members, "$ref").None? && Expand(root, Object(members), stack).Some?
    ensures var e := Expand(root, Object(members), stack).value;
            Covers(e.cost, Places(e.out, level), level, RefFree(Object(members)))
    decreases |Refs(root) - stack|, members, 1
  {
    ExpandObject(root, members, stack);
    ObjectIsCharged(root, members, stack);
    FreeMembers(members);
    hide *;
    MembersCharge(root, members, stack, level);
    var inner := ExpandKeywords(root, members, stack).value;
    SchemaItselfCovers(inner.cost, MemberPlaces(inner.out, level), Object(inner.out), level, AllFree(members));
    PlacesOfObject(inner.out, level);
  }

  lemma PlacesOfObject(members: seq<Member>, level: nat)
    ensures Places(Object(members), level) == MemberPlaces(members, level) + [Place(Object(members), level)]
  {
    hide MemberPlaces;
  }

  /** An object costs what its members cost, and itself: one node and the size of its expansion. */
  lemma ObjectIsCharged(root: Value, members: seq<Member>, stack: set<string>)
    requires Get(members, "$ref").None? && Expand(root, Object(members), stack).Some?
    ensures ExpandKeywords(root, members, stack).Some?
    ensures var inner := ExpandKeywords(root, members, stack).value.cost;
            var e := Expand(root, Object(members), stack).value;
            e.cost == Cost(1 + inner.nodes, inner.height, inner.bytes + EncodedSize(e.out))
  {
    hide ExpandKeywords, Resolve, Refs, EncodedSize;
  }

  ghost predicate AllFree(members: seq<Member>) {
    forall i :: 0 <= i < |members| ==> RefFreeValue(members[i].key, members[i].value)
  }

  lemma FreeMembers(members: seq<Member>)
    requires Get(members, "$ref").None?
    ensures RefFree(Object(members)) <==> AllFree(members)
  {
    hide RefFreeValue;
  }

  lemma {:induction false} MembersCharge(root: Value, members: seq<Member>, stack: set<string>, level: nat)
    requires ExpandKeywords(root, members, stack).Some?
    ensures var e := ExpandKeywords(root, members, stack).value;
            Covers(e.cost, MemberPlaces(e.out, level), level, AllFree(members))
    decreases |Refs(root) - stack|, members, 0
  {
    hide Expand, ExpandKeyword, Refs, Covers, KeywordOf, ValuePlaces, RefFreeValue;
    if |members| == 0 {
      NothingIsFree(level, true);
    } else {
      var before, last := members[..|members| - 1], members[|members| - 1];
      MembersCharge(root, before, stack, level);
      AllFreeSplits(members);
      var e := ExpandKeywords(root, before, stack).value;
      if Classify(last.key, last.value).Dropped? {
        DroppedIsNotFree(last.key, last.value);
        CoversWeaker(e.cost, MemberPlaces(e.out, level), level, AllFree(before));
      } else {
        KeywordCharges(root, last.key, last.value, stack, level);
        var v := ExpandKeyword(root, last.key, last.value, stack).value;
        BesideCovers(e.cost, MemberPlaces(e.out, level), v.cost, ValuePlaces(last.key, v.out, level), level,
                     AllFree(before), RefFreeValue(last.key, last.value));
        var out := e.out + [Member(last.key, v.out)];
        assert out[..|out| - 1] == e.out;
      }
    }
  }

  lemma AllFreeSplits(members: seq<Member>)
    requires |members| > 0
    ensures AllFree(members) <==>
            AllFree(members[..|members| - 1])
            && RefFreeValue(members[|members| - 1].key, members[|members| - 1].value)
  {
    hide RefFreeValue;
    var before := members[..|members| - 1];
    assert forall i :: 0 <= i < |before| ==> before[i] == members[i];
  }

  lemma DroppedIsNotFree(key: string, value: Value)
    requires Classify(key, value).Dropped?
    ensures !RefFreeValue(key, value)
  {
    hide KeywordOf;
  }

  /** The expanded value is visited as the value was. */
  lemma KindStays(root: Value, key: string, value: Value, stack: set<string>)
    requires ExpandKeyword(root, key, value, stack).Some? && !Classify(key, value).Dropped?
    ensures Classify(key, ExpandKeyword(root, key, value, stack).value.out) == Classify(key, value)
  {
    hide Expand, ExpandElements, ExpandNamed, KeywordOf, Refs, RefFree;
    if Classify(key, value).Single? { ExpandIsRefFree(root, value, stack); }
  }

  lemma KeywordExpansion(root: Value, key: string, value: Value, stack: set<string>)
    requires ExpandKeyword(root, key, value, stack).Some?
    ensures var e := ExpandKeyword(root, key, value, stack).value;
            match Classify(key, value)
            case Single =>
              var v := Expand(root, value, stack);
              v.Some? && e == Expansion(v.value.out, Below(FREE, v.value.cost))
            case Elements =>
              value.List? &&
              var v := ExpandElements(root, value.items, stack);
              v.Some? && e == Expansion(List(v.value.out), v.value.cost)
            case PropertyMap =>
              value.Object? &&
              var v := ExpandNamed(root, value.members, stack, false);
              v.Some? && e == Expansion(Object(v.value.out), v.value.cost)
            case DependencyMap =>
              value.Object? &&
              var v := ExpandNamed(root, value.members, stack, true);
              v.Some? && e == Expansion(Object(v.value.out), v.value.cost)
            case _ => e == Expansion(value, FREE)
  {
    hide Expand, ExpandElements, ExpandNamed, KeywordOf, Refs;
  }

  /** Which schema positions a value has depends on how it is visited. */
  lemma PlacesOfKind(key: string, value: Value, level: nat)
    ensures ValuePlaces(key, value, level) ==
            match Classify(key, value)
            case Single => Places(value, level + 1)
            case Elements => ItemPlaces(value.items, level)
            case PropertyMap => NamedPlaces(value.members, level, false)
            case DependencyMap => NamedPlaces(value.members, level, true)
            case _ => []
    ensures RefFreeValue(key, value) ==
            match Classify(key, value)
            case Dropped => false
            case Single => RefFree(value)
            case Elements => AllItemsFree(value.items)
            case PropertyMap => AllNamedFree(value.members, false)
            case DependencyMap => AllNamedFree(value.members, true)
            case Copied => true
  {
    hide KeywordOf, Places, RefFree, ItemPlaces, NamedPlaces;
  }

  lemma {:induction false} KeywordCharges(root: Value, key: string, value: Value, stack: set<string>, level: nat)
    requires ExpandKeyword(root, key, value, stack).Some? && !Classify(key, value).Dropped?
    ensures var e := ExpandKeyword(root, key, value, stack).value;
            Covers(e.cost, ValuePlaces(key, e.out, level), level, RefFreeValue(key, value))
    decreases |Refs(root) - stack|, value, 3
  {
    KindStays(root, key, value, stack);
    KeywordExpansion(root, key, value, stack);
    PlacesOfKind(key, value, level);
    PlacesOfKind(key, ExpandKeyword(root, key, value, stack).value.out, level);
    NothingIsFree(level, true);
    hide *;
    match Classify(key, value)
    case Single =>
      ExpandIsRefFree(root, value, stack);
      ExpandCharges(root, value, stack, level + 1);
      var e := Expand(root, value, stack).value;
      PlacesAtLeast(e.out, level + 1);
      ChildIsCharged(e.cost, Places(e.out, level + 1), level, RefFree(value));
    case Elements =>
      ItemsCharge(root, value.items, stack, level);
    case PropertyMap =>
      NamedCharge(root, value.members, stack, level, false);
    case DependencyMap =>
      NamedCharge(root, value.members, stack, level, true);
    case _ =>
  }

  lemma ChildIsCharged(child: Cost, places: seq<Place>, level: nat, exact: bool)
    requires Covers(child, places, level + 1, exact) && |places| > 0 && AllAtLeast(places, level + 1)
    ensures Covers(Below(FREE, child), places, level, exact)
  {
    NothingIsFree(level, true);
    ChildCovers(FREE, [], child, places, level, true, exact);
    assert [] + places == places;
  }

  ghost predicate AllItemsFree(items: seq<Value>) {
    forall i :: 0 <= i < |items| ==> RefFree(items[i])
  }

  lemma {:induction false} ItemsCharge(root: Value, items: seq<Value>, stack: set<string>, level: nat)
    requires ExpandElements(root, items, stack).Some?
    ensures var e := ExpandElements(root, items, stack).value;
            Covers(e.cost, ItemPlaces(e.out, level), level, AllItemsFree(items))
    decreases |Refs(root) - stack|, items, 1
  {
    hide Expand, Refs, Covers, RefFree, Places;
    if |items| == 0 {
      NothingIsFree(level, true);
    } else {
      var before, last := items[..|items| - 1], items[|items| - 1];
      ItemsCharge(root, before, stack, level);
      ExpandCharges(root, last, stack, level + 1);
      ExpandIsRefFree(root, last, stack);
      var e, v := ExpandElements(root, before, stack).value, Expand(root, last, stack).value;
      PlacesAtLeast(v.out, level + 1);
      ChildCovers(e.cost, ItemPlaces(e.out, level), v.cost, Places(v.out, level + 1), level,
                  AllItemsFree(before), RefFree(last));
      var out := e.out + [v.out];
      assert out[..|out| - 1] == e.out;
      assert AllItemsFree(items) <==> AllItemsFree(before) && RefFree(last) by {
        assert forall i :: 0 <= i < |before| ==> before[i] == items[i];
      }
    }
  }

  ghost predicate AllNamedFree(members: seq<Member>, partial: bool) {
    forall i :: 0 <= i < |members| && !(partial && !IsSchema(members[i].value)) ==> RefFree(members[i].value)
  }

  lemma NamedFreeSplits(members: seq<Member>, partial: bool)
    requires |members| > 0
    ensures var last := members[|members| - 1].value;
            AllNamedFree(members, partial) <==>
            AllNamedFree(members[..|members| - 1], partial) && (!(partial && !IsSchema(last)) ==> RefFree(last))
  {
    hide RefFree;
    var before := members[..|members| - 1];
    assert forall i :: 0 <= i < |before| ==> before[i] == members[i];
  }

  lemma OneMoreNamed(before: seq<Member>, last: Member, level: nat, partial: bool)
    ensures NamedPlaces(before + [last], level, partial) ==
            NamedPlaces(before, level, partial)
            + if partial && !IsSchema(last.value) then [] else Places(last.value, level + 1)
  {
    hide Places;
    var all := before + [last];
    assert all[..|all| - 1] == before;
  }

  lemma {:induction false} NamedCharge(root: Value, members: seq<Member>, stack: set<string>, level: nat, partial: bool)
    requires ExpandNamed(root, members, stack, partial).Some?
    ensures var e := ExpandNamed(root, members, stack, partial).value;
            Covers(e.cost, NamedPlaces(e.out, level, partial), level, AllNamedFree(members, partial))
    decreases |Refs(root) - stack|, members, 1
  {
    hide Expand, Refs, Covers, RefFree, Places, AllNamedFree;
    if |members| == 0 {
      NoneNamed(level, partial);
    } else {
      var before, last := members[..|members| - 1], members[|members| - 1];
      NamedCharge(root, before, stack, level, partial);
      var e := ExpandNamed(root, before, stack, partial).value;
      NamedFreeSplits(members, partial);
      if partial && !IsSchema(last.value) {
        OneMoreNamed(e.out, last, level, partial);
        assert NamedPlaces(e.out, level, partial) + [] == NamedPlaces(e.out, level, partial);
      } else {
        ExpandCharges(root, last.value, stack, level + 1);
        ExpandIsRefFree(root, last.value, stack);
        var v := Expand(root, last.value, stack).value;
        PlacesAtLeast(v.out, level + 1);
        OneMoreNamed(e.out, Member(last.key, v.out), level, partial);
        ChildCovers(e.cost, NamedPlaces(e.out, level, partial), v.cost, Places(v.out, level + 1), level,
                    AllNamedFree(before, partial), RefFree(last.value));
      }
    }
  }

  lemma NoneNamed(level: nat, partial: bool)
    ensures Covers(FREE, NamedPlaces([], level, partial), level, AllNamedFree([], partial))
  {
    NothingIsFree(level, true);
  }

  // ---------------------------------------------------------------------
  // Main results
  // ---------------------------------------------------------------------

  /**
   The cost pays for an output at a level: its bytes are the sizes of all schemas in the output,
   its nodes are at least as many as those, and its height reaches their greatest level.
   */
  ghost predicate Pays(cost: Cost, output: Value, level: nat) {
    var places := Places(output, level);
    && Place(output, level) in places
    && cost.bytes == TotalSize(places) && EncodedSize(output) <= cost.bytes
    && cost.nodes >= |places|
    && forall p :: p in places ==> p.level <= level + cost.height
  }

  /** What is charged for a visit pays for its output. */
  lemma ChargeIsOutput(root: Value, node: Value, stack: set<string>, level: nat)
    requires Expand(root, node, stack).Some?
    ensures var e := Expand(root, node, stack).value; Pays(e.cost, e.out, level)
  {
    ExpandCharges(root, node, stack, level);
    ExpandIsRefFree(root, node, stack);
    var e := Expand(root, node, stack).value;
    LevelsAreBounded(Places(e.out, level), level);
    hide Expand, RefFree, EncodedSize, MemberPlaces;
    var places := Places(e.out, level);
    assert places[|places| - 1] == Place(e.out, level);
  }

  /** Without references every limit is charged exactly: the schemas, their greatest level, their sizes. */
  lemma ChargeWithoutReferences(schema: Value)
    requires RefFree(schema)
    ensures ExpandRoot(schema).Some?
    ensures var places := Places(schema, 0);
            ExpandRoot(schema).value.cost == Cost(|places|, Deepest(places, 0), TotalSize(places))
  {
    RefFreeIsFixed(schema, schema, {});
    ExpandCharges(schema, schema, {}, 0);
  }

  /** A reference costs one node and one level more than its target. */
  lemma JumpIsCharged(root: Value, node: Value, stack: set<string>, pointer: string)
    requires node.Object? && Get(node.members, "$ref") == Some(Text(pointer)) && Expand(root, node, stack).Some?
    ensures Resolve(root, pointer).Some? && pointer in Refs(root) && pointer !in stack
    ensures var target := Expand(root, Resolve(root, pointer).value, stack + {pointer});
            && target.Some?
            && Expand(root, node, stack).value.cost ==
               Cost(target.value.cost.nodes + 1, target.value.cost.height + 1, target.value.cost.bytes)
  {
    hide ExpandKeywords, Resolve, Refs;
  }
}
