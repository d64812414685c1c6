/**
 The `$ref` expander of the gateway: it inlines every local reference of a tool schema
 under shared node, depth and size budgets and refuses recursive references.

 `Expand` is the expansion without numeric limits. It terminates because each jump
 puts a new reference string of the root on the stack and everything else descends.
 The methods carry the budgets and are proved to succeed exactly when `Expand` does
 within them.
 */
module SchemaExpansion {
  import opened Outcomes
  import opened Json
  import opened JsonPointer
  import opened SchemaSemantics

  const MAX_REF_DEPTH: nat := 64
  const MAX_EXPANDED_NODES: nat := 10_000
  const MAX_EXPANDED_BYTES: nat := 1_048_576

  // ---------------------------------------------------------------------
  // How the value of a keyword is visited
  // ---------------------------------------------------------------------

  datatype Kind = Dropped | Single | Elements | PropertyMap | DependencyMap | Copied

  function Classify(key: string, value: Value): Kind {
    match KeywordOf(key)
    case Definitions => Dropped
    case Properties => if value.Object? then PropertyMap else Copied
    case PatternProperties => if value.Object? then PropertyMap else Copied
    case Dependencies => if value.Object? then DependencyMap else Copied
    case Items => if value.List? then Elements else if IsSchema(value) then Single else Copied
    case AllOf => if value.List? then Elements else Copied
    case AnyOf => if value.List? then Elements else Copied
    case OneOf => if value.List? then Elements else Copied
    case Other => Copied
    case _ => if IsSchema(value) then Single else Copied
  }

  // ---------------------------------------------------------------------
  // References that occur in a value
  // ---------------------------------------------------------------------

  ghost function Refs(v: Value): set<string>
    decreases v
  {
    match v
    case List(items) => set i, r | 0 <= i < |items| && r in Refs(items[i]) :: r
    case Object(members) =>
      (set i | 0 <= i < |members| && members[i].key == "$ref" && members[i].value.Text? :: members[i].value.chars)
      + (set i, r | 0 <= i < |members| && r in Refs(members[i].value) :: r)
    case _ => {}
  }

  /** Every reference text that occurs anywhere in `v` belongs to `names`. */
  ghost predicate Within(v: Value, names: set<string>)
    decreases v
  {
    match v
    case List(items) => forall i :: 0 <= i < |items| ==> Within(items[i], names)
    case Object(members) => MembersWithin(members, names)
    case _ => true
  }

  ghost predicate MembersWithin(members: seq<Member>, names: set<string>)
    decreases members
  {
    forall i :: 0 <= i < |members| ==>
      Within(members[i].value, names)
      && (members[i].key == "$ref" && members[i].value.Text? ==> members[i].value.chars in names)
  }

  lemma {:induction false} WithinRefs(v: Value, names: set<string>)
    requires Refs(v) <= names
    ensures Within(v, names)
    decreases v
  {
    match v
    case List(items) =>
      forall i | 0 <= i < |items| ensures Within(items[i], names) {
        assert Refs(items[i]) <= Refs(v);
        WithinRefs(items[i], names);
      }
    case Object(members) =>
      forall i | 0 <= i < |members| ensures Within(members[i].value, names) {
        assert Refs(members[i].value) <= Refs(v);
        WithinRefs(members[i].value, names);
      }
    case _ =>
  }

  lemma {:induction false} WalkWithin(current: Value, segments: seq<string>, names: set<string>)
    requires Within(current, names) && Walk(current, segments).Some?
    ensures Within(Walk(current, segments).value, names)
  {
    if |segments| > 0 {
      WalkWithin(Enter(current, Decode(segments[0]).value).value, segments[1..], names);
    }
  }

  lemma TargetWithin(root: Value, pointer: string)
    requires Resolve(root, pointer).Some?
    ensures Within(Resolve(root, pointer).value, Refs(root))
  {
    WithinRefs(root, Refs(root));
    if pointer != "#" { WalkWithin(root, Split(pointer[2..]), Refs(root)); }
  }

  /** What every visit keeps: the stack and the node mention only references of the root. */
  ghost predicate InScope(root: Value, node: Value, stack: set<string>) {
    stack <= Refs(root) && Within(node, Refs(root))
  }

  lemma JumpShrinks(root: Value, stack: set<string>, pointer: string)
    requires pointer in Refs(root) && pointer !in stack
    ensures |Refs(root) - (stack + {pointer})| < |Refs(root) - stack|
  {
    assert Refs(root) - (stack + {pointer}) == (Refs(root) - stack) - {pointer};
  }

  // ---------------------------------------------------------------------
  // Expansion without limits
  // ---------------------------------------------------------------------

  /** Nodes charged, greatest depth below the start, and bytes of the outputs charged. */
  datatype Cost = Cost(nodes: nat, height: nat, bytes: nat)

  const FREE := Cost(0, 0, 0)

  function Max(a: nat, b: nat): nat {
    if a < b then b else a
  }

  /** The cost of one visit after others, one level below the current node. */
  function Below(before: Cost, child: Cost): Cost {
    Cost(before.nodes + child.nodes, Max(before.height, child.height + 1), before.bytes + child.bytes)
  }

  function Beside(a: Cost, b: Cost): Cost {
    Cost(a.nodes + b.nodes, Max(a.height, b.height), a.bytes + b.bytes)
  }

  datatype Expansion<+T> = Expansion(out: T, cost: Cost)

  /**
   The test `pointer !in Refs(root)` only makes the definition total: a visit that
   starts at the root never meets such a pointer, and the visitor below has no such test.
   */
  ghost function Expand(root: Value, node: Value, stack: set<string>): Option<Expansion<Value>>
    decreases |Refs(root) - stack|, node, 0
  {
    match node
    case Bool(_) => Some(Expansion(node, Cost(1, 0, EncodedSize(node))))
    case Object(members) =>
      (match Get(members, "$ref")
       case Some(Text(pointer)) =>
         if pointer !in Refs(root) || pointer in stack || Resolve(root, pointer).None? then None
         else
           JumpShrinks(root, stack, pointer);
           var e :- Expand(root, Resolve(root, pointer).value, stack + {pointer});
           Some(Expansion(e.out, Below(Cost(1, 0, 0), e.cost)))
       case Some(_) => None
       case None =>
         var e :- ExpandKeywords(root, members, stack);
         var out := Object(e.out);
         Some(Expansion(out, Cost(1 + e.cost.nodes, e.cost.height, e.cost.bytes + EncodedSize(out)))))
    case _ => None
  }

  /** The members of a schema object without `$ref`, in order. */
  ghost function ExpandKeywords(root: Value, members: seq<Member>, stack: set<string>): Option<Expansion<seq<Member>>>
    decreases |Refs(root) - stack|, members, 0
  {
    if |members| == 0 then Some(Expansion([], FREE))
    else
      var last := members[|members| - 1];
      var e :- ExpandKeywords(root, members[..|members| - 1], stack);
      if Classify(last.key, last.value).Dropped? then Some(e)
      else
        var v :- ExpandKeyword(root, last.key, last.value, stack);
        Some(Expansion(e.out + [Member(last.key, v.out)], Beside(e.cost, v.cost)))
  }

  ghost function ExpandKeyword(root: Value, key: string, value: Value, stack: set<string>): Option<Expansion<Value>>
    decreases |Refs(root) - stack|, value, 2
  {
    match Classify(key, value)
    case Single =>
      var e :- Expand(root, value, stack);
      Some(Expansion(e.out, Below(FREE, e.cost)))
    case Elements =>
      var e :- ExpandElements(root, value.items, stack);
      Some(Expansion(List(e.out), e.cost))
    case PropertyMap =>
      var e :- ExpandNamed(root, value.members, stack, false);
      Some(Expansion(Object(e.out), e.cost))
    case DependencyMap =>
      var e :- ExpandNamed(root, value.members, stack, true);
      Some(Expansion(Object(e.out), e.cost))
    case _ => Some(Expansion(value, FREE))
  }

  ghost function ExpandElements(root: Value, items: seq<Value>, stack: set<string>): Option<Expansion<seq<Value>>>
    decreases |Refs(root) - stack|, items, 0
  {
    if |items| == 0 then Some(Expansion([], FREE))
    else
      var e :- ExpandElements(root, items[..|items| - 1], stack);
      var v :- Expand(root, items[|items| - 1], stack);
      Some(Expansion(e.out + [v.out], Below(e.cost, v.cost)))
  }

  /** A map from names to schemas; with `partial`, values that are no schema are copied. */
  ghost function ExpandNamed(root: Value, members: seq<Member>, stack: set<string>, partial: bool)
    : Option<Expansion<seq<Member>>>
    decreases |Refs(root) - stack|, members, 0
  {
    if |members| == 0 then Some(Expansion([], FREE))
    else
      var last := members[|members| - 1];
      var e :- ExpandNamed(root, members[..|members| - 1], stack, partial);
      if partial && !IsSchema(last.value) then Some(Expansion(e.out + [last], e.cost))
      else
        var v :- Expand(root, last.value, stack);
        Some(Expansion(e.out + [Member(last.key, v.out)], Below(e.cost, v.cost)))
  }

  /** The expansion of a whole schema. */
  ghost function ExpandRoot(root: Value): Option<Expansion<Value>> {
    Expand(root, root, {})
  }
}
