/**
 The expander as the gateway runs it: a recursive visit that fills its outputs in
 loops and charges one mutable budget shared by all tools of a request.
 */
module SchemaVisitor {
  import opened Outcomes
  import opened Json
  import opened JsonPointer
  import opened SchemaSemantics
  import opened SchemaExpansion
  import C = SchemaCharges
  import D = SchemaDefects
  import R = SchemaReach

  /** A budget that stands at `nodes` and `bytes` has room for `cost` below `depth`. */
  predicate Fits(nodes: nat, bytes: nat, depth: nat, cost: Cost) {
    && nodes + cost.nodes <= MAX_EXPANDED_NODES
    && depth + cost.height <= MAX_REF_DEPTH
    && bytes + cost.bytes <= MAX_EXPANDED_BYTES
  }

  /** The error names a limit that `cost` really breaks. */
  predicate Breaks(nodes: nat, bytes: nat, depth: nat, cost: Cost, error: ToolSchemaError) {
    match error
    case DepthLimit => depth + cost.height > MAX_REF_DEPTH
    case NodeLimit => nodes + cost.nodes > MAX_EXPANDED_NODES
    case SizeLimit => bytes + cost.bytes > MAX_EXPANDED_BYTES
    case _ => false
  }

  /** An error of the visitor: a limit, or a defect that leaves no expansion. */
  predicate IsLimit(error: ToolSchemaError) {
    error == DepthLimit || error == NodeLimit || error == SizeLimit
  }

  predicate IsDefect(error: ToolSchemaError) {
    || error == ExternalReference || error == InvalidEscape || error == Unresolvable
    || error == NotASchema || error == ReferenceNotText || error == RecursiveReference
  }

  class ExpansionBudget {
    var nodes: nat
    var cumulativeBytes: nat

    constructor ()
      ensures nodes == 0 && cumulativeBytes == 0
    {
      nodes, cumulativeBytes := 0, 0;
    }

    method ChargeNode(depth: nat) returns (r: Result<(), ToolSchemaError>)
      modifies this
      ensures r.Ok? <==> Fits(old(nodes), 0, depth, Cost(1, 0, 0))
      ensures nodes == if depth > MAX_REF_DEPTH then old(nodes) else old(nodes) + 1
      ensures r.Err? ==> r.error == if depth > MAX_REF_DEPTH then DepthLimit else NodeLimit
      ensures cumulativeBytes == old(cumulativeBytes)
    {
      if depth > MAX_REF_DEPTH { return Err(DepthLimit); }
      nodes := nodes + 1;
      if nodes > MAX_EXPANDED_NODES { return Err(NodeLimit); }
      return Ok(());
    }

    method ChargeOutput(value: Value) returns (r: Result<(), ToolSchemaError>)
      modifies this
      ensures r.Ok? <==> old(cumulativeBytes) + EncodedSize(value) <= MAX_EXPANDED_BYTES
      ensures cumulativeBytes ==
              old(cumulativeBytes) + if EncodedSize(value) > MAX_EXPANDED_BYTES then 0 else EncodedSize(value)
      ensures r.Err? ==> r.error == SizeLimit
      ensures nodes == old(nodes)
    {
      var encodedSize := EncodedSize(value);
      if encodedSize > MAX_EXPANDED_BYTES { return Err(SizeLimit); }
      cumulativeBytes := cumulativeBytes + encodedSize;
      if cumulativeBytes > MAX_EXPANDED_BYTES { return Err(SizeLimit); }
      return Ok(());
    }

    predicate WithinLimits()
      reads this
    {
      nodes <= MAX_EXPANDED_NODES && cumulativeBytes <= MAX_EXPANDED_BYTES
    }

    /** The budget has moved by exactly `cost`. */
    twostate predicate Moved(cost: Cost)
      reads this
    {
      nodes == old(nodes) + cost.nodes && cumulativeBytes == old(cumulativeBytes) + cost.bytes
    }
  }

  // ---------------------------------------------------------------------
  // A prefix of the work costs no more than the whole
  // ---------------------------------------------------------------------

  ghost predicate Part(a: Cost, b: Cost) {
    a.nodes <= b.nodes && a.height <= b.height && a.bytes <= b.bytes
  }

  lemma {:induction false} KeywordsPrefix(root: Value, members: seq<Member>, stack: set<string>, n: nat)
    requires n <= |members| && ExpandKeywords(root, members, stack).Some?
    ensures var part := ExpandKeywords(root, members[..n], stack);
            part.Some? && Part(part.value.cost, ExpandKeywords(root, members, stack).value.cost)
    decreases |members|
  {
    hide Expand, ExpandKeyword, Refs, KeywordOf;
    if n == |members| {
      assert members[..n] == members;
    } else {
      var shorter := members[..|members| - 1];
      KeywordsPrefix(root, shorter, stack, n);
      assert shorter[..n] == members[..n];
    }
  }

  lemma {:induction false} ElementsPrefix(root: Value, items: seq<Value>, stack: set<string>, n: nat)
    requires n <= |items| && ExpandElements(root, items, stack).Some?
    ensures var part := ExpandElements(root, items[..n], stack);
            part.Some? && Part(part.value.cost, ExpandElements(root, items, stack).value.cost)
    decreases |items|
  {
    hide Expand, Refs;
    if n == |items| {
      assert items[..n] == items;
    } else {
      var shorter := items[..|items| - 1];
      ElementsPrefix(root, shorter, stack, n);
      assert shorter[..n] == items[..n];
    }
  }

  lemma {:induction false} NamedPrefix(root: Value, members: seq<Member>, stack: set<string>, partial: bool, n: nat)
    requires n <= |members| && ExpandNamed(root, members, stack, partial).Some?
    ensures var part := ExpandNamed(root, members[..n], stack, partial);
            part.Some? && Part(part.value.cost, ExpandNamed(root, members, stack, partial).value.cost)
    decreases |members|
  {
    hide Expand, Refs;
    if n == |members| {
      assert members[..n] == members;
    } else {
      var shorter := members[..|members| - 1];
      NamedPrefix(root, shorter, stack, partial, n);
      assert shorter[..n] == members[..n];
    }
  }

  /** One more keyword. */
  lemma KeywordsStep(root: Value, members: seq<Member>, stack: set<string>, n: nat)
    requires n < |members|
    ensures var before := ExpandKeywords(root, members[..n], stack);
            var v := ExpandKeyword(root, members[n].key, members[n].value, stack);
            ExpandKeywords(root, members[..n + 1], stack) ==
            if before.None? || Classify(members[n].key, members[n].value).Dropped? then before
            else if v.None? then None
            else Some(Expansion(before.value.out + [Member(members[n].key, v.value.out)],
                                Beside(before.value.cost, v.value.cost)))
  {
    hide ExpandKeyword, Refs, KeywordOf;
    assert members[..n + 1][..n] == members[..n];
  }

  lemma KeywordsEmpty(root: Value, members: seq<Member>, stack: set<string>)
    ensures ExpandKeywords(root, members[..0], stack) == Some(Expansion([], FREE))
  {
    hide ExpandKeyword, Refs;
  }

  /** One more entry of a name map. */
  lemma NamedStep(root: Value, members: seq<Member>, stack: set<string>, partial: bool, n: nat)
    requires n < |members|
    ensures var before := ExpandNamed(root, members[..n], stack, partial);
            var v := Expand(root, members[n].value, stack);
            ExpandNamed(root, members[..n + 1], stack, partial) ==
            if before.None? then None
            else if partial && !IsSchema(members[n].value) then
              Some(Expansion(before.value.out + [members[n]], before.value.cost))
            else if v.None? then None
            else Some(Expansion(before.value.out + [Member(members[n].key, v.value.out)],
                                Below(before.value.cost, v.value.cost)))
  {
    hide Expand, Refs;
    assert members[..n + 1][..n] == members[..n];
  }

  lemma NamedEmpty(root: Value, members: seq<Member>, stack: set<string>, partial: bool)
    ensures ExpandNamed(root, members[..0], stack, partial) == Some(Expansion([], FREE))
  {
    hide Expand, Refs;
  }

  /** One more element. */
  lemma ElementsStep(root: Value, items: seq<Value>, stack: set<string>, n: nat)
    requires n < |items|
    ensures var before := ExpandElements(root, items[..n], stack);
            var v := Expand(root, items[n], stack);
            ExpandElements(root, items[..n + 1], stack) ==
            if before.None? || v.None? then None
            else Some(Expansion(before.value.out + [v.value.out], Below(before.value.cost, v.value.cost)))
  {
    hide Expand, Refs;
    assert items[..n + 1][..n] == items[..n];
  }

  lemma ElementsEmpty(root: Value, items: seq<Value>, stack: set<string>)
    ensures ExpandElements(root, items[..0], stack) == Some(Expansion([], FREE))
  {
    hide Expand, Refs;
  }

  lemma PointerInRefs(root: Value, members: seq<Member>, pointer: string)
    requires MembersWithin(members, Refs(root)) && Get(members, "$ref") == Some(Text(pointer))
    ensures pointer in Refs(root)
  {
    hide Refs;
    var i :| 0 <= i < |members| && members[i] == Member("$ref", Text(pointer));
  }

  lemma ExpandByShape(root: Value, node: Value, stack: set<string>)
    ensures node.Bool? ==> Expand(root, node, stack) == Some(Expansion(node, Cost(1, 0, EncodedSize(node))))
    ensures node.Object? && Get(node.members, "$ref").None? ==>
              var e := ExpandKeywords(root, node.members, stack);
              Expand(root, node, stack) ==
              if e.None? then None
              else Some(Expansion(Object(e.value.out),
                                  Cost(1 + e.value.cost.nodes, e.value.cost.height,
                                       e.value.cost.bytes + EncodedSize(Object(e.value.out)))))
    ensures !IsSchema(node) ==> Expand(root, node, stack).None?
    ensures Expand(root, node, stack).Some? ==> Expand(root, node, stack).value.cost.nodes > 0
  {
    hide ExpandKeywords, Refs, Resolve, EncodedSize;
  }

  lemma NotASchemaShows(root: Value, node: Value, stack: set<string>)
    requires !IsSchema(node)
    ensures D.Shows(root, node, stack, NotASchema)
  {
    D.NodeShows(root, node, stack, NotASchema);
  }

  // ---------------------------------------------------------------------
  // The visit
  // ---------------------------------------------------------------------

  method VisitSchema(budget: ExpansionBudget, root: Value, node: Value, stack: set<string>, depth: nat)
    returns (r: Result<Value, ToolSchemaError>)
    requires InScope(root, node, stack) && depth <= MAX_REF_DEPTH + 1
    requires budget.WithinLimits()
    modifies budget
    ensures var e := Expand(root, node, stack);
            && (r.Ok? <==> e.Some? && Fits(old(budget.nodes), old(budget.cumulativeBytes), depth, e.value.cost))
            && (r.Ok? ==> r.value == e.value.out && budget.Moved(e.value.cost))
            && (r.Err? && e.Some? ==>
                  Breaks(old(budget.nodes), old(budget.cumulativeBytes), depth, e.value.cost, r.error))
            && (r.Err? ==> IsLimit(r.error) || (IsDefect(r.error) && e.None?))
    ensures r.Ok? ==> C.Pays(Expand(root, node, stack).value.cost, r.value, depth)
    ensures r.Err? && IsDefect(r.error) ==> D.Shows(root, node, stack, r.error)
    decreases MAX_REF_DEPTH + 1 - depth, 0
  {
    hide C.Pays, D.Shows, D.MembersShow, D.IsFlawed, MembersWithin, Get, C.Places, C.TotalSize;
    if Expand(root, node, stack).Some? { C.ChargeIsOutput(root, node, stack, depth); }
    ExpandByShape(root, node, stack);
    if !IsSchema(node) { NotASchemaShows(root, node, stack); }
    hide Expand, ExpandKeywords, Refs, Resolve, EncodedSize, KeywordOf, Walk, IsLocal, Segments;
    var _ :- budget.ChargeNode(depth);
    match node
    case Bool(_) =>
      var _ :- budget.ChargeOutput(node);
      return Ok(node);
    case Object(members) =>
      var reference := Get(members, "$ref");
      if reference.Some? {
        r := VisitReference(budget, root, members, stack, depth);
        return r;
      }
      var normalized := VisitKeywords(budget, root, members, stack, depth);
      if normalized.Err? {
        if IsDefect(normalized.error) { D.ObjectShows(root, members, stack, normalized.error); }
        return Err(normalized.error);
      }
      var _ :- budget.ChargeOutput(Object(normalized.value));
      return Ok(Object(normalized.value));
    case _ =>
      return Err(NotASchema);
  }

  /** The branch for a reference, behind the charge for its node. */
  method VisitReference(budget: ExpansionBudget, root: Value, members: seq<Member>, stack: set<string>, depth: nat)
    returns (r: Result<Value, ToolSchemaError>)
    requires InScope(root, Object(members), stack) && Get(members, "$ref").Some? && depth <= MAX_REF_DEPTH
    requires budget.WithinLimits() && budget.nodes > 0
    modifies budget
    ensures var e := Expand(root, Object(members), stack);
            && (r.Ok? <==> e.Some? && Fits(old(budget.nodes) - 1, old(budget.cumulativeBytes), depth, e.value.cost))
            && (r.Ok? ==> r.value == e.value.out && budget.nodes == old(budget.nodes) - 1 + e.value.cost.nodes
                          && budget.cumulativeBytes == old(budget.cumulativeBytes) + e.value.cost.bytes)
            && (r.Err? && e.Some? ==>
                  Breaks(old(budget.nodes) - 1, old(budget.cumulativeBytes), depth, e.value.cost, r.error))
            && (r.Err? ==> IsLimit(r.error) || (IsDefect(r.error) && e.None?))
    ensures r.Err? && IsDefect(r.error) ==> D.Shows(root, Object(members), stack, r.error)
    decreases MAX_REF_DEPTH + 1 - depth, 0, 3
  {
    hide ExpandKeywords, Refs, Resolve, EncodedSize, KeywordOf, Walk, IsLocal, Segments, C.Pays;
    hide D.Shows, D.IsFlawed;
    var reference := Get(members, "$ref");
    ReferenceFlaws(root, members, stack);
    if !reference.value.Text? { return Err(ReferenceNotText); }
    var pointer := reference.value.chars;
    if pointer in stack { return Err(RecursiveReference); }
    PointerInRefs(root, members, pointer);
    var target := ResolvePointer(root, pointer);
    if target.Err? {
      UnresolvedFlaws(root, members, pointer, stack, target.error);
      return target;
    }
    TargetWithin(root, pointer);
    r := VisitSchema(budget, root, target.value, stack + {pointer}, depth + 1);
    if r.Err? && IsDefect(r.error) { D.JumpShows(root, Object(members), pointer, stack, r.error); }
  }

  lemma ReferenceFlaws(root: Value, members: seq<Member>, stack: set<string>)
    requires Get(members, "$ref").Some?
    ensures match Get(members, "$ref").value
            case Text(pointer) =>
              R.RefOf(Object(members)) == Some(pointer)
              && (pointer in stack ==> D.Shows(root, Object(members), stack, RecursiveReference))
            case _ => D.Shows(root, Object(members), stack, ReferenceNotText)
  {
    hide D.Shows;
    match Get(members, "$ref").value
    case Text(pointer) =>
      if pointer in stack { D.NodeShows(root, Object(members), stack, RecursiveReference); }
    case _ => D.NodeShows(root, Object(members), stack, ReferenceNotText);
  }

  lemma UnresolvedFlaws(root: Value, members: seq<Member>, pointer: string, stack: set<string>, error: ToolSchemaError)
    requires R.RefOf(Object(members)) == Some(pointer)
    requires error == ExternalReference <==> !IsLocal(pointer)
    requires IsLocal(pointer) ==> exists i :: StopsAt(root, Segments(pointer), i, error)
    ensures D.Shows(root, Object(members), stack, error)
  {
    hide D.Shows;
    if IsLocal(pointer) {
      var i :| StopsAt(root, Segments(pointer), i, error);
      assert error == InvalidEscape || error == Unresolvable;
      assert D.Stops(root, pointer, error);
    }
    D.NodeShows(root, Object(members), stack, error);
  }

  method VisitKeywords(budget: ExpansionBudget, root: Value, members: seq<Member>, stack: set<string>, depth: nat)
    returns (r: Result<seq<Member>, ToolSchemaError>)
    requires stack <= Refs(root) && MembersWithin(members, Refs(root)) && depth <= MAX_REF_DEPTH
    requires budget.WithinLimits()
    modifies budget
    ensures var e := ExpandKeywords(root, members, stack);
            && (r.Ok? <==> e.Some? && Fits(old(budget.nodes), old(budget.cumulativeBytes), depth, e.value.cost))
            && (r.Ok? ==> r.value == e.value.out && budget.Moved(e.value.cost))
            && (r.Err? && e.Some? ==>
                  Breaks(old(budget.nodes), old(budget.cumulativeBytes), depth, e.value.cost, r.error))
            && (r.Err? ==> IsLimit(r.error) || (IsDefect(r.error) && e.None?))
    ensures r.Err? && IsDefect(r.error) ==> D.MembersShow(root, members, stack, r.error)
    decreases MAX_REF_DEPTH + 1 - depth, 0, 2
  {
    hide Expand, ExpandKeyword, ExpandKeywords, Refs, Classify, D.ValueShows;
    KeywordsEmpty(root, members, stack);
    var normalized: seq<Member> := [];
    for i := 0 to |members|
      invariant var e := ExpandKeywords(root, members[..i], stack);
                e.Some? && normalized == e.value.out && budget.Moved(e.value.cost)
                && Fits(old(budget.nodes), old(budget.cumulativeBytes), depth, e.value.cost)
    {
      KeywordsStep(root, members, stack, i);
      var key, value := members[i].key, members[i].value;
      if ExpandKeywords(root, members, stack).Some? { KeywordsPrefix(root, members, stack, i + 1); }
      if Classify(key, value).Dropped? { continue; }
      var visited :- VisitKeyword(budget, root, key, value, stack, depth);
      normalized := normalized + [Member(key, visited)];
    }
    assert members[..|members|] == members;
    return Ok(normalized);
  }

  method VisitKeyword(budget: ExpansionBudget, root: Value, key: string, value: Value, stack: set<string>, depth: nat)
    returns (r: Result<Value, ToolSchemaError>)
    requires InScope(root, value, stack) && depth <= MAX_REF_DEPTH
    requires budget.WithinLimits()
    modifies budget
    ensures var e := ExpandKeyword(root, key, value, stack);
            && (r.Ok? <==> e.Some? && Fits(old(budget.nodes), old(budget.cumulativeBytes), depth, e.value.cost))
            && (r.Ok? ==> r.value == e.value.out && budget.Moved(e.value.cost))
            && (r.Err? && e.Some? ==>
                  Breaks(old(budget.nodes), old(budget.cumulativeBytes), depth, e.value.cost, r.error))
            && (r.Err? ==> IsLimit(r.error) || (IsDefect(r.error) && e.None?))
    ensures r.Err? && IsDefect(r.error) ==> D.ValueShows(root, key, value, stack, r.error)
    decreases MAX_REF_DEPTH + 1 - depth, 0, 1
  {
    hide Expand, ExpandElements, ExpandNamed, Refs, KeywordOf, C.Pays, D.Shows, D.ValueShows;
    match Classify(key, value)
    case Single =>
      r := VisitSchema(budget, root, value, stack, depth + 1);
      if r.Err? && IsDefect(r.error) { D.SubschemaShows(root, key, value, value, stack, r.error); }
    case Elements =>
      var items := VisitElements(budget, root, value.items, stack, depth);
      if items.Err? {
        if IsDefect(items.error) {
          ghost var b :| b in value.items && D.Shows(root, b, stack, items.error);
          D.SubschemaShows(root, key, value, b, stack, items.error);
        }
        return Err(items.error);
      }
      return Ok(List(items.value));
    case PropertyMap =>
      var entries := VisitNamed(budget, root, value.members, stack, false, depth);
      if entries.Err? {
        if IsDefect(entries.error) { EntryShows(root, key, value, stack, entries.error, false); }
        return Err(entries.error);
      }
      return Ok(Object(entries.value));
    case DependencyMap =>
      var entries := VisitNamed(budget, root, value.members, stack, true, depth);
      if entries.Err? {
        if IsDefect(entries.error) { EntryShows(root, key, value, stack, entries.error, true); }
        return Err(entries.error);
      }
      return Ok(Object(entries.value));
    case _ =>
      return Ok(value);
  }

  lemma EntryShows(root: Value, key: string, value: Value, stack: set<string>, error: ToolSchemaError, partial: bool)
    requires Classify(key, value) == if partial then DependencyMap else PropertyMap
    requires exists j :: 0 <= j < |value.members| && (partial ==> IsSchema(value.members[j].value))
                         && D.Shows(root, value.members[j].value, stack, error)
    ensures D.ValueShows(root, key, value, stack, error)
  {
    hide D.Shows, D.ValueShows, KeywordOf;
    var j :| 0 <= j < |value.members| && (partial ==> IsSchema(value.members[j].value))
             && D.Shows(root, value.members[j].value, stack, error);
    D.SubschemaShows(root, key, value, value.members[j].value, stack, error);
  }

  method VisitElements(budget: ExpansionBudget, root: Value, items: seq<Value>, stack: set<string>, depth: nat)
    returns (r: Result<seq<Value>, ToolSchemaError>)
    requires stack <= Refs(root) && (forall i :: 0 <= i < |items| ==> Within(items[i], Refs(root)))
             && depth <= MAX_REF_DEPTH
    requires budget.WithinLimits()
    modifies budget
    ensures var e := ExpandElements(root, items, stack);
            && (r.Ok? <==> e.Some? && Fits(old(budget.nodes), old(budget.cumulativeBytes), depth, e.value.cost))
            && (r.Ok? ==> r.value == e.value.out && budget.Moved(e.value.cost))
            && (r.Err? && e.Some? ==>
                  Breaks(old(budget.nodes), old(budget.cumulativeBytes), depth, e.value.cost, r.error))
            && (r.Err? ==> IsLimit(r.error) || (IsDefect(r.error) && e.None?))
    ensures r.Err? && IsDefect(r.error) ==> exists b :: b in items && D.Shows(root, b, stack, r.error)
    decreases MAX_REF_DEPTH + 1 - depth, 0, 0
  {
    hide Expand, ExpandElements, Refs, Within, C.Pays, D.Shows;
    ElementsEmpty(root, items, stack);
    var visited: seq<Value> := [];
    for i := 0 to |items|
      invariant var e := ExpandElements(root, items[..i], stack);
                e.Some? && visited == e.value.out && budget.Moved(e.value.cost)
                && Fits(old(budget.nodes), old(budget.cumulativeBytes), depth, e.value.cost)
    {
      ElementsStep(root, items, stack, i);
      if ExpandElements(root, items, stack).Some? { ElementsPrefix(root, items, stack, i + 1); }
      var v :- VisitSchema(budget, root, items[i], stack, depth + 1);
      visited := visited + [v];
    }
    assert items[..|items|] == items;
    return Ok(visited);
  }

  method VisitNamed(budget: ExpansionBudget, root: Value, members: seq<Member>, stack: set<string>, partial: bool,
                    depth: nat)
    returns (r: Result<seq<Member>, ToolSchemaError>)
    requires stack <= Refs(root) && MembersWithin(members, Refs(root)) && depth <= MAX_REF_DEPTH
    requires budget.WithinLimits()
    modifies budget
    ensures var e := ExpandNamed(root, members, stack, partial);
            && (r.Ok? <==> e.Some? && Fits(old(budget.nodes), old(budget.cumulativeBytes), depth, e.value.cost))
            && (r.Ok? ==> r.value == e.value.out && budget.Moved(e.value.cost))
            && (r.Err? && e.Some? ==>
                  Breaks(old(budget.nodes), old(budget.cumulativeBytes), depth, e.value.cost, r.error))
            && (r.Err? ==> IsLimit(r.error) || (IsDefect(r.error) && e.None?))
    ensures r.Err? && IsDefect(r.error) ==>
              exists j :: 0 <= j < |members| && (partial ==> IsSchema(members[j].value))
                          && D.Shows(root, members[j].value, stack, r.error)
    decreases MAX_REF_DEPTH + 1 - depth, 0, 0
  {
    hide Expand, ExpandNamed, Refs, Within, C.Pays, D.Shows;
    NamedEmpty(root, members, stack, partial);
    var visited: seq<Member> := [];
    for i := 0 to |members|
      invariant var e := ExpandNamed(root, members[..i], stack, partial);
                e.Some? && visited == e.value.out && budget.Moved(e.value.cost)
                && Fits(old(budget.nodes), old(budget.cumulativeBytes), depth, e.value.cost)
    {
      NamedStep(root, members, stack, partial, i);
      if ExpandNamed(root, members, stack, partial).Some? { NamedPrefix(root, members, stack, partial, i + 1); }
      if partial && !IsSchema(members[i].value) {
        visited := visited + [members[i]];
        continue;
      }
      var v :- VisitSchema(budget, root, members[i].value, stack, depth + 1);
      visited := visited + [Member(members[i].key, v)];
    }
    assert members[..|members|] == members;
    return Ok(visited);
  }

  /**
   `_inline_local_refs`: succeeds exactly when the unlimited expansion exists and the
   shared budget has room for it, returns it and charges exactly its cost.
   */
  method InlineLocalRefs(schema: Value, budget: ExpansionBudget) returns (r: Result<Value, ToolSchemaError>)
    requires budget.WithinLimits()
    modifies budget
    ensures var e := ExpandRoot(schema);
            && (r.Ok? <==> e.Some? && Fits(old(budget.nodes), old(budget.cumulativeBytes), 0, e.value.cost))
            && (r.Ok? ==> r.value == e.value.out && budget.Moved(e.value.cost) && budget.WithinLimits())
            && (r.Err? && e.Some? ==> Breaks(old(budget.nodes), old(budget.cumulativeBytes), 0, e.value.cost, r.error))
            && (r.Err? ==> IsLimit(r.error) || (IsDefect(r.error) && e.None?))
    ensures r.Err? && IsDefect(r.error) ==> D.Shows(schema, schema, {}, r.error)
    ensures r.Ok? ==>
              var places := C.Places(r.value, 0);
              && budget.cumulativeBytes == old(budget.cumulativeBytes) + C.TotalSize(places)
              && budget.nodes >= old(budget.nodes) + |places|
              && (forall p :: p in places ==> p.level <= MAX_REF_DEPTH)
              && old(budget.cumulativeBytes) + EncodedSize(r.value) <= MAX_EXPANDED_BYTES
  {
    hide C.Places, C.TotalSize, D.Shows;
    WithinRefs(schema, Refs(schema));
    r := VisitSchema(budget, schema, schema, {}, 0);
  }
}
