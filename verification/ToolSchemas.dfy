/**
 The validation of all tool schemas of a request: every schema passes the preflight and
 the meta-schema and expands, and all expansions together stay within one budget.
 */
module ToolSchemas {
  import opened Outcomes
  import opened Json
  import opened JsonPointer
  import opened SchemaExpansion
  import opened SchemaVisitor
  import opened SchemaRefFree
  import C = SchemaCharges
  import D = SchemaDefects
  import P = Preflight

  /** A function tool: its name and its parameters, as the object that the preflight walks and as JSON. */
  datatype Tool = Tool(name: string, slot: P.Slot, parameters: Value)

  /** The tools before this one with its name; the loop keeps them in a set. */
  predicate IsRepeated(tools: seq<Tool>, i: nat)
    requires i < |tools|
  {
    exists j :: 0 <= j < i && tools[j].name == tools[i].name
  }

  /** One schema alone: acceptable to the preflight, a Draft-07 schema before and after it was expanded. */
  ghost predicate IsGood(heap: P.Heap, tool: Tool, isSchema: Value -> bool) {
    && P.Acceptable(P.Unfolded(heap, tool.slot)) && isSchema(tool.parameters)
    && ExpandRoot(tool.parameters).Some? && isSchema(ExpandRoot(tool.parameters).value.out)
  }

  ghost function CostOf(tool: Tool): Cost {
    match ExpandRoot(tool.parameters) case Some(e) => e.cost case None => FREE
  }

  /** The cost of all expansions: nodes and bytes add up, the depths do not. */
  ghost function TotalCost(tools: seq<Tool>): Cost {
    if |tools| == 0 then FREE else Beside(TotalCost(tools[..|tools| - 1]), CostOf(tools[|tools| - 1]))
  }

  /** What a request may declare. */
  ghost predicate AllValid(heap: P.Heap, tools: seq<Tool>, isSchema: Value -> bool) {
    && (forall i :: 0 <= i < |tools| ==> !IsRepeated(tools, i) && IsGood(heap, tools[i], isSchema))
    && Fits(0, 0, 0, TotalCost(tools))
  }

  /** What an error says about the tool it was raised for, when the budget stands at `nodes` and `bytes`. */
  ghost predicate IsTrueOf(heap: P.Heap, tool: Tool, repeated: bool, isSchema: Value -> bool, nodes: nat, bytes: nat,
                           error: ToolSchemaError)
  {
    var expansion := ExpandRoot(tool.parameters);
    match error
    case DuplicateFunction => repeated
    case InvalidSchema => !isSchema(tool.parameters) || (expansion.Some? && !isSchema(expansion.value.out))
    case RecursiveContainer => !P.IsTree(P.Unfolded(heap, tool.slot))
    case _ =>
      || !P.Acceptable(P.Unfolded(heap, tool.slot))
      || if IsDefect(error) then expansion.None? && D.Shows(tool.parameters, tool.parameters, {}, error)
         else expansion.None? || !Fits(nodes, bytes, 0, expansion.value.cost)
  }

  lemma {:induction false} PrefixCostsLess(tools: seq<Tool>, n: nat)
    requires n <= |tools|
    ensures Part(TotalCost(tools[..n]), TotalCost(tools))
    decreases |tools|
  {
    hide CostOf;
    if n == |tools| {
      assert tools[..n] == tools;
    } else {
      var shorter := tools[..|tools| - 1];
      PrefixCostsLess(shorter, n);
      assert shorter[..n] == tools[..n];
    }
  }

  lemma PrefixIsValid(heap: P.Heap, tools: seq<Tool>, isSchema: Value -> bool, n: nat)
    requires n <= |tools| && AllValid(heap, tools, isSchema)
    ensures AllValid(heap, tools[..n], isSchema)
  {
    hide IsGood, TotalCost;
    PrefixCostsLess(tools, n);
    forall i | 0 <= i < n ensures !IsRepeated(tools[..n], i) && IsGood(heap, tools[..n][i], isSchema) {
      assert !IsRepeated(tools, i);
    }
  }

  /** One more tool: what is asked of it, given that the ones before are valid. */
  lemma OneMoreTool(heap: P.Heap, tools: seq<Tool>, isSchema: Value -> bool, n: nat)
    requires n < |tools| && AllValid(heap, tools[..n], isSchema)
    ensures var before := TotalCost(tools[..n]);
            && before.nodes <= MAX_EXPANDED_NODES && before.bytes <= MAX_EXPANDED_BYTES
            && TotalCost(tools[..n + 1]).nodes == before.nodes + CostOf(tools[n]).nodes
            && TotalCost(tools[..n + 1]).bytes == before.bytes + CostOf(tools[n]).bytes
            && (Fits(0, 0, 0, TotalCost(tools[..n + 1])) <==> Fits(before.nodes, before.bytes, 0, CostOf(tools[n])))
            && (AllValid(heap, tools[..n + 1], isSchema) <==>
                  !IsRepeated(tools, n) && IsGood(heap, tools[n], isSchema)
                  && Fits(before.nodes, before.bytes, 0, CostOf(tools[n])))
  {
    hide IsGood, CostOf;
    var now := tools[..n + 1];
    assert now[..n] == tools[..n];
    forall i | 0 <= i <= n ensures IsRepeated(now, i) == IsRepeated(tools, i) && now[i] == tools[i] {
      assert forall j :: 0 <= j < i ==> now[j] == tools[j];
    }
    forall i | 0 <= i < n ensures IsRepeated(tools[..n], i) == IsRepeated(tools, i) && tools[..n][i] == tools[i] {
      assert forall j :: 0 <= j < i ==> tools[..n][j] == tools[j];
    }
  }

  /**
   `_validate_tool_schemas`: succeeds exactly when names differ, every schema is good and one
   budget has room for all expansions together. An error is true of the first tool that is refused.
   `isSchema` is the check against the meta-schema.
   */
  method ValidateToolSchemas(heap: P.Heap, tools: seq<Tool>, isSchema: Value -> bool)
    returns (r: Result<(), ToolSchemaError>)
    ensures r.Ok? <==> AllValid(heap, tools, isSchema)
    ensures r.Err? ==> exists i: nat :: i < |tools| && IsRefusedAt(heap, tools, isSchema, i, r.error)
  {
    var names: set<string> := {};
    var budget := new ExpansionBudget();
    NoTools(heap, tools, isSchema);
    for i := 0 to |tools|
      invariant names == NamesOf(tools[..i])
      invariant AllValid(heap, tools[..i], isSchema)
      invariant budget.nodes == TotalCost(tools[..i]).nodes && budget.cumulativeBytes == TotalCost(tools[..i]).bytes
      invariant fresh(budget)
    {
      hide IsGood, CostOf, TotalCost, AllValid, IsTrueOf, NamesOf, IsRepeated, Fits;
      NamesBefore(tools, i);
      OneMoreTool(heap, tools, isSchema, i);
      if AllValid(heap, tools, isSchema) { PrefixIsValid(heap, tools, isSchema, i + 1); }
      var tool := tools[i];
      var outcome := ValidateTool(heap, tool, tool.name in names, isSchema, budget);
      if outcome.Err? {
        assert IsRefusedAt(heap, tools, isSchema, i, outcome.error);
        return outcome;
      }
      names := names + {tool.name};
    }
    assert tools[..|tools|] == tools;
    return Ok(());
  }

  /** The tools before `i` are valid, with this one they are not, and the error is true of it. */
  ghost predicate IsRefusedAt(heap: P.Heap, tools: seq<Tool>, isSchema: Value -> bool, i: nat, error: ToolSchemaError)
    requires i < |tools|
  {
    && AllValid(heap, tools[..i], isSchema) && !AllValid(heap, tools[..i + 1], isSchema)
    && var before := TotalCost(tools[..i]);
       IsTrueOf(heap, tools[i], IsRepeated(tools, i), isSchema, before.nodes, before.bytes, error)
  }

  function NamesOf(tools: seq<Tool>): set<string> {
    set j | 0 <= j < |tools| :: tools[j].name
  }

  lemma NamesBefore(tools: seq<Tool>, i: nat)
    requires i < |tools|
    ensures tools[i].name in NamesOf(tools[..i]) <==> IsRepeated(tools, i)
    ensures NamesOf(tools[..i + 1]) == NamesOf(tools[..i]) + {tools[i].name}
  {
    var before, now := tools[..i], tools[..i + 1];
    assert forall j :: 0 <= j < i ==> before[j] == tools[j] && now[j] == tools[j];
    forall x ensures x in NamesOf(now) <==> x in NamesOf(before) + {tools[i].name} {
      if x in NamesOf(now) {
        var j :| 0 <= j < |now| && now[j].name == x;
        assert j < i ==> before[j].name == x;
      }
      if x in NamesOf(before) {
        var j :| 0 <= j < |before| && before[j].name == x;
        assert now[j].name == x;
      }
      assert now[i].name == tools[i].name;
    }
  }

  lemma NoTools(heap: P.Heap, tools: seq<Tool>, isSchema: Value -> bool)
    ensures NamesOf(tools[..0]) == {}
    ensures AllValid(heap, tools[..0], isSchema) && TotalCost(tools[..0]) == FREE
  {
  }

  // ---------------------------------------------------------------------
  // The limits, over the expanded schemas
  // ---------------------------------------------------------------------

  /** All schemas of all expansions, each with its level. */
  ghost function AllPlaces(tools: seq<Tool>): seq<C.Place> {
    if |tools| == 0 then []
    else
      AllPlaces(tools[..|tools| - 1])
      + match ExpandRoot(tools[|tools| - 1].parameters) case Some(e) => C.Places(e.out, 0) case None => []
  }

  ghost predicate NoReferences(tools: seq<Tool>) {
    forall i :: 0 <= i < |tools| ==> RefFree(tools[i].parameters)
  }

  lemma {:induction false} ToolsAreCharged(tools: seq<Tool>)
    requires forall i :: 0 <= i < |tools| ==> ExpandRoot(tools[i].parameters).Some?
    ensures C.Covers(TotalCost(tools), AllPlaces(tools), 0, NoReferences(tools))
  {
    hide Expand, C.Places, RefFree, C.Covers;
    if |tools| == 0 {
      C.NothingIsFree(0, true);
    } else {
      var before, last := tools[..|tools| - 1], tools[|tools| - 1].parameters;
      ToolsAreCharged(before);
      C.ExpandCharges(last, last, {}, 0);
      var e := ExpandRoot(last).value;
      C.BesideCovers(TotalCost(before), AllPlaces(before), e.cost, C.Places(e.out, 0), 0,
                     NoReferences(before), RefFree(last));
      assert NoReferences(tools) <==> NoReferences(before) && RefFree(last) by {
        assert forall i :: 0 <= i < |before| ==> before[i] == tools[i];
      }
    }
  }

  /**
   All expansions of an accepted request together are within the limits, and when no tool holds a
   reference the limits ask for nothing more.
   */
  lemma LimitsHoldTogether(tools: seq<Tool>)
    requires forall i :: 0 <= i < |tools| ==> ExpandRoot(tools[i].parameters).Some?
    ensures var places := AllPlaces(tools);
            var within := |places| <= MAX_EXPANDED_NODES && C.TotalSize(places) <= MAX_EXPANDED_BYTES
                          && forall p :: p in places ==> p.level <= MAX_REF_DEPTH;
            && (Fits(0, 0, 0, TotalCost(tools)) ==> within)
            && (NoReferences(tools) ==> (Fits(0, 0, 0, TotalCost(tools)) <==> within))
  {
    hide C.Places, RefFree, Expand;
    ToolsAreCharged(tools);
    C.LevelsAreBounded(AllPlaces(tools), 0);
    if forall p :: p in AllPlaces(tools) ==> p.level <= MAX_REF_DEPTH {
      C.DeepestIsBounded(AllPlaces(tools), 0, MAX_REF_DEPTH);
    }
  }

  /** What the loop does with one tool. */
  method ValidateTool(heap: P.Heap, tool: Tool, repeated: bool, isSchema: Value -> bool, budget: ExpansionBudget)
    returns (r: Result<(), ToolSchemaError>)
    requires budget.WithinLimits()
    modifies budget
    ensures r.Ok? <==> !repeated && IsGood(heap, tool, isSchema)
                       && Fits(old(budget.nodes), old(budget.cumulativeBytes), 0, CostOf(tool))
    ensures r.Ok? ==> budget.nodes == old(budget.nodes) + CostOf(tool).nodes
                      && budget.cumulativeBytes == old(budget.cumulativeBytes) + CostOf(tool).bytes
    ensures r.Err? ==>
              IsTrueOf(heap, tool, repeated, isSchema, old(budget.nodes), old(budget.cumulativeBytes), r.error)
  {
    hide P.Acceptable, P.Unfolded, P.IsTree, ExpandRoot, D.Shows;
    if repeated { return Err(DuplicateFunction); }
    var walked := P.PreflightRawSchema(heap, tool.slot);
    if walked.Err? { return walked; }
    if !isSchema(tool.parameters) { return Err(InvalidSchema); }
    var expanded := InlineLocalRefs(tool.parameters, budget);
    if expanded.Err? { return Err(expanded.error); }
    if !isSchema(expanded.value) { return Err(InvalidSchema); }
    return Ok(());
  }
}
