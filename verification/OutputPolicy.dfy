/**
 The structured-output compiler: a tool policy becomes a Draft-07 schema that accepts
 exactly the envelopes the policy allows, so the adapter that checks the policy again
 behind the schema validator never finds anything.
 */
module OutputPolicy {
  import opened Outcomes
  import opened Json
  import opened JsonPointer
  import opened SchemaSemantics
  import opened SchemaMeaning

  // ---------------------------------------------------------------------
  // Assertions used by the generated schema
  // ---------------------------------------------------------------------

  predicate HasType(name: string, inst: Value) {
    if name == "object" then inst.Object?
    else if name == "array" then inst.List?
    else if name == "string" then inst.Text?
    else if name == "boolean" then inst.Bool?
    else if name == "null" then inst.Null?
    else inst.Number?
  }

  /** The bound written in a `minItems` or `maxItems` keyword. */
  function BoundOf(value: Value): Option<nat> {
    if value.Number? && IsDecimalDigits(value.lexeme) then Some(IntOf(value.lexeme)) else None
  }

  predicate Draft7Assertion(key: string, value: Value, inst: Value) {
    if key == "type" then value.Text? ==> HasType(value.chars, inst)
    else if key == "enum" then value.List? ==> inst in value.items
    else if key == "required" then
      value.List? && inst.Object? ==>
        forall i :: 0 <= i < |value.items| && value.items[i].Text? ==> Has(inst.members, value.items[i].chars)
    else if key == "minItems" then inst.List? && BoundOf(value).Some? ==> |inst.items| >= BoundOf(value).value
    else if key == "maxItems" then inst.List? && BoundOf(value).Some? ==> |inst.items| <= BoundOf(value).value
    else true
  }

  // ---------------------------------------------------------------------
  // The request and its tool policy
  // ---------------------------------------------------------------------

  datatype FunctionTool = FunctionTool(name: string, parameters: Value)

  datatype ToolChoice = Auto | NoTools | Required | Named(name: string)

  datatype Request = Request(tools: seq<FunctionTool>, toolChoice: Option<ToolChoice>, parallelToolCalls: Option<bool>)

  datatype InvalidRequest = RequiredWithoutTools | NamedWithoutTools | NamedNotDeclared

  datatype Selection = Selection(tools: seq<FunctionTool>, force: bool, forbid: bool)

  function WithName(tools: seq<FunctionTool>, name: string): (r: seq<FunctionTool>)
    ensures forall i :: 0 <= i < |r| ==> r[i].name == name && r[i] in tools
    ensures r == [] <==> forall i :: 0 <= i < |tools| ==> tools[i].name != name
  {
    if |tools| == 0 then []
    else
      var rest := WithName(tools[1..], name);
      assert forall i :: 1 <= i < |tools| ==> tools[i] == tools[1..][i - 1];
      if tools[0].name == name then [tools[0]] + rest else rest
  }

  function ChoiceOf(request: Request): ToolChoice {
    match request.toolChoice case Some(c) => c case None => Auto
  }

  function SelectedTools(request: Request): Result<Selection, InvalidRequest> {
    var choice := ChoiceOf(request);
    if choice == NoTools || request.tools == [] then
      if choice == Required then Err(RequiredWithoutTools)
      else if choice.Named? then Err(NamedWithoutTools)
      else Ok(Selection([], false, true))
    else if choice.Named? then
      var selected := WithName(request.tools, choice.name);
      if selected == [] then Err(NamedNotDeclared) else Ok(Selection(selected, true, false))
    else Ok(Selection(request.tools, choice == Required, false))
  }

  function Names(tools: seq<FunctionTool>): (r: seq<Value>)
    ensures |r| == |tools|
    ensures forall i :: 0 <= i < |tools| ==> r[i] == Text(tools[i].name)
  {
    if |tools| == 0 then [] else [Text(tools[0].name)] + Names(tools[1..])
  }

  /** `kept` stands at these places of `tools`, in that order. */
  ghost predicate StandsAt(tools: seq<FunctionTool>, kept: seq<FunctionTool>, places: seq<nat>) {
    && |places| == |kept|
    && (forall j :: 0 <= j < |places| ==> places[j] < |tools| && kept[j] == tools[places[j]])
    && (forall j, k :: 0 <= j < k < |places| ==> places[j] < places[k])
  }

  ghost predicate AreThePlacesOf(tools: seq<FunctionTool>, name: string, places: seq<nat>) {
    forall i :: 0 <= i < |tools| ==> (i in places <==> tools[i].name == name)
  }

  /** `kept` are the tools with this name, all of them, in the order of declaration. */
  ghost predicate KeepsNamed(tools: seq<FunctionTool>, name: string, kept: seq<FunctionTool>, places: seq<nat>) {
    StandsAt(tools, kept, places) && AreThePlacesOf(tools, name, places)
  }

  /** The places one further on. */
  function Shifted(places: seq<nat>): (r: seq<nat>)
    ensures |r| == |places| && forall j :: 0 <= j < |r| ==> r[j] == places[j] + 1
    ensures forall i: nat :: i in r <==> i > 0 && i - 1 in places
  {
    var r: seq<nat> := seq(|places|, j requires 0 <= j < |places| => places[j] + 1);
    assert forall i: nat :: i in r <==> i > 0 && i - 1 in places by {
      forall i: nat | i > 0 && i - 1 in places ensures i in r {
        var j :| 0 <= j < |places| && places[j] == i - 1;
        assert r[j] == i;
      }
    }
    r
  }

  lemma {:induction false} NamedPlaces(tools: seq<FunctionTool>, name: string) returns (places: seq<nat>)
    ensures KeepsNamed(tools, name, WithName(tools, name), places)
  {
    places := [];
    if |tools| > 0 {
      var rest := NamedPlaces(tools[1..], name);
      places := PlacesStep(tools, name, WithName(tools[1..], name), rest);
    }
  }

  lemma PlacesStep(tools: seq<FunctionTool>, name: string, kept: seq<FunctionTool>, rest: seq<nat>)
    returns (places: seq<nat>)
    requires |tools| > 0 && KeepsNamed(tools[1..], name, kept, rest)
    ensures KeepsNamed(tools, name, if tools[0].name == name then [tools[0]] + kept else kept, places)
  {
    hide StandsAt, AreThePlacesOf, Shifted;
    StandsLater(tools, kept, rest);
    NamedLater(tools, name, rest);
    places := if tools[0].name == name then [0] + Shifted(rest) else Shifted(rest);
  }

  lemma StandsLater(tools: seq<FunctionTool>, kept: seq<FunctionTool>, rest: seq<nat>)
    requires |tools| > 0 && StandsAt(tools[1..], kept, rest)
    ensures StandsAt(tools, kept, Shifted(rest)) && StandsAt(tools, [tools[0]] + kept, [0] + Shifted(rest))
  {
  }

  lemma NamedLater(tools: seq<FunctionTool>, name: string, rest: seq<nat>)
    requires |tools| > 0 && AreThePlacesOf(tools[1..], name, rest)
    ensures AreThePlacesOf(tools, name, if tools[0].name == name then [0] + Shifted(rest) else Shifted(rest))
  {
    forall i: nat | 0 < i < |tools| ensures i in Shifted(rest) <==> tools[i].name == name {
      assert tools[1..][i - 1] == tools[i];
    }
  }

  predicate Declares(tools: seq<FunctionTool>, name: string) {
    exists i :: 0 <= i < |tools| && tools[i].name == name
  }

  /** Each refusal comes out exactly for its cause, and a selection holds exactly the tools asked for, in order. */
  lemma SelectionMeaning(request: Request)
    ensures var choice, selected := ChoiceOf(request), SelectedTools(request);
            && (selected == Err(RequiredWithoutTools) <==> choice == Required && request.tools == [])
            && (selected == Err(NamedWithoutTools) <==> choice.Named? && request.tools == [])
            && (selected == Err(NamedNotDeclared) <==>
                  choice.Named? && request.tools != [] && !Declares(request.tools, choice.name))
            && (selected.Ok? ==>
                  var s := selected.value;
                  && (s.forbid <==> request.tools == [] || choice == NoTools)
                  && (s.force <==> choice == Required || choice.Named?)
                  && (s.forbid ==> s.tools == [])
                  && (!s.forbid && !choice.Named? ==> s.tools == request.tools)
                  && (choice.Named? ==> exists places :: KeepsNamed(request.tools, choice.name, s.tools, places)))
  {
    var choice := ChoiceOf(request);
    if choice.Named? {
      var places := NamedPlaces(request.tools, choice.name);
    }
  }

  /** The tools a response may call. */
  predicate IsCallable(request: Request, name: string) {
    Declares(request.tools, name) && (ChoiceOf(request).Named? ==> name == ChoiceOf(request).name)
  }

  /** A selection holds the callable names and no others, unless calls are forbidden. */
  lemma SelectedAreCallable(request: Request, name: string)
    requires SelectedTools(request).Ok? && !SelectedTools(request).value.forbid
    ensures Declares(SelectedTools(request).value.tools, name) <==> IsCallable(request, name)
  {
    SelectionMeaning(request);
    hide SelectedTools;
    var choice, s := ChoiceOf(request), SelectedTools(request).value;
    if choice.Named? {
      var places :| KeepsNamed(request.tools, choice.name, s.tools, places);
      if Declares(s.tools, name) {
        var j :| 0 <= j < |s.tools| && s.tools[j].name == name;
        assert places[j] in places && request.tools[places[j]].name == name;
      }
      if IsCallable(request, name) {
        var i :| 0 <= i < |request.tools| && request.tools[i].name == name;
        assert i in places;
        var j :| 0 <= j < |places| && places[j] == i;
        assert s.tools[j].name == name;
      }
    }
  }

  // ---------------------------------------------------------------------
  // The generated schema
  // ---------------------------------------------------------------------

  function Word(s: string): Value { Text(s) }

  function RequiredNames(props: seq<Member>): (r: seq<Value>)
    ensures |r| == |props|
    ensures forall i :: 0 <= i < |props| ==> r[i] == Text(props[i].key)
  {
    if |props| == 0 then [] else [Text(props[0].key)] + RequiredNames(props[1..])
  }

  /** An object with exactly these properties, all required. */
  function ClosedObject(props: seq<Member>): Value {
    Object([Member("type", Word("object")),
            Member("additionalProperties", Bool(false)),
            Member("required", List(RequiredNames(props))),
            Member("properties", Object(props))])
  }

  const ANY_TEXT := Object([Member("type", Text("string"))])

  function OneOfTexts(options: seq<Value>): Value {
    Object([Member("type", Word("string")), Member("enum", List(options))])
  }

  const ARGUMENTS_NOTE := "A JSON-encoded value matching the selected function's parameter schema"

  const ARGUMENTS_SCHEMA := Object([Member("type", Text("string")), Member("description", Text(ARGUMENTS_NOTE))])

  function ToolCallProperties(tools: seq<FunctionTool>): seq<Member> {
    [Member("name", OneOfTexts(Names(tools))), Member("arguments", ARGUMENTS_SCHEMA)]
  }

  function ToolCallSchema(tools: seq<FunctionTool>): Value {
    ClosedObject(ToolCallProperties(tools))
  }

  const NO_CALLS_SCHEMA :=
    Object([Member("type", Text("array")), Member("items", ANY_TEXT), Member("maxItems", Number("0"))])

  function CallsSchema(tools: seq<FunctionTool>, single: bool): Value {
    Object([Member("type", Word("array")), Member("items", ToolCallSchema(tools)), Member("minItems", Number("1"))]
           + if single then [Member("maxItems", Number("1"))] else [])
  }

  function ResultProperties(kind: string, calls: Value): seq<Member> {
    [Member("kind", OneOfTexts([Word(kind)])), Member("content", ANY_TEXT), Member("tool_calls", calls)]
  }

  function MessageResult(): Value {
    ClosedObject(ResultProperties("message", NO_CALLS_SCHEMA))
  }

  function ToolResult(tools: seq<FunctionTool>, single: bool): Value {
    ClosedObject(ResultProperties("tool_calls", CallsSchema(tools, single)))
  }

  function ResultSchema(s: Selection, single: bool): Value {
    if s.forbid then MessageResult()
    else if s.force then ToolResult(s.tools, single)
    else Object([Member("anyOf", List([MessageResult(), ToolResult(s.tools, single)]))])
  }

  function OutputSchema(s: Selection, parallelToolCalls: Option<bool>): Value {
    ClosedObject([Member("result", ResultSchema(s, parallelToolCalls == Some(false)))])
  }

  // ---------------------------------------------------------------------
  // The policy, said directly
  // ---------------------------------------------------------------------

  /** The object has exactly the given keys. */
  predicate HasKeys(members: seq<Member>, keys: seq<string>) {
    && (forall i :: 0 <= i < |members| ==> members[i].key in keys)
    && (forall i :: 0 <= i < |keys| ==> Has(members, keys[i]))
  }

  predicate IsCall(call: Value, tools: seq<FunctionTool>) {
    && call.Object? && HasKeys(call.members, ["name", "arguments"])
    && At(call.members, "arguments").Text?
    && exists i :: 0 <= i < |tools| && At(call.members, "name") == Text(tools[i].name)
  }

  predicate IsMessage(kind: Value, calls: seq<Value>) {
    kind == Text("message") && calls == []
  }

  predicate IsToolUse(kind: Value, calls: seq<Value>, tools: seq<FunctionTool>, single: bool) {
    && kind == Text("tool_calls")
    && |calls| >= 1
    && (single ==> |calls| == 1)
    && forall i :: 0 <= i < |calls| ==> IsCall(calls[i], tools)
  }

  /** A result object: its kind, a text content and a list of calls. */
  predicate IsResult(r: Value) {
    && r.Object? && HasKeys(r.members, ["kind", "content", "tool_calls"])
    && At(r.members, "content").Text?
    && At(r.members, "tool_calls").List?
  }

  /** The envelopes that the policy allows. */
  predicate Allowed(s: Selection, single: bool, envelope: Value) {
    && envelope.Object? && HasKeys(envelope.members, ["result"])
    && var r := At(envelope.members, "result");
       IsResult(r) &&
       var kind, calls := At(r.members, "kind"), At(r.members, "tool_calls").items;
       || (!(s.force && !s.forbid) && IsMessage(kind, calls))
       || (!s.forbid && IsToolUse(kind, calls, s.tools, single))
  }

  // ---------------------------------------------------------------------
  // Unfolding the schema
  // ---------------------------------------------------------------------

  lemma AssertionKeywords()
    ensures KeywordOf("type") == Other && KeywordOf("required") == Other && KeywordOf("enum") == Other
  {
  }

  lemma MoreAssertionKeywords()
    ensures KeywordOf("minItems") == Other && KeywordOf("maxItems") == Other && KeywordOf("description") == Other
  {
  }

  lemma ApplicatorKeywords()
    ensures KeywordOf("properties") == Properties && KeywordOf("items") == Items && KeywordOf("anyOf") == AnyOf
    ensures KeywordOf("additionalProperties") == AdditionalProperties
  {
  }

  lemma KeywordTable()
    ensures KeywordOf("type") == Other && KeywordOf("required") == Other && KeywordOf("enum") == Other
    ensures KeywordOf("minItems") == Other && KeywordOf("maxItems") == Other && KeywordOf("description") == Other
    ensures KeywordOf("properties") == Properties && KeywordOf("items") == Items && KeywordOf("anyOf") == AnyOf
    ensures KeywordOf("additionalProperties") == AdditionalProperties
  {
    hide KeywordOf;
    AssertionKeywords();
    MoreAssertionKeywords();
    ApplicatorKeywords();
  }

  lemma HoldsOther(d: Dialect, root: Value, members: seq<Member>, i: nat, x: Value, fuel: nat)
    requires i < |members| && KeywordOf(members[i].key) == Other
    ensures Holds(d, root, members, i, x, fuel) == d.assertion(members[i].key, members[i].value, x)
  {
    hide HoldsSingle, HoldsElements, HoldsMap, KeywordOf;
  }

  lemma HoldsItems(d: Dialect, root: Value, members: seq<Member>, i: nat, x: Value, fuel: nat)
    requires i < |members| && KeywordOf(members[i].key) == Items && members[i].value.Object?
    ensures Holds(d, root, members, i, x, fuel)
            == (x.List? ==> forall j :: 0 <= j < |x.items| ==> Accepts(d, root, members[i].value, x.items[j], fuel))
  {
    hide HoldsElements, HoldsMap, KeywordOf, Accepts;
  }

  lemma HoldsClosing(d: Dialect, root: Value, members: seq<Member>, i: nat, listed: seq<Member>, x: Value, fuel: nat)
    requires i < |members| && KeywordOf(members[i].key) == AdditionalProperties && members[i].value == Bool(false)
    requires Get(members, "properties") == Some(Object(listed)) && Get(members, "patternProperties").None?
    ensures Holds(d, root, members, i, x, fuel)
            == (x.Object? ==> forall k :: 0 <= k < |x.members| ==> Has(listed, x.members[k].key))
  {
    assert Holds(d, root, members, i, x, fuel) == HoldsSingle(d, root, members, i, x, fuel);
    forall y ensures !Accepts(d, root, members[i].value, y, fuel) {
      NoSchemaIsUndefined(d, root, members[i].value, y, fuel);
    }
    forall name ensures IsExtra(d, members, name) == !Has(listed, name) {}
    hide Holds, HoldsElements, HoldsMap, KeywordOf, Accepts, IsExtra, Get;
    if x.Object? {
      assert HoldsSingle(d, root, members, i, x, fuel) ==
        forall k :: 0 <= k < |x.members| && IsExtra(d, members, x.members[k].key) ==>
          Accepts(d, root, members[i].value, x.members[k].value, fuel);
    }
  }

  lemma HoldsProperties(d: Dialect, root: Value, members: seq<Member>, i: nat, listed: seq<Member>, x: Value, fuel: nat)
    requires i < |members| && KeywordOf(members[i].key) == Properties && members[i].value == Object(listed)
    ensures Holds(d, root, members, i, x, fuel)
            == (x.Object? ==> forall j :: 0 <= j < |listed| && Has(x.members, listed[j].key) ==>
                  Accepts(d, root, listed[j].value, At(x.members, listed[j].key), fuel))
  {
    hide HoldsElements, HoldsSingle, KeywordOf, Accepts;
  }

  lemma HoldsList(d: Dialect, root: Value, members: seq<Member>, i: nat, x: Value, fuel: nat)
    requires i < |members| && KeywordOf(members[i].key) == AnyOf && members[i].value.List?
    ensures Holds(d, root, members, i, x, fuel) == HoldsElements(d, root, members, i, x, fuel)
  {
    hide HoldsElements, HoldsMap, HoldsSingle, KeywordOf;
  }

  lemma ElementsAnyOf(d: Dialect, root: Value, members: seq<Member>, i: nat, x: Value, fuel: nat)
    requires i < |members| && KeywordOf(members[i].key) == AnyOf && members[i].value.List?
    ensures var schemas := members[i].value.items;
            HoldsElements(d, root, members, i, x, fuel)
            == exists j :: 0 <= j < |schemas| && Accepts(d, root, schemas[j], x, fuel)
  {
    hide KeywordOf, Accepts, AcceptsOnly;
  }

  lemma HoldsAnyOf(d: Dialect, root: Value, members: seq<Member>, i: nat, a: Value, b: Value, x: Value, fuel: nat)
    requires i < |members| && KeywordOf(members[i].key) == AnyOf && members[i].value == List([a, b])
    ensures Holds(d, root, members, i, x, fuel) == (Accepts(d, root, a, x, fuel) || Accepts(d, root, b, x, fuel))
  {
    hide Holds, HoldsElements, KeywordOf, Accepts;
    HoldsList(d, root, members, i, x, fuel);
    ElementsAnyOf(d, root, members, i, x, fuel);
    var schemas := members[i].value.items;
    assert schemas[0] == a && schemas[1] == b;
  }

  ghost predicate MeetsAll(d: Dialect, root: Value, props: seq<Member>, x: seq<Member>, fuel: nat) {
    && (forall k :: 0 <= k < |x| ==> Has(props, x[k].key))
    && (forall j :: 0 <= j < |props| ==> Has(x, props[j].key))
    && (forall j :: 0 <= j < |props| && Has(x, props[j].key) ==>
          Accepts(d, root, props[j].value, At(x, props[j].key), fuel))
  }

  lemma ClosedObjectMembers(props: seq<Member>)
    ensures var ms := ClosedObject(props).members;
            && Get(ms, "$ref").None? && Get(ms, "patternProperties").None?
            && Get(ms, "properties") == Some(Object(props))
  {
    var a, b := Member("type", Text("object")), Member("additionalProperties", Bool(false));
    var c, e := Member("required", List(RequiredNames(props))), Member("properties", Object(props));
    assert ClosedObject(props).members == [a] + ([b] + ([c] + ([e] + [])));
    forall key ensures Get([a] + ([b] + ([c] + ([e] + []))), key) ==
      if key == "type" then Some(a.value) else if key == "additionalProperties" then Some(b.value)
      else if key == "required" then Some(c.value) else if key == "properties" then Some(e.value) else None
    {
      GetCons(a, [b] + ([c] + ([e] + [])), key);
      GetCons(b, [c] + ([e] + []), key);
      GetCons(c, [e] + [], key);
      GetCons(e, [], key);
      assert Get([], key).None?;
      hide Get, RequiredNames;
    }
    hide Get, RequiredNames;
  }

  lemma GetCons(m: Member, rest: seq<Member>, key: string)
    ensures Get([m] + rest, key) == if m.key == key then Some(m.value) else Get(rest, key)
  {
    assert ([m] + rest)[1..] == rest;
  }

  lemma ClosedObjectAccepts(d: Dialect, root: Value, props: seq<Member>, x: Value, fuel: nat)
    requires d.assertion == Draft7Assertion
    ensures Accepts(d, root, ClosedObject(props), x, fuel)
            <==> x.Object? && MeetsAll(d, root, props, x.members, fuel)
  {
    KeywordTable();
    ClosedObjectMembers(props);
    hide KeywordOf, Accepts, Holds, Get, Draft7Assertion;
    var ms := ClosedObject(props).members;
    AcceptsObject(d, root, ms, x, fuel);
    HoldsOther(d, root, ms, 0, x, fuel);
    HoldsClosing(d, root, ms, 1, props, x, fuel);
    HoldsOther(d, root, ms, 2, x, fuel);
    HoldsProperties(d, root, ms, 3, props, x, fuel);
    assert AllHold(d, root, ms, x, fuel) ==
           (Holds(d, root, ms, 0, x, fuel) && Holds(d, root, ms, 1, x, fuel)
            && Holds(d, root, ms, 2, x, fuel) && Holds(d, root, ms, 3, x, fuel));
    RequiredAssertion(props, x);
    ObjectAssertion(x);
  }

  lemma RequiredMeaning(names: seq<Value>, x: Value)
    ensures Draft7Assertion("required", List(names), x) ==
            (x.Object? ==> forall i :: 0 <= i < |names| && names[i].Text? ==> Has(x.members, names[i].chars))
  {
    hide Has;
  }

  lemma RequiredAssertion(props: seq<Member>, x: Value)
    ensures Draft7Assertion("required", List(RequiredNames(props)), x)
            == (x.Object? ==> forall j :: 0 <= j < |props| ==> Has(x.members, props[j].key))
  {
    var names := RequiredNames(props);
    hide Draft7Assertion, RequiredNames, Has;
    RequiredMeaning(names, x);
    assert forall j :: 0 <= j < |props| ==> names[j] == Text(props[j].key);
  }

  lemma ObjectAssertion(x: Value)
    ensures Draft7Assertion("type", Text("object"), x) == x.Object?
  {
  }

  lemma TypeAssertions(x: Value)
    ensures Draft7Assertion("type", Text("string"), x) == x.Text?
            && Draft7Assertion("type", Text("array"), x) == x.List?
  {
  }

  lemma EnumAssertion(options: seq<Value>, x: Value)
    ensures Draft7Assertion("enum", List(options), x) == (x in options)
  {
  }

  lemma BoundAssertions(x: Value)
    ensures Draft7Assertion("minItems", Number("1"), x) == (x.List? ==> |x.items| >= 1)
    ensures Draft7Assertion("maxItems", Number("1"), x) == (x.List? ==> |x.items| <= 1)
    ensures Draft7Assertion("maxItems", Number("0"), x) == (x.List? ==> |x.items| <= 0)
  {
    ZeroAndOne();
    hide BoundOf;
  }

  lemma NoteAssertion(note: Value, x: Value)
    ensures Draft7Assertion("description", note, x)
  {
  }

  lemma ZeroAndOne()
    ensures BoundOf(Number("0")) == Some(0) && BoundOf(Number("1")) == Some(1)
  {
    assert "0"[..0] == "" && "1"[..0] == "";
    assert IntOf("0") == 0 && IntOf("1") == 1;
  }

  /** A schema of two assertions means both. */
  lemma TwoAssertions(d: Dialect, root: Value, a: Member, b: Member, x: Value, fuel: nat)
    requires KeywordOf(a.key) == Other && KeywordOf(b.key) == Other && Get([a, b], "$ref").None?
    ensures Accepts(d, root, Object([a, b]), x, fuel) ==
            (d.assertion(a.key, a.value, x) && d.assertion(b.key, b.value, x))
  {
    hide KeywordOf, Accepts, Holds, Get;
    var ms := [a, b];
    AcceptsObject(d, root, ms, x, fuel);
    HoldsOther(d, root, ms, 0, x, fuel);
    HoldsOther(d, root, ms, 1, x, fuel);
    assert AllHold(d, root, ms, x, fuel) == (Holds(d, root, ms, 0, x, fuel) && Holds(d, root, ms, 1, x, fuel));
  }

  lemma AnyTextAccepts(d: Dialect, root: Value, x: Value, fuel: nat)
    requires d.assertion == Draft7Assertion
    ensures Accepts(d, root, ANY_TEXT, x, fuel) <==> x.Text?
  {
    KeywordTable();
    TypeAssertions(x);
    var ms := ANY_TEXT.members;
    assert Get(ms, "$ref").None?;
    hide KeywordOf, Accepts, Holds, Draft7Assertion;
    AcceptsObject(d, root, ms, x, fuel);
    HoldsOther(d, root, ms, 0, x, fuel);
  }

  lemma ArgumentsAccepts(d: Dialect, root: Value, x: Value, fuel: nat)
    requires d.assertion == Draft7Assertion
    ensures Accepts(d, root, ARGUMENTS_SCHEMA, x, fuel) <==> x.Text?
  {
    KeywordTable();
    TypeAssertions(x);
    NoteAssertion(Text(ARGUMENTS_NOTE), x);
    assert Get(ARGUMENTS_SCHEMA.members, "$ref").None?;
    hide KeywordOf, Accepts, Draft7Assertion, Get;
    TwoAssertions(d, root, ARGUMENTS_SCHEMA.members[0], ARGUMENTS_SCHEMA.members[1], x, fuel);
  }

  lemma OneOfTextsAccepts(d: Dialect, root: Value, options: seq<Value>, x: Value, fuel: nat)
    requires d.assertion == Draft7Assertion
    ensures Accepts(d, root, OneOfTexts(options), x, fuel) <==> x.Text? && x in options
  {
    KeywordTable();
    TypeAssertions(x);
    EnumAssertion(options, x);
    var a, b := Member("type", Word("string")), Member("enum", List(options));
    assert Get([a, b], "$ref").None?;
    hide KeywordOf, Accepts, Draft7Assertion, Get;
    TwoAssertions(d, root, a, b, x, fuel);
  }

  lemma NoCallsMembers()
    ensures Get(NO_CALLS_SCHEMA.members, "$ref").None?
  {
  }

  lemma ThreeHold(d: Dialect, root: Value, members: seq<Member>, x: Value, fuel: nat)
    requires |members| == 3
    ensures AllHold(d, root, members, x, fuel) ==
            (Holds(d, root, members, 0, x, fuel) && Holds(d, root, members, 1, x, fuel)
             && Holds(d, root, members, 2, x, fuel))
  {
    hide Holds;
  }

  lemma NoCallsAccepts(d: Dialect, root: Value, x: Value, fuel: nat)
    requires d.assertion == Draft7Assertion
    ensures Accepts(d, root, NO_CALLS_SCHEMA, x, fuel) <==> x == List([])
  {
    var ms := NO_CALLS_SCHEMA.members;
    assert ms == [Member("type", Text("array")), Member("items", ANY_TEXT), Member("maxItems", Number("0"))];
    assert ANY_TEXT.Object? && NO_CALLS_SCHEMA == Object(ms);
    hide *;
    KeywordTable();
    TypeAssertions(x);
    BoundAssertions(x);
    NoCallsMembers();
    AcceptsObject(d, root, ms, x, fuel);
    HoldsOther(d, root, ms, 0, x, fuel);
    HoldsItems(d, root, ms, 1, x, fuel);
    HoldsOther(d, root, ms, 2, x, fuel);
    ThreeHold(d, root, ms, x, fuel);
  }

  lemma CallsAccepts(d: Dialect, root: Value, tools: seq<FunctionTool>, single: bool, x: Value, fuel: nat)
    requires d.assertion == Draft7Assertion
    ensures Accepts(d, root, CallsSchema(tools, single), x, fuel)
            <==> x.List? && |x.items| >= 1 && (single ==> |x.items| <= 1)
                 && forall j :: 0 <= j < |x.items| ==> Accepts(d, root, ToolCallSchema(tools), x.items[j], fuel)
  {
    KeywordTable();
    TypeAssertions(x);
    BoundAssertions(x);
    CallsMembers(tools, single);
    ClosedIsObject(tools);
    hide KeywordOf, Accepts, Holds, Get, ToolCallSchema, Draft7Assertion;
    var ms := CallsSchema(tools, single).members;
    AcceptsObject(d, root, ms, x, fuel);
    hide CallsSchema;
    HoldsOther(d, root, ms, 0, x, fuel);
    HoldsItems(d, root, ms, 1, x, fuel);
    HoldsOther(d, root, ms, 2, x, fuel);
    if single { HoldsOther(d, root, ms, 3, x, fuel); }
    assert AllHold(d, root, ms, x, fuel) ==
           (Holds(d, root, ms, 0, x, fuel) && Holds(d, root, ms, 1, x, fuel)
            && Holds(d, root, ms, 2, x, fuel) && (single ==> Holds(d, root, ms, 3, x, fuel)));
  }

  lemma ClosedIsObject(tools: seq<FunctionTool>)
    ensures ToolCallSchema(tools).Object?
  {
  }

  lemma CallsMembers(tools: seq<FunctionTool>, single: bool)
    ensures var ms := CallsSchema(tools, single).members;
            && |ms| == (if single then 4 else 3)
            && ms[0] == Member("type", Text("array")) && ms[1] == Member("items", ToolCallSchema(tools))
            && ms[2] == Member("minItems", Number("1")) && (single ==> ms[3] == Member("maxItems", Number("1")))
            && Get(ms, "$ref").None?
  {
    hide ToolCallSchema;
  }

  // ---------------------------------------------------------------------
  // The language of the schema is the policy
  // ---------------------------------------------------------------------

  /** Meeting a list of named properties, with the names pulled out. */
  lemma HasByName(props: seq<Member>, keys: seq<string>, name: string)
    requires |keys| == |props| && forall j :: 0 <= j < |props| ==> props[j].key == keys[j]
    ensures Has(props, name) <==> name in keys
  {
    hide Get;
    if Has(props, name) {
      var i :| 0 <= i < |props| && props[i].key == name;
      assert keys[i] == name;
    }
    if name in keys {
      var i :| 0 <= i < |keys| && keys[i] == name;
      assert props[i].key == name;
    }
  }

  lemma MeetsAllByName(d: Dialect, root: Value, props: seq<Member>, keys: seq<string>, x: seq<Member>, fuel: nat)
    requires |keys| == |props| && forall j :: 0 <= j < |props| ==> props[j].key == keys[j]
    ensures MeetsAll(d, root, props, x, fuel)
            <==> HasKeys(x, keys) && forall j :: 0 <= j < |props| && Has(x, keys[j]) ==>
                   Accepts(d, root, props[j].value, At(x, keys[j]), fuel)
  {
    hide Get, Accepts;
    forall name ensures Has(props, name) <==> name in keys { HasByName(props, keys, name); }
    hide Has;
  }

  lemma CallSchemaIsPolicy(d: Dialect, root: Value, tools: seq<FunctionTool>, x: Value, fuel: nat)
    requires d.assertion == Draft7Assertion
    ensures Accepts(d, root, ToolCallSchema(tools), x, fuel) <==> IsCall(x, tools)
  {
    hide Accepts, Get, HasKeys, MeetsAll;
    var props := ToolCallProperties(tools);
    ClosedObjectAccepts(d, root, props, x, fuel);
    if x.Object? {
      MeetsAllByName(d, root, props, ["name", "arguments"], x.members, fuel);
      assert HasKeys(x.members, ["name", "arguments"]) ==> Has(x.members, "name") && Has(x.members, "arguments") by {
        TwoKeys(x.members, "name", "arguments");
      }
      if Has(x.members, "name") && Has(x.members, "arguments") {
        var name := At(x.members, "name");
        OneOfTextsAccepts(d, root, Names(tools), name, fuel);
        ArgumentsAccepts(d, root, At(x.members, "arguments"), fuel);
        NameListed(tools, name);
        hide Names, OneOfTexts;
        assert props[0].value == OneOfTexts(Names(tools)) && props[1].value == ARGUMENTS_SCHEMA;
      }
    }
  }

  lemma TwoKeys(x: seq<Member>, a: string, b: string)
    ensures HasKeys(x, [a, b]) ==> Has(x, a) && Has(x, b)
  {
    hide Has;
    assert [a, b][0] == a && [a, b][1] == b;
  }

  lemma ThreeKeys(x: seq<Member>, a: string, b: string, c: string)
    ensures HasKeys(x, [a, b, c]) ==> Has(x, a) && Has(x, b) && Has(x, c)
  {
    hide Has;
    assert [a, b, c][0] == a && [a, b, c][1] == b && [a, b, c][2] == c;
  }

  lemma NameListed(tools: seq<FunctionTool>, name: Value)
    ensures (name.Text? && name in Names(tools)) <==> exists i :: 0 <= i < |tools| && name == Text(tools[i].name)
  {
    var names := Names(tools);
    hide Names;
    if name in names {
      var i :| 0 <= i < |names| && names[i] == name;
    }
    if i :| 0 <= i < |tools| && name == Text(tools[i].name) {
      assert names[i] == name;
    }
  }

  /** A result schema accepts the results of its kind whose calls its call schema accepts. */
  lemma ResultAccepts(d: Dialect, root: Value, kind: string, calls: Value, x: Value, fuel: nat)
    requires d.assertion == Draft7Assertion
    ensures Accepts(d, root, ClosedObject(ResultProperties(kind, calls)), x, fuel)
            <==> x.Object? && HasKeys(x.members, ["kind", "content", "tool_calls"])
                 && Has(x.members, "kind") && Has(x.members, "content") && Has(x.members, "tool_calls")
                 && At(x.members, "kind") == Text(kind) && At(x.members, "content").Text?
                 && Accepts(d, root, calls, At(x.members, "tool_calls"), fuel)
  {
    hide Accepts, Get, HasKeys, MeetsAll;
    var props := ResultProperties(kind, calls);
    ClosedObjectAccepts(d, root, props, x, fuel);
    if x.Object? {
      MeetsAllByName(d, root, props, ["kind", "content", "tool_calls"], x.members, fuel);
      ThreeKeys(x.members, "kind", "content", "tool_calls");
      if Has(x.members, "kind") && Has(x.members, "content") && Has(x.members, "tool_calls") {
        OneOfTextsAccepts(d, root, [Text(kind)], At(x.members, "kind"), fuel);
        AnyTextAccepts(d, root, At(x.members, "content"), fuel);
        hide OneOfTexts;
        assert props[0].value == OneOfTexts([Text(kind)]) && props[1].value == ANY_TEXT && props[2].value == calls;
      }
    }
  }

  lemma MessageSchemaIsPolicy(d: Dialect, root: Value, x: Value, fuel: nat)
    requires d.assertion == Draft7Assertion
    ensures Accepts(d, root, MessageResult(), x, fuel)
            <==> IsResult(x) && IsMessage(At(x.members, "kind"), At(x.members, "tool_calls").items)
  {
    hide Accepts, Get, HasKeys, ClosedObject, ResultProperties;
    ResultAccepts(d, root, "message", NO_CALLS_SCHEMA, x, fuel);
    if x.Object? {
      ThreeKeys(x.members, "kind", "content", "tool_calls");
      if Has(x.members, "tool_calls") { NoCallsAccepts(d, root, At(x.members, "tool_calls"), fuel); }
    }
  }

  lemma ToolSchemaIsPolicy(d: Dialect, root: Value, tools: seq<FunctionTool>, single: bool, x: Value, fuel: nat)
    requires d.assertion == Draft7Assertion
    ensures Accepts(d, root, ToolResult(tools, single), x, fuel)
            <==> IsResult(x)
                 && IsToolUse(At(x.members, "kind"), At(x.members, "tool_calls").items, tools, single)
  {
    hide Accepts, Get, HasKeys, ClosedObject, ResultProperties, CallsSchema, ToolCallSchema, IsCall;
    ResultAccepts(d, root, "tool_calls", CallsSchema(tools, single), x, fuel);
    if x.Object? {
      ThreeKeys(x.members, "kind", "content", "tool_calls");
      if Has(x.members, "tool_calls") {
        var calls := At(x.members, "tool_calls");
        CallsAccepts(d, root, tools, single, calls, fuel);
        if calls.List? {
          forall j | 0 <= j < |calls.items|
            ensures Accepts(d, root, ToolCallSchema(tools), calls.items[j], fuel) <==> IsCall(calls.items[j], tools)
          {
            CallSchemaIsPolicy(d, root, tools, calls.items[j], fuel);
          }
        }
      }
    }
  }

  lemma EitherAccepts(d: Dialect, root: Value, a: Value, b: Value, x: Value, fuel: nat)
    ensures Accepts(d, root, Object([Member("anyOf", List([a, b]))]), x, fuel)
            <==> Accepts(d, root, a, x, fuel) || Accepts(d, root, b, x, fuel)
  {
    KeywordTable();
    var ms := [Member("anyOf", List([a, b]))];
    assert Get(ms, "$ref").None?;
    hide KeywordOf, Accepts, Holds;
    AcceptsObject(d, root, ms, x, fuel);
    HoldsAnyOf(d, root, ms, 0, a, b, x, fuel);
  }

  /** The generated schema accepts exactly the envelopes that the tool policy allows. */
  lemma OutputSchemaIsPolicy(d: Dialect, root: Value, s: Selection, parallel: Option<bool>, envelope: Value, fuel: nat)
    requires d.assertion == Draft7Assertion
    ensures Accepts(d, root, OutputSchema(s, parallel), envelope, fuel)
            <==> Allowed(s, parallel == Some(false), envelope)
  {
    hide Accepts, Get, HasKeys, ClosedObject, MessageResult, ToolResult, MeetsAll, IsMessage, IsToolUse, IsResult;
    var single := parallel == Some(false);
    var schema := ResultSchema(s, single);
    var props := [Member("result", schema)];
    ClosedObjectAccepts(d, root, props, envelope, fuel);
    if envelope.Object? {
      MeetsAllByName(d, root, props, ["result"], envelope.members, fuel);
      TwoKeys(envelope.members, "result", "result");
      OneKey(envelope.members, "result");
      if Has(envelope.members, "result") {
        var r := At(envelope.members, "result");
        MessageSchemaIsPolicy(d, root, r, fuel);
        ToolSchemaIsPolicy(d, root, s.tools, single, r, fuel);
        EitherAccepts(d, root, MessageResult(), ToolResult(s.tools, single), r, fuel);
        assert props[0].value == schema;
      }
    }
  }

  lemma OneKey(x: seq<Member>, a: string)
    ensures HasKeys(x, [a]) ==> Has(x, a)
  {
    hide Has;
    assert [a][0] == a;
  }

  // ---------------------------------------------------------------------
  // From the request to the policy
  // ---------------------------------------------------------------------

  /** A call of a tool that the request lets the model call. */
  predicate IsCallFor(request: Request, call: Value) {
    && call.Object? && HasKeys(call.members, ["name", "arguments"])
    && At(call.members, "arguments").Text?
    && At(call.members, "name").Text? && IsCallable(request, At(call.members, "name").chars)
  }

  /**
   What a response may be, read off the request: a message unless calls are demanded, calls unless they are
   ruled out.
   */
  predicate RequestAllows(request: Request, envelope: Value) {
    && envelope.Object? && HasKeys(envelope.members, ["result"])
    && var r := At(envelope.members, "result");
       IsResult(r) &&
       var kind, calls, choice := At(r.members, "kind"), At(r.members, "tool_calls").items, ChoiceOf(request);
       || (choice != Required && !choice.Named? && kind == Text("message") && calls == [])
       || (request.tools != [] && choice != NoTools && kind == Text("tool_calls")
           && 1 <= |calls| && (request.parallelToolCalls == Some(false) ==> |calls| == 1)
           && forall i :: 0 <= i < |calls| ==> IsCallFor(request, calls[i]))
  }

  lemma CallIsCallFor(request: Request, call: Value)
    requires SelectedTools(request).Ok? && !SelectedTools(request).value.forbid
    ensures IsCall(call, SelectedTools(request).value.tools) <==> IsCallFor(request, call)
  {
    hide SelectedTools, HasKeys, IsCallable, At;
    if call.Object? && At(call.members, "name").Text? {
      SelectedAreCallable(request, At(call.members, "name").chars);
    }
  }

  lemma AllowedIsRequestAllows(request: Request, envelope: Value)
    requires SelectedTools(request).Ok?
    ensures Allowed(SelectedTools(request).value, request.parallelToolCalls == Some(false), envelope)
            <==> RequestAllows(request, envelope)
  {
    SelectionMeaning(request);
    var s := SelectedTools(request).value;
    hide SelectedTools, IsCall, IsCallFor, HasKeys, At, IsResult, KeepsNamed, Declares;
    if !s.forbid {
      forall call ensures IsCall(call, s.tools) <==> IsCallFor(request, call) { CallIsCallFor(request, call); }
    }
  }

  /**
   The whole way from the request: when the tool choice is not refused, the generated schema
   accepts exactly the envelopes that the request allows.
   */
  lemma SchemaAcceptsWhatRequestAllows(d: Dialect, root: Value, request: Request, envelope: Value, fuel: nat)
    requires d.assertion == Draft7Assertion && SelectedTools(request).Ok?
    ensures Accepts(d, root, OutputSchema(SelectedTools(request).value, request.parallelToolCalls), envelope, fuel)
            <==> RequestAllows(request, envelope)
  {
    var s := SelectedTools(request).value;
    OutputSchemaIsPolicy(d, root, s, request.parallelToolCalls, envelope, fuel);
    AllowedIsRequestAllows(request, envelope);
    hide Accepts, OutputSchema, SelectedTools, Allowed, RequestAllows;
  }
}
