/**
 The consumer of a structured response: it validates the envelope against the
 generated schema, checks the tool policy again and decodes the call arguments.
 */
module ResponseAdapter {
  import opened Outcomes
  import opened Json
  import opened SchemaSemantics
  import opened OutputPolicy

  datatype AdapterError =
    | InvalidStructuredResponse
    | CallsInMessage
    | NoCalls
    | ParallelCalls
    | UndeclaredTool
    | InvalidArguments
    | UnserializableArguments

  datatype Call = Call(name: string, arguments: Value)

  /** A call in the response; its arguments are printed again. */
  datatype ToolCall = ToolCall(name: string, arguments: string)

  /** The message and the finish reason of the response record. */
  datatype Completion = Completion(content: Option<string>, calls: seq<ToolCall>, finishReason: string)

  /** The tool at `i` has the name, and no later tool has it. */
  ghost predicate IsLastNamed(tools: seq<FunctionTool>, name: string, i: int) {
    0 <= i < |tools| && tools[i].name == name && forall j :: i < j < |tools| ==> tools[j].name != name
  }

  /** The parameter schema of a tool by name; a later tool replaces an earlier one. */
  function Parameters(tools: seq<FunctionTool>, name: string): (r: Option<Value>)
    ensures r.None? <==> forall i :: 0 <= i < |tools| ==> tools[i].name != name
    ensures r.Some? <==> exists i :: IsLastNamed(tools, name, i)
    ensures forall i :: IsLastNamed(tools, name, i) ==> r == Some(tools[i].parameters)
  {
    if |tools| == 0 then None
    else if tools[|tools| - 1].name == name then
      assert IsLastNamed(tools, name, |tools| - 1);
      Some(tools[|tools| - 1].parameters)
    else
      var before := tools[..|tools| - 1];
      assert forall i :: 0 <= i < |before| ==> before[i] == tools[i];
      assert forall i :: IsLastNamed(tools, name, i) <==> IsLastNamed(before, name, i);
      assert forall i :: IsLastNamed(before, name, i) ==> before[i] == tools[i];
      Parameters(before, name)
  }

  function TextOf(v: Value): string {
    if v.Text? then v.chars else ""
  }

  function CallName(call: Value): string {
    if call.Object? then TextOf(At(call.members, "name")) else ""
  }

  function CallArguments(call: Value): string {
    if call.Object? then TextOf(At(call.members, "arguments")) else ""
  }

  /**
   What Python adds to JSON: the texts that the interpreter reads within its limits on digits and
   nesting, the numerals that become an infinite float, and the verdict of the schema validator.
   */
  datatype Python = Python(readable: string -> bool, overflows: string -> bool, meets: (Value, Value) -> bool)

  /** `json.loads`. */
  function Loads(py: Python, text: string): Option<Value> {
    if py.readable(text) then Parse(text) else None
  }

  /** A number below `v` is infinite in Python; `json.loads` makes it, and `json.dumps` refuses it. */
  predicate HoldsOverflow(py: Python, v: Value)
    decreases v
  {
    match v
    case Number(lexeme) => py.overflows(lexeme)
    case List(items) => exists i :: 0 <= i < |items| && HoldsOverflow(py, items[i])
    case Object(members) => exists i :: 0 <= i < |members| && HoldsOverflow(py, members[i].value)
    case _ => false
  }

  /** The arguments meet the parameters of the tool with that name, the last one if there are more. */
  ghost predicate MeetsTool(tools: seq<FunctionTool>, py: Python, name: string, arguments: Value) {
    exists i :: IsLastNamed(tools, name, i) && py.meets(tools[i].parameters, arguments)
  }

  /** A call whose argument text decodes and meets the schema of its tool. */
  ghost predicate GoodCall(tools: seq<FunctionTool>, py: Python, call: Value) {
    var arguments := Loads(py, CallArguments(call));
    arguments.Some? && MeetsTool(tools, py, CallName(call), arguments.value)
  }

  lemma MeetsByLookup(tools: seq<FunctionTool>, py: Python, name: string, arguments: Value)
    ensures var schema := Parameters(tools, name);
            MeetsTool(tools, py, name, arguments) <==> schema.Some? && py.meets(schema.value, arguments)
  {
    hide IsLastNamed;
  }

  /** Where tool names differ, a call is good exactly when some tool with its name takes its arguments. */
  lemma GoodCallsByTools(tools: seq<FunctionTool>, py: Python, call: Value)
    requires forall i, j :: 0 <= i < j < |tools| ==> tools[i].name != tools[j].name
    ensures var arguments := Loads(py, CallArguments(call));
            GoodCall(tools, py, call) <==>
            arguments.Some? && exists i :: 0 <= i < |tools| && tools[i].name == CallName(call)
                                           && py.meets(tools[i].parameters, arguments.value)
  {
    hide Loads, CallArguments, CallName;
    forall i | 0 <= i < |tools| && tools[i].name == CallName(call) ensures IsLastNamed(tools, CallName(call), i) {
    }
  }

  /** A call whose arguments decode but cannot be printed again. */
  predicate IsUnprintable(py: Python, call: Value) {
    var arguments := Loads(py, CallArguments(call));
    arguments.Some? && HoldsOverflow(py, arguments.value)
  }

  function ResultOf(envelope: Value): seq<Member> {
    if envelope.Object? then
      var r := At(envelope.members, "result");
      if r.Object? then r.members else []
    else []
  }

  function CallsOf(envelope: Value): seq<Value> {
    var calls := At(ResultOf(envelope), "tool_calls");
    if calls.List? then calls.items else []
  }

  /** No element of an allowed envelope trips one of the four policy checks. */
  lemma AllowedPassesChecks(s: Selection, single: bool, envelope: Value)
    requires Allowed(s, single, envelope)
    ensures var kind, calls := At(ResultOf(envelope), "kind"), CallsOf(envelope);
            && !(kind == Text("message") && calls != [])
            && !(kind == Text("tool_calls") && calls == [])
            && !(single && |calls| > 1)
            && (forall i :: 0 <= i < |calls| ==> Declares(s.tools, CallName(calls[i])))
            && (kind == Text("message") || kind == Text("tool_calls"))
            && At(ResultOf(envelope), "content").Text?
  {
    hide HasKeys, At;
    var calls := CallsOf(envelope);
    forall i | 0 <= i < |calls| && IsCall(calls[i], s.tools) ensures Declares(s.tools, CallName(calls[i])) {
      var j :| 0 <= j < |s.tools| && At(calls[i].members, "name") == Text(s.tools[j].name);
      assert s.tools[j].name == CallName(calls[i]);
    }
  }

  /** The parts of an allowed envelope, as the keys name them. */
  lemma EnvelopeParts(s: Selection, single: bool, envelope: Value)
    requires Allowed(s, single, envelope)
    ensures envelope.Object? && At(envelope.members, "result") == Object(ResultOf(envelope))
    ensures At(ResultOf(envelope), "tool_calls") == List(CallsOf(envelope))
    ensures forall i :: 0 <= i < |CallsOf(envelope)| ==>
              var call := CallsOf(envelope)[i];
              && call.Object? && At(call.members, "name") == Text(CallName(call))
              && At(call.members, "arguments") == Text(CallArguments(call))
  {
    hide HasKeys, At, Declares;
    var calls := CallsOf(envelope);
    assert forall i :: 0 <= i < |calls| ==> IsCall(calls[i], s.tools);
  }

  method NamesAllowed(calls: seq<Value>, tools: seq<FunctionTool>) returns (ok: bool)
    ensures ok <==> forall i :: 0 <= i < |calls| ==> Declares(tools, CallName(calls[i]))
  {
    hide CallName;
    for i := 0 to |calls|
      invariant forall k :: 0 <= k < i ==> Declares(tools, CallName(calls[k]))
    {
      if !Declares(tools, CallName(calls[i])) { return false; }
    }
    return true;
  }

  method DecodeCalls(calls: seq<Value>, tools: seq<FunctionTool>, py: Python)
    returns (r: Result<seq<Call>, AdapterError>)
    ensures r.Ok? <==> forall i :: 0 <= i < |calls| ==> GoodCall(tools, py, calls[i])
    ensures r.Ok? ==> |r.value| == |calls| && forall i :: 0 <= i < |calls| ==>
              r.value[i].name == CallName(calls[i]) && Loads(py, CallArguments(calls[i])) == Some(r.value[i].arguments)
    ensures r.Err? ==> r.error == InvalidArguments
  {
    hide CallName, CallArguments, Parameters, Loads, MeetsTool;
    var decoded: seq<Call> := [];
    for i := 0 to |calls|
      invariant |decoded| == i
      invariant forall k :: 0 <= k < i ==> GoodCall(tools, py, calls[k])
      invariant forall k :: 0 <= k < i ==>
        decoded[k].name == CallName(calls[k]) && Loads(py, CallArguments(calls[k])) == Some(decoded[k].arguments)
    {
      var arguments := Loads(py, CallArguments(calls[i]));
      if arguments.None? { return Err(InvalidArguments); }
      var schema := Parameters(tools, CallName(calls[i]));
      MeetsByLookup(tools, py, CallName(calls[i]), arguments.value);
      if schema.None? || !py.meets(schema.value, arguments.value) { return Err(InvalidArguments); }
      decoded := decoded + [Call(CallName(calls[i]), arguments.value)];
    }
    return Ok(decoded);
  }

  /** The comprehension over the decoded calls: the first call that `json.dumps` refuses ends it. */
  method PrintCalls(decoded: seq<Call>, py: Python) returns (r: Result<seq<ToolCall>, AdapterError>)
    ensures r.Err? <==> exists i :: 0 <= i < |decoded| && HoldsOverflow(py, decoded[i].arguments)
    ensures r.Err? ==> r.error == UnserializableArguments
    ensures r.Ok? ==> |r.value| == |decoded| && forall i :: 0 <= i < |decoded| ==> r.value[i] == Printed(decoded[i])
  {
    hide HoldsOverflow, Printed;
    var printed: seq<ToolCall> := [];
    for i := 0 to |decoded|
      invariant |printed| == i
      invariant forall k :: 0 <= k < i ==> printed[k] == Printed(decoded[k]) && !HoldsOverflow(py, decoded[k].arguments)
    {
      if HoldsOverflow(py, decoded[i].arguments) { return Err(UnserializableArguments); }
      printed := printed + [Printed(decoded[i])];
    }
    return Ok(printed);
  }

  function Printed(call: Call): ToolCall {
    ToolCall(call.name, Print(call.arguments))
  }

  /** A callable tool, and arguments that it takes and that decode to what the model wrote. */
  ghost predicate AnswersCall(request: Request, py: Python, call: Value, made: ToolCall) {
    && made.name == CallName(call) && IsCallable(request, made.name)
    && Parse(made.arguments).Some? && Parse(made.arguments) == Parse(CallArguments(call))
    && MeetsTool(request.tools, py, made.name, Parse(made.arguments).value)
  }

  /** What the message of a response says about the envelope it was made of. */
  ghost predicate Answers(request: Request, py: Python, envelope: Value, c: Completion) {
    var calls := CallsOf(envelope);
    if c.finishReason == "stop" then
      && ChoiceOf(request) != Required && !ChoiceOf(request).Named?
      && calls == [] && c.calls == [] && c.content.Some? && At(ResultOf(envelope), "content") == Text(c.content.value)
    else
      && c.finishReason == "tool_calls" && c.content.None?
      && request.tools != [] && ChoiceOf(request) != NoTools
      && 1 <= |c.calls| == |calls| && (request.parallelToolCalls == Some(false) ==> |c.calls| == 1)
      && forall i :: 0 <= i < |calls| ==> AnswersCall(request, py, calls[i], c.calls[i])
  }

  /** Whether the calls of a valid envelope all decode, and whether they can all be printed again. */
  ghost predicate CallsDecode(request: Request, py: Python, envelope: Value) {
    forall i :: 0 <= i < |CallsOf(envelope)| ==> GoodCall(request.tools, py, CallsOf(envelope)[i])
  }

  ghost predicate CallsPrint(py: Python, envelope: Value) {
    forall i :: 0 <= i < |CallsOf(envelope)| ==> !IsUnprintable(py, CallsOf(envelope)[i])
  }

  /**
   `to_chat_completion` up to the envelope of the response record. `valid` is the verdict of the
   schema validator on the decoded envelope. The four policy errors never come out, a valid
   message gives its content, and a valid tool use gives its calls in order, with arguments
   that decode to what the model wrote. Each of the three refusals comes out exactly for its cause.
   */
  method ToChatCompletion(request: Request, s: Selection, text: string, valid: bool, py: Python,
                          ghost d: Dialect, ghost fuel: nat)
    returns (r: Result<Completion, AdapterError>)
    requires SelectedTools(request) == Ok(s) && d.assertion == Draft7Assertion
    requires var schema := OutputSchema(s, request.parallelToolCalls);
             valid <==> Loads(py, text).Some? && Accepts(d, schema, schema, Loads(py, text).value, fuel)
    ensures r == Err(InvalidStructuredResponse) <==> !valid
    ensures r == Err(InvalidArguments) <==> valid && !CallsDecode(request, py, Parse(text).value)
    ensures r == Err(UnserializableArguments) <==>
            valid && CallsDecode(request, py, Parse(text).value) && !CallsPrint(py, Parse(text).value)
    ensures r.Ok? <==> valid && CallsDecode(request, py, Parse(text).value) && CallsPrint(py, Parse(text).value)
    ensures r.Ok? ==> Answers(request, py, Parse(text).value, r.value)
  {
    hide Accepts, OutputSchema, Parse, GoodCall, Declares, CallName, CallArguments, CallsOf, ResultOf, Allowed, At,
         SelectedTools, Answers, HoldsOverflow, Printed;
    if !valid { return Err(InvalidStructuredResponse); }
    var envelope := Parse(text).value;
    ghost var schema := OutputSchema(s, request.parallelToolCalls);
    ghost var single := request.parallelToolCalls == Some(false);
    OutputSchemaIsPolicy(d, schema, s, request.parallelToolCalls, envelope, fuel);
    AllowedPassesChecks(s, single, envelope);
    var kind := At(ResultOf(envelope), "kind");
    var calls := CallsOf(envelope);
    if kind == Text("message") && calls != [] { return Err(CallsInMessage); }
    if kind == Text("tool_calls") && calls == [] { return Err(NoCalls); }
    if request.parallelToolCalls == Some(false) && |calls| > 1 { return Err(ParallelCalls); }
    var declared := NamesAllowed(calls, s.tools);
    if !declared { return Err(UndeclaredTool); }
    var decoded :- DecodeCalls(calls, request.tools, py);
    if kind == Text("message") {
      MessageAnswers(request, py, envelope);
      return Ok(Completion(Some(TextOf(At(ResultOf(envelope), "content"))), [], "stop"));
    }
    UnprintableCalls(py, calls, decoded);
    var printed :- PrintCalls(decoded, py);
    ToolUseAnswers(request, py, envelope, decoded, printed);
    return Ok(Completion(None, printed, "tool_calls"));
  }

  lemma UnprintableCalls(py: Python, calls: seq<Value>, decoded: seq<Call>)
    requires |decoded| == |calls|
    requires forall i :: 0 <= i < |calls| ==> Loads(py, CallArguments(calls[i])) == Some(decoded[i].arguments)
    ensures forall i :: 0 <= i < |calls| ==> (IsUnprintable(py, calls[i]) <==> HoldsOverflow(py, decoded[i].arguments))
  {
    hide Loads, CallArguments, HoldsOverflow;
  }

  lemma MessageAnswers(request: Request, py: Python, envelope: Value)
    requires SelectedTools(request).Ok?
    requires Allowed(SelectedTools(request).value, request.parallelToolCalls == Some(false), envelope)
    requires At(ResultOf(envelope), "kind") == Text("message")
    ensures Answers(request, py, envelope, Completion(Some(TextOf(At(ResultOf(envelope), "content"))), [], "stop"))
  {
    var s := SelectedTools(request).value;
    AllowedPassesChecks(s, request.parallelToolCalls == Some(false), envelope);
    AllowedKinds(s, request.parallelToolCalls == Some(false), envelope);
    SelectionMeaning(request);
    hide SelectedTools, Allowed, At, ResultOf, CallsOf, KeepsNamed, Declares, Parse;
  }

  /** What the policy says about the calls of an allowed tool use. */
  lemma ToolUsePolicy(request: Request, envelope: Value)
    requires SelectedTools(request).Ok?
    requires Allowed(SelectedTools(request).value, request.parallelToolCalls == Some(false), envelope)
    requires At(ResultOf(envelope), "kind") != Text("message")
    ensures request.tools != [] && ChoiceOf(request) != NoTools && CallsOf(envelope) != []
    ensures request.parallelToolCalls == Some(false) ==> |CallsOf(envelope)| == 1
    ensures forall i :: 0 <= i < |CallsOf(envelope)| ==> IsCallable(request, CallName(CallsOf(envelope)[i]))
  {
    var s := SelectedTools(request).value;
    AllowedPassesChecks(s, request.parallelToolCalls == Some(false), envelope);
    AllowedKinds(s, request.parallelToolCalls == Some(false), envelope);
    SelectionMeaning(request);
    hide SelectedTools, Allowed, At, ResultOf, CallsOf, KeepsNamed, Declares, CallName, IsCallable;
    var calls := CallsOf(envelope);
    forall i | 0 <= i < |calls| ensures IsCallable(request, CallName(calls[i])) {
      SelectedAreCallable(request, CallName(calls[i]));
    }
  }

  lemma ToolUseAnswers(request: Request, py: Python, envelope: Value, decoded: seq<Call>, printed: seq<ToolCall>)
    requires SelectedTools(request).Ok?
    requires Allowed(SelectedTools(request).value, request.parallelToolCalls == Some(false), envelope)
    requires At(ResultOf(envelope), "kind") != Text("message")
    requires |decoded| == |CallsOf(envelope)| == |printed|
    requires forall i :: 0 <= i < |decoded| ==>
               && decoded[i].name == CallName(CallsOf(envelope)[i])
               && Loads(py, CallArguments(CallsOf(envelope)[i])) == Some(decoded[i].arguments)
               && printed[i] == Printed(decoded[i]) && GoodCall(request.tools, py, CallsOf(envelope)[i])
    ensures Answers(request, py, envelope, Completion(None, printed, "tool_calls"))
  {
    ToolUsePolicy(request, envelope);
    hide SelectedTools, Allowed, At, ResultOf, CallsOf, Loads, CallName, CallArguments, IsCallable, AnswersCall,
         Printed, GoodCall, Parse;
    assert "tool_calls" != "stop" by { assert |"tool_calls"| == 10 && |"stop"| == 4; }
    CallsAnswer(request, py, CallsOf(envelope), decoded, printed);
  }

  lemma CallsAnswer(request: Request, py: Python, calls: seq<Value>, decoded: seq<Call>, printed: seq<ToolCall>)
    requires |decoded| == |calls| == |printed|
    requires forall i :: 0 <= i < |calls| ==> IsCallable(request, CallName(calls[i]))
    requires forall i :: 0 <= i < |calls| ==>
               && decoded[i].name == CallName(calls[i])
               && Loads(py, CallArguments(calls[i])) == Some(decoded[i].arguments)
               && printed[i] == Printed(decoded[i]) && GoodCall(request.tools, py, calls[i])
    ensures forall i :: 0 <= i < |calls| ==> AnswersCall(request, py, calls[i], printed[i])
  {
    hide *;
    forall i | 0 <= i < |calls| ensures AnswersCall(request, py, calls[i], printed[i]) {
      CallAnswers(request, py, calls[i], decoded[i]);
    }
  }

  lemma CallAnswers(request: Request, py: Python, call: Value, decoded: Call)
    requires IsCallable(request, CallName(call)) && decoded.name == CallName(call)
    requires Loads(py, CallArguments(call)) == Some(decoded.arguments) && GoodCall(request.tools, py, call)
    ensures AnswersCall(request, py, call, Printed(decoded))
  {
    hide MeetsTool, Parse, Print, CallName, CallArguments, IsCallable;
    DecodedTextPrints(CallArguments(call));
  }

  lemma AllowedKinds(s: Selection, single: bool, envelope: Value)
    requires Allowed(s, single, envelope)
    ensures At(ResultOf(envelope), "kind") == Text("message") ==> !(s.force && !s.forbid)
    ensures At(ResultOf(envelope), "kind") == Text("tool_calls") ==> !s.forbid
  {
    hide HasKeys, At;
    assert "message"[0] == 'm' && "tool_calls"[0] == 't';
  }

  // ---------------------------------------------------------------------
  // Arguments that decode and cannot be printed
  // ---------------------------------------------------------------------

  const HUGE_CALL := Object([Member("name", Text("f")), Member("arguments", Text("1e999"))])

  const HUGE_RESULT := Object([
    Member("kind", Text("tool_calls")), Member("content", Text("")), Member("tool_calls", List([HUGE_CALL]))])

  const HUGE_ENVELOPE := Object([Member("result", HUGE_RESULT)])

  lemma HugeNumberDecodes()
    ensures Parse("1e999") == Some(Number("1e999"))
  {
    var s := "1e999";
    assert SkipSpace(s) == s;
    assert IsExponent("e999") by { assert "e999"[1..] == "999" && AllDigits("999"); }
    assert IsUnsigned(s) by { assert s[1..1] == "" && s[1..] == "e999" && AllDigits(s[1..1]) && IsFraction(s[1..]); }
    assert IsNumber(s);
    assert s == s + "";
    PrintedNumberDecodes(s, "");
  }

  lemma FirstOf(a: Member, rest: seq<Member>, key: string)
    ensures Get([a] + rest, key) == if a.key == key then Some(a.value) else Get(rest, key)
  {
    assert ([a] + rest)[1..] == rest;
  }

  lemma NamesDiffer()
    ensures "name" != "arguments" && "kind" != "content" && "content" != "tool_calls" && "tool_calls" != "kind"
  {
    assert |"name"| == 4 && |"arguments"| == 9 && |"kind"| == 4 && |"content"| == 7 && |"tool_calls"| == 10;
  }

  lemma GetInOrder()
    ensures forall a: Member, rest: seq<Member>, key: string ::
              Get([a] + rest, key) == if a.key == key then Some(a.value) else Get(rest, key)
  {
    forall a: Member, rest: seq<Member>, key: string
      ensures Get([a] + rest, key) == if a.key == key then Some(a.value) else Get(rest, key)
    {
      FirstOf(a, rest, key);
    }
  }

  lemma HugeCallParts()
    ensures HasKeys(HUGE_CALL.members, ["name", "arguments"])
    ensures At(HUGE_CALL.members, "name") == Text("f") && At(HUGE_CALL.members, "arguments") == Text("1e999")
  {
    NamesDiffer();
    var name, arguments := Member("name", Text("f")), Member("arguments", Text("1e999"));
    assert HUGE_CALL.members == [name] + ([arguments] + []);
    GetInOrder();
    hide Get;
  }

  lemma HugeResultParts()
    ensures HasKeys(HUGE_RESULT.members, ["kind", "content", "tool_calls"])
    ensures At(HUGE_RESULT.members, "kind") == Text("tool_calls") && At(HUGE_RESULT.members, "content") == Text("")
    ensures At(HUGE_RESULT.members, "tool_calls") == List([HUGE_CALL])
    ensures HasKeys(HUGE_ENVELOPE.members, ["result"]) && At(HUGE_ENVELOPE.members, "result") == HUGE_RESULT
  {
    NamesDiffer();
    var kind, content := Member("kind", Text("tool_calls")), Member("content", Text(""));
    var calls := Member("tool_calls", List([HUGE_CALL]));
    assert HUGE_RESULT.members == [kind] + ([content] + ([calls] + []));
    var result := Member("result", HUGE_RESULT);
    assert HUGE_ENVELOPE.members == [result] + [];
    GetInOrder();
    hide Get;
  }

  /** The policy allows this envelope and its call is good, but the response cannot be made: the number is infinite. */
  lemma HugeNumberIsUnserializable(py: Python, parameters: Value)
    requires py.readable("1e999") && py.overflows("1e999") && py.meets(parameters, Number("1e999"))
    ensures var request := Request([FunctionTool("f", parameters)], None, None);
            && RequestAllows(request, HUGE_ENVELOPE)
            && CallsDecode(request, py, HUGE_ENVELOPE) && !CallsPrint(py, HUGE_ENVELOPE)
  {
    HugeNumberDecodes();
    HugeCallParts();
    HugeResultParts();
    hide Parse, HasKeys, At;
    var request := Request([FunctionTool("f", parameters)], None, None);
    assert request.tools[0].name == "f";
    assert IsCallFor(request, HUGE_CALL);
    var calls := CallsOf(HUGE_ENVELOPE);
    assert calls == [HUGE_CALL] && calls[0] == HUGE_CALL;
    assert IsUnprintable(py, calls[0]);
    assert GoodCall(request.tools, py, HUGE_CALL) by { assert IsLastNamed(request.tools, "f", 0); }
  }
}
