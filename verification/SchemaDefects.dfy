/**
 Why a schema does not expand: the error names a defect that the last node of some chain of
 visits really has.
 */
module SchemaDefects {
  import opened Outcomes
  import opened Json
  import opened JsonPointer
  import opened SchemaSemantics
  import opened SchemaExpansion
  import opened SchemaReach

  /** `node` has the defect when the references of `open` are being expanded. */
  ghost predicate IsFlawed(root: Value, node: Value, open: set<string>, error: ToolSchemaError) {
    match error
    case NotASchema => !IsSchema(node)
    case ReferenceNotText => node.Object? && Get(node.members, "$ref").Some? && RefOf(node).None?
    case RecursiveReference => RefOf(node).Some? && RefOf(node).value in open
    case ExternalReference => RefOf(node).Some? && !IsLocal(RefOf(node).value)
    case InvalidEscape => RefOf(node).Some? && Stops(root, RefOf(node).value, error)
    case Unresolvable => RefOf(node).Some? && Stops(root, RefOf(node).value, error)
    case _ => false
  }

  ghost predicate Stops(root: Value, pointer: string, error: ToolSchemaError) {
    IsLocal(pointer) && exists i: nat :: StopsAt(root, Segments(pointer), i, error)
  }

  /** The references that the nodes of a chain before its last one jump along. */
  ghost function OpenRefs(chain: seq<Value>): set<string> {
    set k | 0 <= k < |chain| - 1 && RefOf(chain[k]).Some? :: RefOf(chain[k]).value
  }

  /** A chain from `node` ends in this defect. */
  ghost predicate LeadsTo(root: Value, node: Value, stack: set<string>, error: ToolSchemaError, chain: seq<Value>) {
    IsChain(root, chain) && chain[0] == node && IsFlawed(root, chain[|chain| - 1], stack + OpenRefs(chain), error)
  }

  ghost predicate Shows(root: Value, node: Value, stack: set<string>, error: ToolSchemaError) {
    exists chain :: LeadsTo(root, node, stack, error, chain)
  }

  /** A schema position of the value of a keyword does. */
  ghost predicate ValueShows(root: Value, key: string, value: Value, stack: set<string>, error: ToolSchemaError) {
    exists b :: IsSubschema(key, value, b) && Shows(root, b, stack, error)
  }

  ghost predicate MembersShow(root: Value, members: seq<Member>, stack: set<string>, error: ToolSchemaError) {
    exists i :: 0 <= i < |members| && ValueShows(root, members[i].key, members[i].value, stack, error)
  }

  lemma NodeShows(root: Value, node: Value, stack: set<string>, error: ToolSchemaError)
    requires IsFlawed(root, node, stack, error)
    ensures Shows(root, node, stack, error)
  {
    assert OpenRefs([node]) == {};
    assert stack + {} == stack;
    hide IsFlawed;
    assert LeadsTo(root, node, stack, error, [node]);
  }

  /** A defect behind a visit shows at the node before it; a reference that was followed is open there. */
  lemma VisitShows(root: Value, node: Value, b: Value, stack: set<string>, error: ToolSchemaError)
    requires Visits(root, node, b)
    requires Shows(root, b, stack + if RefOf(node).Some? then {RefOf(node).value} else {}, error)
    ensures Shows(root, node, stack, error)
  {
    hide IsFlawed, Visits, RefOf;
    var inner := stack + if RefOf(node).Some? then {RefOf(node).value} else {};
    var rest :| LeadsTo(root, b, inner, error, rest);
    var chain := [node] + rest;
    Prepended(root, node, rest, stack);
    assert stack + OpenRefs(chain) == inner + OpenRefs(rest) by { OpenAlong(node, rest); }
    assert LeadsTo(root, node, stack, error, chain);
  }

  lemma OpenAlong(node: Value, rest: seq<Value>)
    requires |rest| > 0
    ensures OpenRefs([node] + rest) == OpenRefs(rest) + if RefOf(node).Some? then {RefOf(node).value} else {}
  {
    hide RefOf;
    var chain := [node] + rest;
    forall r ensures r in OpenRefs(chain) <==>
                     r in OpenRefs(rest) || (RefOf(node).Some? && r == RefOf(node).value)
    {
      if r in OpenRefs(chain) {
        var k :| 0 <= k < |chain| - 1 && RefOf(chain[k]).Some? && RefOf(chain[k]).value == r;
        if k > 0 { assert chain[k] == rest[k - 1]; }
      }
      if r in OpenRefs(rest) {
        var k :| 0 <= k < |rest| - 1 && RefOf(rest[k]).Some? && RefOf(rest[k]).value == r;
        assert chain[k + 1] == rest[k];
      }
      if RefOf(node).Some? && r == RefOf(node).value { assert chain[0] == node; }
    }
  }

  lemma JumpShows(root: Value, node: Value, pointer: string, stack: set<string>, error: ToolSchemaError)
    requires RefOf(node) == Some(pointer) && Resolve(root, pointer).Some?
    requires Shows(root, Resolve(root, pointer).value, stack + {pointer}, error)
    ensures Shows(root, node, stack, error)
  {
    hide Resolve, Shows;
    JumpVisits(root, node, pointer);
    VisitShows(root, node, Resolve(root, pointer).value, stack, error);
  }

  lemma ObjectShows(root: Value, members: seq<Member>, stack: set<string>, error: ToolSchemaError)
    requires Get(members, "$ref").None? && MembersShow(root, members, stack, error)
    ensures Shows(root, Object(members), stack, error)
  {
    hide IsSubschema, Shows;
    var i :| 0 <= i < |members| && ValueShows(root, members[i].key, members[i].value, stack, error);
    var b :| IsSubschema(members[i].key, members[i].value, b) && Shows(root, b, stack, error);
    ChildVisits(root, Object(members), i, b);
    assert stack + {} == stack;
    VisitShows(root, Object(members), b, stack, error);
  }

  lemma SubschemaShows(root: Value, key: string, value: Value, b: Value, stack: set<string>, error: ToolSchemaError)
    requires Shows(root, b, stack, error)
    requires match Classify(key, value)
             case Single => b == value
             case Elements => b in value.items
             case PropertyMap => exists j :: 0 <= j < |value.members| && value.members[j].value == b
             case DependencyMap => IsSchema(b) && exists j :: 0 <= j < |value.members| && value.members[j].value == b
             case _ => false
    ensures ValueShows(root, key, value, stack, error)
  {
    hide Shows, KeywordOf;
  }
}
