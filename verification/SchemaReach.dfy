/**
 Which schemas expand at all, said without the expander: along every chain of visits
 that starts at the root each node is a schema, each reference is a text that
 resolves locally, and no reference text occurs twice.
 */
module SchemaReach {
  import opened Outcomes
  import opened Json
  import opened JsonPointer
  import opened SchemaSemantics
  import opened SchemaExpansion
  import opened SchemaMeaning

  /** `b` stands in a schema position of the keyword. */
  ghost predicate IsSubschema(key: string, value: Value, b: Value) {
    match Classify(key, value)
    case Single => b == value
    case Elements => b in value.items
    case PropertyMap => exists j :: 0 <= j < |value.members| && value.members[j].value == b
    case DependencyMap => IsSchema(b) && exists j :: 0 <= j < |value.members| && value.members[j].value == b
    case _ => false
  }

  function RefOf(node: Value): Option<string> {
    match node
    case Object(members) =>
      (match Get(members, "$ref") case Some(Text(pointer)) => Some(pointer) case _ => None)
    case _ => None
  }

  /** From `a` the expansion goes on to `b`: to the target of a reference, else to a subschema. */
  ghost predicate Visits(root: Value, a: Value, b: Value) {
    a.Object? &&
    match Get(a.members, "$ref")
    case Some(Text(pointer)) => Resolve(root, pointer) == Some(b)
    case Some(_) => false
    case None => exists i :: 0 <= i < |a.members| && IsSubschema(a.members[i].key, a.members[i].value, b)
  }

  ghost predicate IsChain(root: Value, chain: seq<Value>) {
    |chain| > 0 && forall k :: 0 <= k < |chain| - 1 ==> Visits(root, chain[k], chain[k + 1])
  }

  /** A node that the expansion can handle by itself. */
  ghost predicate SoundNode(root: Value, node: Value) {
    match node
    case Bool(_) => true
    case Object(members) =>
      (match Get(members, "$ref")
       case Some(Text(pointer)) => Resolve(root, pointer).Some?
       case Some(_) => false
       case None => true)
    case _ => false
  }

  ghost predicate NoRepeat(chain: seq<Value>) {
    forall i, j :: 0 <= i < j < |chain| && RefOf(chain[i]).Some? ==> RefOf(chain[i]) != RefOf(chain[j])
  }

  ghost predicate Sound(root: Value, chain: seq<Value>) {
    (forall k :: 0 <= k < |chain| ==> SoundNode(root, chain[k])) && NoRepeat(chain)
  }

  ghost predicate Avoids(chain: seq<Value>, stack: set<string>) {
    forall k :: 0 <= k < |chain| && RefOf(chain[k]).Some? ==> RefOf(chain[k]).value !in stack
  }

  // ---------------------------------------------------------------------
  // Success makes every chain sound
  // ---------------------------------------------------------------------

  lemma ChildExpands(root: Value, members: seq<Member>, stack: set<string>, i: nat, b: Value)
    requires ExpandKeywords(root, members, stack).Some?
    requires i < |members| && IsSubschema(members[i].key, members[i].value, b)
    ensures Expand(root, b, stack).Some?
  {
    hide Expand, ExpandKeywords, ExpandKeyword, Refs, KeywordOf, IsSubschema;
    KeywordsHaveImages(root, members, stack);
    assert !IsDropped(members[i].key) by { SubschemaIsKept(members[i].key, members[i].value, b); }
    SubschemaExpands(root, members[i].key, members[i].value, stack, b);
  }

  lemma SubschemaIsKept(key: string, value: Value, b: Value)
    requires IsSubschema(key, value, b)
    ensures !IsDropped(key)
  {
    hide KeywordOf;
  }

  lemma SubschemaExpands(root: Value, key: string, value: Value, stack: set<string>, b: Value)
    requires ExpandKeyword(root, key, value, stack).Some? && IsSubschema(key, value, b)
    ensures Expand(root, b, stack).Some?
  {
    hide Expand, ExpandElements, ExpandNamed, Refs, KeywordOf;
    match Classify(key, value)
    case Elements => ElementImages(root, value.items, stack);
    case PropertyMap => NamedImages(root, value.members, stack, false);
    case DependencyMap => NamedImages(root, value.members, stack, true);
    case _ =>
  }

  lemma ExpandedNodeIsSound(root: Value, node: Value, stack: set<string>)
    requires Expand(root, node, stack).Some?
    ensures SoundNode(root, node)
    ensures RefOf(node).Some? ==> RefOf(node).value !in stack
  {
    hide ExpandKeywords, Refs, Resolve;
  }

  lemma {:induction false} ChainsAreSound(root: Value, stack: set<string>, chain: seq<Value>)
    requires IsChain(root, chain) && Expand(root, chain[0], stack).Some?
    ensures Sound(root, chain) && Avoids(chain, stack)
    decreases |chain|
  {
    hide Expand, ExpandKeywords, Refs, Resolve, IsSubschema;
    ExpandedNodeIsSound(root, chain[0], stack);
    if |chain| > 1 {
      var rest := chain[1..];
      assert Visits(root, chain[0], chain[1]);
      assert IsChain(root, rest) by {
        forall k | 0 <= k < |rest| - 1 ensures Visits(root, rest[k], rest[k + 1]) {
          assert rest[k] == chain[k + 1] && rest[k + 1] == chain[k + 2];
        }
      }
      if RefOf(chain[0]).Some? {
        ExpandJump(root, chain[0], stack, RefOf(chain[0]).value);
        ChainsAreSound(root, stack + {RefOf(chain[0]).value}, rest);
      } else {
        var members := chain[0].members;
        var i :| 0 <= i < |members| && IsSubschema(members[i].key, members[i].value, chain[1]);
        ExpandObject(root, members, stack);
        ChildExpands(root, members, stack, i, chain[1]);
        ChainsAreSound(root, stack, rest);
      }
      SoundExtends(root, chain, stack);
    }
  }

  lemma SoundExtends(root: Value, chain: seq<Value>, stack: set<string>)
    requires |chain| > 1 && SoundNode(root, chain[0]) && Sound(root, chain[1..])
    requires RefOf(chain[0]).Some? ==> RefOf(chain[0]).value !in stack
    requires Avoids(chain[1..], stack + if RefOf(chain[0]).Some? then {RefOf(chain[0]).value} else {})
    ensures Sound(root, chain) && Avoids(chain, stack)
  {
    hide SoundNode, RefOf;
    assert forall k :: 1 <= k < |chain| ==> chain[k] == chain[1..][k - 1];
  }

  // ---------------------------------------------------------------------
  // Failure shows in some chain
  // ---------------------------------------------------------------------

  lemma {:induction false} FailingElement(root: Value, items: seq<Value>, stack: set<string>) returns (b: Value)
    requires ExpandElements(root, items, stack).None?
    ensures b in items && Expand(root, b, stack).None?
    decreases items
  {
    hide Expand, Refs;
    var n := |items| - 1;
    if ExpandElements(root, items[..n], stack).None? {
      b := FailingElement(root, items[..n], stack);
    } else {
      b := items[n];
    }
  }

  lemma {:induction false} FailingEntry(root: Value, members: seq<Member>, stack: set<string>, partial: bool)
    returns (b: Value)
    requires ExpandNamed(root, members, stack, partial).None?
    ensures (partial ==> IsSchema(b)) && Expand(root, b, stack).None?
    ensures exists j :: 0 <= j < |members| && members[j].value == b
    decreases members
  {
    hide Expand, Refs;
    var n := |members| - 1;
    if ExpandNamed(root, members[..n], stack, partial).None? {
      b := FailingEntry(root, members[..n], stack, partial);
      var j :| 0 <= j < n && members[..n][j].value == b;
      assert members[j].value == b;
    } else {
      b := members[n].value;
    }
  }

  lemma FailingSubschema(root: Value, key: string, value: Value, stack: set<string>) returns (b: Value)
    requires ExpandKeyword(root, key, value, stack).None?
    ensures IsSubschema(key, value, b) && Expand(root, b, stack).None?
  {
    hide Expand, ExpandElements, ExpandNamed, Refs, KeywordOf;
    match Classify(key, value)
    case Elements => b := FailingElement(root, value.items, stack);
    case PropertyMap => b := FailingEntry(root, value.members, stack, false);
    case DependencyMap => b := FailingEntry(root, value.members, stack, true);
    case _ => b := value;
  }

  lemma {:induction false} FailingChild(root: Value, members: seq<Member>, stack: set<string>)
    returns (i: nat, b: Value)
    requires ExpandKeywords(root, members, stack).None?
    ensures i < |members| && IsSubschema(members[i].key, members[i].value, b) && Expand(root, b, stack).None?
    decreases members
  {
    hide Expand, ExpandKeyword, Refs, KeywordOf, IsSubschema;
    var n := |members| - 1;
    if ExpandKeywords(root, members[..n], stack).None? {
      i, b := FailingChild(root, members[..n], stack);
    } else {
      i := n;
      b := FailingSubschema(root, members[n].key, members[n].value, stack);
    }
  }

  lemma SubschemaWithin(key: string, value: Value, b: Value, names: set<string>)
    requires Within(value, names) && IsSubschema(key, value, b)
    ensures Within(b, names)
  {
    hide KeywordOf;
  }

  lemma ExpandFails(root: Value, node: Value, stack: set<string>)
    requires InScope(root, node, stack) && Expand(root, node, stack).None? && SoundNode(root, node)
    ensures node.Object?
    ensures match RefOf(node)
            case Some(pointer) =>
              pointer in stack
              || (pointer in Refs(root) && Expand(root, Resolve(root, pointer).value, stack + {pointer}).None?)
            case None => Get(node.members, "$ref").None? && ExpandKeywords(root, node.members, stack).None?
  {
    hide ExpandKeywords, Refs, Resolve;
    match RefOf(node)
    case Some(pointer) =>
      var i :| 0 <= i < |node.members| && node.members[i] == Member("$ref", Text(pointer));
      assert MembersWithin(node.members, Refs(root)) && pointer in Refs(root);
      assert Get(node.members, "$ref") == Some(Text(pointer));
    case None =>
  }

  lemma {:induction false} FailingChain(root: Value, node: Value, stack: set<string>) returns (chain: seq<Value>)
    requires InScope(root, node, stack) && Expand(root, node, stack).None?
    ensures IsChain(root, chain) && chain[0] == node
    ensures !Sound(root, chain) || !Avoids(chain, stack)
    decreases |Refs(root) - stack|, node
  {
    chain := [node];
    assert node.Object? ==> MembersWithin(node.members, Refs(root));
    hide Expand, ExpandKeywords, Refs, Resolve, IsSubschema, Visits, Within;
    if SoundNode(root, node) {
      ExpandFails(root, node, stack);
      match RefOf(node)
      case Some(pointer) =>
        if pointer !in stack {
          JumpShrinks(root, stack, pointer);
          TargetWithin(root, pointer);
          var rest := FailingChain(root, Resolve(root, pointer).value, stack + {pointer});
          chain := [node] + rest;
          JumpVisits(root, node, pointer);
          Prepended(root, node, rest, stack + {pointer});
          UnsoundExtends(root, node, rest, stack);
        } else {
          assert RefOf(chain[0]).Some?;
        }
      case None =>
        var i, b := FailingChild(root, node.members, stack);
        ChildWithin(root, node.members, i, b);
        var rest := FailingChain(root, b, stack);
        chain := [node] + rest;
        ChildVisits(root, node, i, b);
        Prepended(root, node, rest, stack);
        UnsoundExtends(root, node, rest, stack);
    } else {
      assert !SoundNode(root, chain[0]);
    }
  }

  lemma ChildWithin(root: Value, members: seq<Member>, i: nat, b: Value)
    requires MembersWithin(members, Refs(root))
    requires i < |members| && IsSubschema(members[i].key, members[i].value, b)
    ensures Within(b, Refs(root)) && b < Object(members)
  {
    hide Refs, KeywordOf;
    SubschemaWithin(members[i].key, members[i].value, b, Refs(root));
    SubschemaIsSmaller(members[i].key, members[i].value, b);
  }

  lemma SubschemaIsSmaller(key: string, value: Value, b: Value)
    requires IsSubschema(key, value, b)
    ensures b == value || b < value
  {
    hide KeywordOf;
  }

  lemma JumpVisits(root: Value, node: Value, pointer: string)
    requires RefOf(node) == Some(pointer) && Resolve(root, pointer).Some?
    ensures Visits(root, node, Resolve(root, pointer).value)
  {
    hide Resolve;
  }

  lemma ChildVisits(root: Value, node: Value, i: nat, b: Value)
    requires node.Object? && Get(node.members, "$ref").None?
    requires i < |node.members| && IsSubschema(node.members[i].key, node.members[i].value, b)
    ensures Visits(root, node, b)
  {
    hide IsSubschema;
  }

  lemma Prepended(root: Value, node: Value, rest: seq<Value>, stack: set<string>)
    requires IsChain(root, rest) && Visits(root, node, rest[0])
    ensures IsChain(root, [node] + rest)
  {
    hide Visits;
    var chain := [node] + rest;
    forall k | 0 <= k < |chain| - 1 ensures Visits(root, chain[k], chain[k + 1]) {
      if k > 0 { assert chain[k] == rest[k - 1] && chain[k + 1] == rest[k]; }
    }
  }

  /** The tail of a sound chain is sound and avoids the head's reference too. */
  lemma SoundTail(root: Value, node: Value, rest: seq<Value>, stack: set<string>)
    requires Sound(root, [node] + rest) && Avoids([node] + rest, stack)
    ensures Sound(root, rest)
    ensures Avoids(rest, stack + if RefOf(node).Some? then {RefOf(node).value} else {})
  {
    hide SoundNode, RefOf;
    var chain := [node] + rest;
    forall k | 0 <= k < |rest| ensures SoundNode(root, rest[k]) {
      assert rest[k] == chain[k + 1];
    }
    forall i, j | 0 <= i < j < |rest| && RefOf(rest[i]).Some? ensures RefOf(rest[i]) != RefOf(rest[j]) {
      assert rest[i] == chain[i + 1] && rest[j] == chain[j + 1];
    }
    forall k | 0 <= k < |rest| && RefOf(rest[k]).Some?
      ensures RefOf(rest[k]).value !in stack && RefOf(rest[k]) != RefOf(node)
    {
      assert rest[k] == chain[k + 1] && chain[0] == node;
    }
  }

  lemma UnsoundExtends(root: Value, node: Value, rest: seq<Value>, stack: set<string>)
    requires !Sound(root, rest) || !Avoids(rest, stack + if RefOf(node).Some? then {RefOf(node).value} else {})
    ensures !Sound(root, [node] + rest) || !Avoids([node] + rest, stack)
  {
    hide Sound, Avoids;
    if Sound(root, [node] + rest) && Avoids([node] + rest, stack) {
      SoundTail(root, node, rest, stack);
    }
  }

  // ---------------------------------------------------------------------

  /** The expansion exists exactly when every chain of visits from the root is sound. */
  lemma ExpandsExactlyWhenChainsAreSound(root: Value)
    ensures ExpandRoot(root).Some?
            <==> forall chain :: IsChain(root, chain) && chain[0] == root ==> Sound(root, chain)
  {
    if ExpandRoot(root).Some? {
      forall chain | IsChain(root, chain) && chain[0] == root ensures Sound(root, chain) {
        ChainsAreSound(root, {}, chain);
      }
    } else {
      WithinRefs(root, Refs(root));
      var chain := FailingChain(root, root, {});
      assert Avoids(chain, {});
    }
  }
}
