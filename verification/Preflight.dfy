/**
 The preflight walk over a raw tool schema. It keeps an explicit stack, counts nodes
 and bytes as it goes and stops early; it is proved to accept exactly the schemas
 whose recursively defined measures are within the limits.

 Containers are reached through their identities and may contain each other or themselves;
 what is measured is the tree they unfold to, in which a container carries its identity.
 */
module Preflight {
  import opened Outcomes
  import Json
  import opened JsonPointer
  import opened SchemaExpansion

  const MAX_RAW_SCHEMA_DEPTH: nat := 128

  datatype Key = Name(chars: string) | NoText

  datatype Raw =
    | Text(chars: string)
    | Scalar
    | Dict(id: nat, entries: seq<Entry>)
    | Sequence(id: nat, items: seq<Raw>)

  datatype Entry = Entry(key: Key, value: Raw)

  // ---------------------------------------------------------------------
  // Python objects
  // ---------------------------------------------------------------------

  /** A value as Python holds it: containers are named by their identity. */
  datatype Slot = TextSlot(chars: string) | ScalarSlot | Container(id: nat)

  datatype SlotEntry = SlotEntry(key: Key, slot: Slot)

  datatype Body = DictBody(entries: seq<SlotEntry>) | ListBody(items: seq<Slot>)

  /** What the container with an identity holds. */
  type Heap = nat -> Body

  /** The tree that a value unfolds to, cut off below `fuel` levels of containers. */
  function Unfold(heap: Heap, slot: Slot, fuel: nat): Raw
    decreases fuel
  {
    match slot
    case TextSlot(chars) => Text(chars)
    case ScalarSlot => Scalar
    case Container(id) =>
      if fuel == 0 then Scalar
      else
        match heap(id)
        case DictBody(entries) =>
          Dict(id, seq(|entries|, i requires 0 <= i < |entries| =>
                                    Entry(entries[i].key, Unfold(heap, entries[i].slot, fuel - 1))))
        case ListBody(items) =>
          Sequence(id, seq(|items|, i requires 0 <= i < |items| => Unfold(heap, items[i], fuel - 1)))
  }

  /** One level more than the walk ever looks into. */
  function Unfolded(heap: Heap, slot: Slot): Raw {
    Unfold(heap, slot, MAX_RAW_SCHEMA_DEPTH + 1)
  }

  // ---------------------------------------------------------------------
  // Recursive measures
  // ---------------------------------------------------------------------

  datatype Measure = Measure(nodes: nat, depth: nat, bytes: nat)

  const NOTHING := Measure(0, 0, 0)

  function Plus(a: Measure, b: Measure): Measure {
    Measure(a.nodes + b.nodes, Max(a.depth, b.depth), a.bytes + b.bytes)
  }

  function Lowered(a: Measure, levels: nat): Measure {
    a.(depth := a.depth + levels)
  }

  function Sum(parts: seq<Measure>): Measure {
    if |parts| == 0 then NOTHING else Plus(Sum(parts[..|parts| - 1]), parts[|parts| - 1])
  }

  function KeyBytes(key: Key): nat {
    match key case Name(chars) => Json.Utf8Length(chars) case NoText => 16
  }

  function KeysBytes(keys: seq<Key>): nat {
    if |keys| == 0 then 0 else KeysBytes(keys[..|keys| - 1]) + KeyBytes(keys[|keys| - 1])
  }

  function KeysOf(entries: seq<Entry>): seq<Key> {
    seq(|entries|, i requires 0 <= i < |entries| => entries[i].key)
  }

  /** Nodes, depth and byte weight of a raw value. */
  function MeasureOf(raw: Raw): Measure {
    match raw
    case Text(chars) => Measure(1, 0, Json.Utf8Length(chars))
    case Scalar => Measure(1, 0, 8)
    case Dict(_, entries) =>
      Plus(Measure(1, 0, 2 + KeysBytes(KeysOf(entries))),
           Sum(seq(|entries|, i requires 0 <= i < |entries| => Lowered(MeasureOf(entries[i].value), 1))))
    case Sequence(_, items) =>
      Plus(Measure(1, 0, 2), Sum(seq(|items|, i requires 0 <= i < |items| => Lowered(MeasureOf(items[i]), 1))))
  }

  function One(b: bool): nat {
    if b then 1 else 0
  }

  function Total(counts: seq<nat>): nat {
    if |counts| == 0 then 0 else Total(counts[..|counts| - 1]) + counts[|counts| - 1]
  }

  /** How often the container with this identity occurs in a raw value. */
  function Uses(raw: Raw, id: nat): nat {
    match raw
    case Dict(own, entries) =>
      One(own == id) + Total(seq(|entries|, i requires 0 <= i < |entries| => Uses(entries[i].value, id)))
    case Sequence(own, items) =>
      One(own == id) + Total(seq(|items|, i requires 0 <= i < |items| => Uses(items[i], id)))
    case _ => 0
  }

  /** No container occurs twice: the value is a tree. */
  ghost predicate IsTree(schema: Raw) {
    forall id: nat :: Uses(schema, id) <= 1
  }

  /** The schemas that the preflight lets through. */
  ghost predicate Acceptable(schema: Raw) {
    var m := MeasureOf(schema);
    && m.nodes <= MAX_EXPANDED_NODES
    && m.depth <= MAX_RAW_SCHEMA_DEPTH
    && m.bytes <= MAX_EXPANDED_BYTES
    && IsTree(schema)
  }

  // ---------------------------------------------------------------------
  // The stack
  // ---------------------------------------------------------------------

  /** The shares of a list of values that stand `depth` levels down. */
  function Shares(items: seq<Raw>, depth: nat): seq<Measure> {
    seq(|items|, i requires 0 <= i < |items| => Lowered(MeasureOf(items[i]), depth))
  }

  function PendingShares(pending: seq<(Raw, nat)>): seq<Measure> {
    seq(|pending|, i requires 0 <= i < |pending| => Lowered(MeasureOf(pending[i].0), pending[i].1))
  }

  /** What is left to visit; each item counts from its own depth. */
  function MeasurePending(pending: seq<(Raw, nat)>): Measure {
    Sum(PendingShares(pending))
  }

  function Children(items: seq<Raw>, depth: nat): seq<(Raw, nat)> {
    seq(|items|, i requires 0 <= i < |items| => (items[i], depth))
  }

  function Values(entries: seq<Entry>): seq<Raw> {
    seq(|entries|, i requires 0 <= i < |entries| => entries[i].value)
  }

  lemma Regrouped(a: Measure, b: Measure, c: Measure)
    ensures Plus(a, Plus(b, c)) == Plus(Plus(a, b), c)
    ensures Plus(a, NOTHING) == a
  {
  }

  lemma {:induction false} SumOfConcat(a: seq<Measure>, b: seq<Measure>)
    ensures Sum(a + b) == Plus(Sum(a), Sum(b))
  {
    hide Plus;
    if |b| == 0 {
      assert a + b == a;
      Regrouped(Sum(a), NOTHING, NOTHING);
    } else {
      var n := |b| - 1;
      SumOfConcat(a, b[..n]);
      assert (a + b)[..|a + b| - 1] == a + b[..n] && (a + b)[|a + b| - 1] == b[n];
      Regrouped(Sum(a), Sum(b[..n]), b[n]);
    }
  }

  lemma {:induction false} SizeOfSum(parts: seq<Measure>)
    requires forall i :: 0 <= i < |parts| ==> parts[i].nodes >= 1
    ensures |parts| <= Sum(parts).nodes
  {
    if |parts| > 0 { SizeOfSum(parts[..|parts| - 1]); }
  }

  lemma PendingSize(pending: seq<(Raw, nat)>)
    ensures |pending| <= MeasurePending(pending).nodes
  {
    hide Sum;
    forall i | 0 <= i < |pending| ensures PendingShares(pending)[i].nodes >= 1 {
      HasNode(pending[i].0);
    }
    SizeOfSum(PendingShares(pending));
  }

  lemma HasNode(raw: Raw)
    ensures MeasureOf(raw).nodes >= 1
  {
  }

  /** After popping one value: the stack without it and the value's own share. */
  lemma Popped(pending: seq<(Raw, nat)>)
    requires |pending| > 0
    ensures var (value, depth) := pending[|pending| - 1];
            MeasurePending(pending) == Plus(MeasurePending(pending[..|pending| - 1]), Lowered(MeasureOf(value), depth))
  {
    hide MeasureOf;
    var rest := pending[..|pending| - 1];
    assert PendingShares(pending)[..|pending| - 1] == PendingShares(rest);
  }

  /** Equal measures, as far as depths beyond `depth` go. */
  ghost predicate AlikeBelow(depth: nat, a: Measure, b: Measure) {
    a.nodes == b.nodes && a.bytes == b.bytes && Max(depth, a.depth) == Max(depth, b.depth)
  }

  /** A list that stands deeper measures what it measures at the top, but for its depth. */
  lemma {:induction false} SharesBelow(items: seq<Raw>, depth: nat)
    ensures AlikeBelow(depth, Sum(Shares(items, depth + 1)), Lowered(Sum(Shares(items, 1)), depth))
  {
    hide MeasureOf;
    if |items| > 0 {
      var n := |items| - 1;
      SharesBelow(items[..n], depth);
      assert Shares(items, depth + 1)[..n] == Shares(items[..n], depth + 1);
      assert Shares(items, 1)[..n] == Shares(items[..n], 1);
    }
  }

  /** Pushing the children of a list one level deeper measures what the list inside measured. */
  lemma ItemsPushed(before: seq<(Raw, nat)>, items: seq<Raw>, depth: nat)
    ensures AlikeBelow(depth, MeasurePending(before + Children(items, depth + 1)),
                       Plus(MeasurePending(before), Lowered(Sum(Shares(items, 1)), depth)))
  {
    hide MeasureOf, Sum;
    assert PendingShares(before + Children(items, depth + 1)) == PendingShares(before) + Shares(items, depth + 1);
    SumOfConcat(PendingShares(before), Shares(items, depth + 1));
    SharesBelow(items, depth);
  }

  lemma ContainerMeasure(raw: Raw)
    ensures raw.Dict? ==>
              MeasureOf(raw) ==
                Plus(Measure(1, 0, 2 + KeysBytes(KeysOf(raw.entries))), Sum(Shares(Values(raw.entries), 1)))
    ensures raw.Sequence? ==> MeasureOf(raw) == Plus(Measure(1, 0, 2), Sum(Shares(raw.items, 1)))
  {
    hide Sum, KeysBytes, Plus;
    if raw.Dict? {
      assert Shares(Values(raw.entries), 1) ==
             seq(|raw.entries|, i requires 0 <= i < |raw.entries| => Lowered(MeasureOf(raw.entries[i].value), 1));
    }
    if raw.Sequence? {
      assert Shares(raw.items, 1) ==
             seq(|raw.items|, i requires 0 <= i < |raw.items| => Lowered(MeasureOf(raw.items[i]), 1));
    }
  }

  // ---------------------------------------------------------------------
  // Container identities on the stack
  // ---------------------------------------------------------------------

  function UsesIn(items: seq<Raw>, id: nat): seq<nat> {
    seq(|items|, i requires 0 <= i < |items| => Uses(items[i], id))
  }

  function PendingUses(pending: seq<(Raw, nat)>, id: nat): seq<nat> {
    seq(|pending|, i requires 0 <= i < |pending| => Uses(pending[i].0, id))
  }

  lemma {:induction false} TotalOfConcat(a: seq<nat>, b: seq<nat>)
    ensures Total(a + b) == Total(a) + Total(b)
  {
    if |b| == 0 {
      assert a + b == a;
    } else {
      TotalOfConcat(a, b[..|b| - 1]);
      assert (a + b)[..|a + b| - 1] == a + b[..|b| - 1];
    }
  }

  lemma UsesPushed(before: seq<(Raw, nat)>, items: seq<Raw>, depth: nat, id: nat)
    ensures Total(PendingUses(before + Children(items, depth), id)) ==
            Total(PendingUses(before, id)) + Total(UsesIn(items, id))
  {
    hide Total, Uses;
    assert PendingUses(before + Children(items, depth), id) == PendingUses(before, id) + UsesIn(items, id);
    TotalOfConcat(PendingUses(before, id), UsesIn(items, id));
  }

  lemma UsesPopped(pending: seq<(Raw, nat)>, id: nat)
    requires |pending| > 0
    ensures Total(PendingUses(pending, id)) ==
            Total(PendingUses(pending[..|pending| - 1], id)) + Uses(pending[|pending| - 1].0, id)
  {
    hide Uses;
    assert PendingUses(pending, id)[..|pending| - 1] == PendingUses(pending[..|pending| - 1], id);
  }

  lemma ContainerUses(raw: Raw, id: nat)
    ensures raw.Dict? ==> Uses(raw, id) == One(raw.id == id) + Total(UsesIn(Values(raw.entries), id))
    ensures raw.Sequence? ==> Uses(raw, id) == One(raw.id == id) + Total(UsesIn(raw.items, id))
  {
    hide Total;
    if raw.Dict? {
      assert UsesIn(Values(raw.entries), id) ==
             seq(|raw.entries|, i requires 0 <= i < |raw.entries| => Uses(raw.entries[i].value, id));
    }
    if raw.Sequence? {
      assert UsesIn(raw.items, id) == seq(|raw.items|, i requires 0 <= i < |raw.items| => Uses(raw.items[i], id));
    }
  }

  /** The visited part and the stack add up to the whole schema. */
  ghost predicate Balanced(schema: Raw, pending: seq<(Raw, nat)>, nodes: nat, bytes: nat) {
    var all, left := MeasureOf(schema), MeasurePending(pending);
    && all.nodes == nodes + left.nodes
    && all.bytes == bytes + left.bytes
    && left.depth <= all.depth
    && (all.depth <= MAX_RAW_SCHEMA_DEPTH <==> left.depth <= MAX_RAW_SCHEMA_DEPTH)
  }

  /** The containers seen and those on the stack are the containers of the whole schema. */
  ghost predicate SeenTogether(schema: Raw, pending: seq<(Raw, nat)>, seen: set<nat>) {
    forall id: nat :: Uses(schema, id) == One(id in seen) + Total(PendingUses(pending, id))
  }

  lemma LeafVisited(schema: Raw, pending: seq<(Raw, nat)>, nodes: nat, bytes: nat, size: nat)
    requires Balanced(schema, pending, nodes, bytes) && |pending| > 0
    requires MeasureOf(pending[|pending| - 1].0) == Measure(1, 0, size)
             && pending[|pending| - 1].1 <= MAX_RAW_SCHEMA_DEPTH
    ensures Balanced(schema, pending[..|pending| - 1], nodes + 1, bytes + size)
  {
    hide MeasureOf, MeasurePending;
    Popped(pending);
  }

  lemma LeafSeen(schema: Raw, pending: seq<(Raw, nat)>, seen: set<nat>)
    requires SeenTogether(schema, pending, seen) && |pending| > 0
    requires pending[|pending| - 1].0.Text? || pending[|pending| - 1].0.Scalar?
    ensures SeenTogether(schema, pending[..|pending| - 1], seen)
  {
    hide Total, PendingUses;
    var rest := pending[..|pending| - 1];
    forall id: nat ensures Uses(schema, id) == One(id in seen) + Total(PendingUses(rest, id)) {
      UsesPopped(pending, id);
    }
  }

  lemma ContainerVisited(schema: Raw, pending: seq<(Raw, nat)>, nodes: nat, bytes: nat, keys: nat, items: seq<Raw>)
    requires Balanced(schema, pending, nodes, bytes) && |pending| > 0
    requires var (value, depth) := pending[|pending| - 1];
             MeasureOf(value) == Plus(Measure(1, 0, 2 + keys), Sum(Shares(items, 1))) && depth <= MAX_RAW_SCHEMA_DEPTH
    ensures var (value, depth) := pending[|pending| - 1];
            var pushed := pending[..|pending| - 1] + Children(items, depth + 1);
            && nodes + 1 + |pushed| <= MeasureOf(schema).nodes
            && bytes + 2 + keys <= MeasureOf(schema).bytes
            && Balanced(schema, pushed, nodes + 1, bytes + 2 + keys)
  {
    hide MeasureOf, Sum, Shares, MeasurePending, Children;
    var (value, depth) := pending[|pending| - 1];
    var rest := pending[..|pending| - 1];
    Popped(pending);
    ItemsPushed(rest, items, depth);
    PendingSize(rest + Children(items, depth + 1));
  }

  lemma ContainerSeen(schema: Raw, pending: seq<(Raw, nat)>, seen: set<nat>, own: nat, items: seq<Raw>)
    requires SeenTogether(schema, pending, seen) && |pending| > 0
    requires forall id: nat :: Uses(pending[|pending| - 1].0, id) == One(own == id) + Total(UsesIn(items, id))
    ensures own in seen ==> !IsTree(schema)
    ensures var pushed := pending[..|pending| - 1] + Children(items, pending[|pending| - 1].1 + 1);
            own !in seen ==> SeenTogether(schema, pushed, seen + {own})
  {
    hide Uses, Total, UsesIn, PendingUses, Children;
    var rest, depth := pending[..|pending| - 1], pending[|pending| - 1].1;
    UsesPopped(pending, own);
    var last := pending[|pending| - 1].0;
    assert Uses(last, own) == One(own == own) + Total(UsesIn(items, own));
    assert Uses(schema, own) == One(own in seen) + Total(PendingUses(pending, own));
    assert own in seen ==> Uses(schema, own) >= 2;
    if own !in seen {
      forall id: nat
        ensures Uses(schema, id) == One(id in seen + {own}) + Total(PendingUses(rest + Children(items, depth + 1), id))
      {
        UsesPopped(pending, id);
        UsesPushed(rest, items, depth + 1, id);
      }
    }
  }

  /** What one error says about the schema. */
  ghost predicate Justified(schema: Raw, error: ToolSchemaError) {
    var m := MeasureOf(schema);
    match error
    case DepthLimit => m.depth > MAX_RAW_SCHEMA_DEPTH
    case NodeLimit => m.nodes > MAX_EXPANDED_NODES
    case SizeLimit => m.bytes > MAX_EXPANDED_BYTES
    case RecursiveContainer => !IsTree(schema)
    case _ => false
  }

  /** What is left of the unfolding at this depth. */
  function FuelAt(depth: nat): nat {
    if depth <= MAX_RAW_SCHEMA_DEPTH + 1 then MAX_RAW_SCHEMA_DEPTH + 1 - depth else 0
  }

  /** The stack as the unfolded schema sees it. */
  function Shadow(heap: Heap, pending: seq<(Slot, nat)>): seq<(Raw, nat)> {
    seq(|pending|, i requires 0 <= i < |pending| => (Unfold(heap, pending[i].0, FuelAt(pending[i].1)), pending[i].1))
  }

  lemma ShadowPopped(heap: Heap, pending: seq<(Slot, nat)>)
    requires |pending| > 0
    ensures var (slot, depth) := pending[|pending| - 1];
            var shadow := Shadow(heap, pending);
            && |shadow| == |pending|
            && shadow[..|shadow| - 1] == Shadow(heap, pending[..|pending| - 1])
            && shadow[|shadow| - 1] == (Unfold(heap, slot, FuelAt(depth)), depth)
            && (slot.TextSlot? ==> shadow[|shadow| - 1].0 == Text(slot.chars))
            && (slot.ScalarSlot? ==> shadow[|shadow| - 1].0 == Scalar)
  {
  }

  lemma TextMeasure(chars: string)
    ensures MeasureOf(Text(chars)) == Measure(1, 0, Json.Utf8Length(chars)) && MeasureOf(Scalar) == Measure(1, 0, 8)
  {
    hide Json.Utf8Length;
  }

  /**
   `_preflight_raw_schema`. It accepts a value exactly when the tree it unfolds to is
   acceptable; the second loop invariant bounds visited plus pending nodes throughout.
   */
  method PreflightRawSchema(heap: Heap, schema: Slot) returns (r: Result<(), ToolSchemaError>)
    ensures r.Ok? <==> Acceptable(Unfolded(heap, schema))
    ensures r.Err? ==> Justified(Unfolded(heap, schema), r.error)
  {
    hide Json.Utf8Length, KeysBytes, MeasurePending, Sum, SeenTogether, IsTree, Unfold, Unfolded, Shadow;
    ghost var tree := Unfolded(heap, schema);
    var pending: seq<(Slot, nat)> := [(schema, 0)];
    var seenContainers: set<nat> := {};
    var nodes: nat, basicBytes: nat := 0, 0;
    StartIsBalanced(tree);
    StartShadow(heap, schema);
    while pending != []
      invariant Balanced(tree, Shadow(heap, pending), nodes, basicBytes)
                && SeenTogether(tree, Shadow(heap, pending), seenContainers)
      invariant nodes + |pending| <= MAX_EXPANDED_NODES && basicBytes <= MAX_EXPANDED_BYTES
      decreases MeasurePending(Shadow(heap, pending)).nodes
    {
      var before := pending;
      ghost var shadow := Shadow(heap, before);
      ShadowPopped(heap, before);
      Popped(shadow);
      PendingSize(shadow);
      var (value, depth) := pending[|pending| - 1];
      pending := pending[..|pending| - 1];
      nodes := nodes + 1;
      if depth > MAX_RAW_SCHEMA_DEPTH { return Err(DepthLimit); }
      if nodes > MAX_EXPANDED_NODES { return Err(NodeLimit); }
      match value {
      case TextSlot(chars) =>
        TextMeasure(chars);
        LeafVisited(tree, shadow, nodes - 1, basicBytes, Json.Utf8Length(chars));
        LeafSeen(tree, shadow, seenContainers);
        basicBytes := basicBytes + Json.Utf8Length(chars);
      case ScalarSlot =>
        TextMeasure("");
        LeafVisited(tree, shadow, nodes - 1, basicBytes, 8);
        LeafSeen(tree, shadow, seenContainers);
        basicBytes := basicBytes + 8;
      case Container(id) =>
        var entered;
        entered, pending, seenContainers, basicBytes :=
          VisitContainer(tree, heap, before, id, seenContainers, nodes, basicBytes);
        if entered.Err? { return entered; }
      }
      if basicBytes > MAX_EXPANDED_BYTES { return Err(SizeLimit); }
    }
    EmptyShadow(heap);
    NothingPending(tree, seenContainers);
    return Ok(());
  }

  lemma NothingPending(schema: Raw, seen: set<nat>)
    requires SeenTogether(schema, [], seen)
    ensures MeasurePending([]) == NOTHING && IsTree(schema)
  {
    hide Uses;
  }

  lemma StartIsBalanced(schema: Raw)
    ensures Balanced(schema, [(schema, 0)], 0, 0) && SeenTogether(schema, [(schema, 0)], {})
  {
    hide MeasureOf, Uses;
    var pending: seq<(Raw, nat)> := [(schema, 0)];
    assert pending[..0] == [];
    assert MeasurePending([]) == NOTHING;
    Popped(pending);
    forall id: nat ensures Total(PendingUses(pending, id)) == Uses(schema, id) {
      UsesPopped(pending, id);
      assert Total(PendingUses([], id)) == 0;
    }
  }

  lemma StartShadow(heap: Heap, schema: Slot)
    ensures Shadow(heap, [(schema, 0)]) == [(Unfolded(heap, schema), 0)]
  {
  }

  lemma EmptyShadow(heap: Heap)
    ensures Shadow(heap, []) == []
  {
  }

  // ---------------------------------------------------------------------
  // Opening a container
  // ---------------------------------------------------------------------

  function EntrySlots(entries: seq<SlotEntry>): seq<Slot> {
    seq(|entries|, i requires 0 <= i < |entries| => entries[i].slot)
  }

  function SlotKeys(entries: seq<SlotEntry>): seq<Key> {
    seq(|entries|, i requires 0 <= i < |entries| => entries[i].key)
  }

  function SlotsOf(body: Body): seq<Slot> {
    match body case DictBody(entries) => EntrySlots(entries) case ListBody(items) => items
  }

  function KeysIn(body: Body): seq<Key> {
    match body case DictBody(entries) => SlotKeys(entries) case ListBody(_) => []
  }

  function UnfoldAll(heap: Heap, slots: seq<Slot>, fuel: nat): seq<Raw> {
    seq(|slots|, i requires 0 <= i < |slots| => Unfold(heap, slots[i], fuel))
  }

  lemma UnfoldContainer(heap: Heap, id: nat, fuel: nat)
    requires fuel > 0
    ensures var raw := Unfold(heap, Container(id), fuel);
            match heap(id)
            case DictBody(entries) =>
              raw.Dict? && raw.id == id && |raw.entries| == |entries|
              && forall i :: 0 <= i < |entries| ==>
                   raw.entries[i].key == entries[i].key
                     && raw.entries[i].value == Unfold(heap, entries[i].slot, fuel - 1)
            case ListBody(items) =>
              raw.Sequence? && raw.id == id && raw.items == UnfoldAll(heap, items, fuel - 1)
  {
  }

  /** A container's measure and identities come from its keys and what its slots unfold to. */
  lemma OpenedContainer(heap: Heap, id: nat, fuel: nat, other: nat)
    requires fuel > 0
    ensures var raw, items := Unfold(heap, Container(id), fuel), UnfoldAll(heap, SlotsOf(heap(id)), fuel - 1);
            && MeasureOf(raw) == Plus(Measure(1, 0, 2 + KeysBytes(KeysIn(heap(id)))), Sum(Shares(items, 1)))
            && Uses(raw, other) == One(id == other) + Total(UsesIn(items, other))
  {
    hide Unfold, MeasureOf, Uses, Sum, Shares, Total, UsesIn, Plus;
    UnfoldContainer(heap, id, fuel);
    var raw := Unfold(heap, Container(id), fuel);
    ContainerMeasure(raw);
    ContainerUses(raw, other);
    if heap(id).DictBody? {
      var entries := heap(id).entries;
      assert Values(raw.entries) == UnfoldAll(heap, EntrySlots(entries), fuel - 1);
      assert KeysOf(raw.entries) == SlotKeys(entries);
    }
  }

  function SlotChildren(slots: seq<Slot>, depth: nat): seq<(Slot, nat)> {
    seq(|slots|, i requires 0 <= i < |slots| => (slots[i], depth))
  }

  lemma ShadowPushed(heap: Heap, rest: seq<(Slot, nat)>, slots: seq<Slot>, depth: nat)
    requires depth <= MAX_RAW_SCHEMA_DEPTH
    ensures Shadow(heap, rest + SlotChildren(slots, depth + 1)) ==
            Shadow(heap, rest) + Children(UnfoldAll(heap, slots, FuelAt(depth) - 1), depth + 1)
  {
    hide Unfold;
  }

  /** The branch for containers: the identity test, the node cut-off and the push of the children. */
  method VisitContainer(ghost schema: Raw, heap: Heap, before: seq<(Slot, nat)>, id: nat, seen: set<nat>, nodes: nat,
                        bytes: nat)
    returns (r: Result<(), ToolSchemaError>, pending: seq<(Slot, nat)>, newSeen: set<nat>, newBytes: nat)
    requires |before| > 0 && before[|before| - 1].0 == Container(id)
    requires nodes > 0 && before[|before| - 1].1 <= MAX_RAW_SCHEMA_DEPTH
    requires Balanced(schema, Shadow(heap, before), nodes - 1, bytes)
             && SeenTogether(schema, Shadow(heap, before), seen)
    ensures r.Err? ==> Justified(schema, r.error)
    ensures r.Ok? ==> nodes + |pending| <= MAX_EXPANDED_NODES
                      && Balanced(schema, Shadow(heap, pending), nodes, newBytes)
                      && SeenTogether(schema, Shadow(heap, pending), newSeen)
  {
    hide Json.Utf8Length, KeysBytes, MeasurePending, Balanced, IsTree, Justified, Plus, Sum, Shares,
         SeenTogether, Uses, Total, UsesIn, MeasureOf, Unfold, Shadow, Children, KeysIn, SlotsOf, UnfoldAll;
    newSeen, newBytes := seen, bytes;
    var depth := before[|before| - 1].1;
    pending := before[..|before| - 1];
    ghost var shadow, slots := Shadow(heap, before), SlotsOf(heap(id));
    ghost var items := UnfoldAll(heap, slots, FuelAt(depth) - 1);
    ShadowPopped(heap, before);
    OpenedContainer(heap, id, FuelAt(depth), 0);
    forall other: nat { OpenedContainer(heap, id, FuelAt(depth), other); }
    ContainerVisited(schema, shadow, nodes - 1, bytes, KeysBytes(KeysIn(heap(id))), items);
    ContainerSeen(schema, shadow, seen, id, items);
    ShadowPushed(heap, pending, slots, depth);
    ShadowLength(heap, pending + SlotChildren(slots, depth + 1));
    NamedErrors(schema);
    if id in newSeen { return Err(RecursiveContainer), pending, newSeen, newBytes; }
    newSeen := newSeen + {id};
    newBytes := newBytes + 2;
    BodyParts(heap(id));
    match heap(id) {
    case DictBody(entries) =>
      if nodes + |pending| + |entries| > MAX_EXPANDED_NODES { return Err(NodeLimit), pending, newSeen, newBytes; }
      pending, newBytes := PushEntries(pending, newBytes, entries, depth);
    case ListBody(listed) =>
      if nodes + |pending| + |listed| > MAX_EXPANDED_NODES { return Err(NodeLimit), pending, newSeen, newBytes; }
      pending := pending + SlotChildren(listed, depth + 1);
    }
    r := Ok(());
  }

  lemma ShadowLength(heap: Heap, pending: seq<(Slot, nat)>)
    ensures |Shadow(heap, pending)| == |pending|
  {
  }

  lemma BodyParts(body: Body)
    ensures body.DictBody? ==> SlotsOf(body) == EntrySlots(body.entries) && KeysIn(body) == SlotKeys(body.entries)
    ensures body.DictBody? ==> |SlotsOf(body)| == |body.entries|
    ensures body.ListBody? ==> SlotsOf(body) == body.items && KeysBytes(KeysIn(body)) == 0
  {
  }

  lemma NamedErrors(schema: Raw)
    ensures MeasureOf(schema).nodes > MAX_EXPANDED_NODES ==> Justified(schema, NodeLimit)
    ensures !IsTree(schema) ==> Justified(schema, RecursiveContainer)
  {
    hide MeasureOf, IsTree;
  }

  /** The stack with the first `i` values of a dictionary pushed. */
  function Pushed(pending: seq<(Slot, nat)>, entries: seq<SlotEntry>, i: nat, depth: nat): seq<(Slot, nat)>
    requires i <= |entries|
  {
    pending + SlotChildren(EntrySlots(entries[..i]), depth + 1)
  }

  lemma PushedEnds(pending: seq<(Slot, nat)>, entries: seq<SlotEntry>, depth: nat)
    ensures Pushed(pending, entries, 0, depth) == pending && KeysBytes(SlotKeys(entries[..0])) == 0
    ensures Pushed(pending, entries, |entries|, depth) == pending + SlotChildren(EntrySlots(entries), depth + 1)
    ensures entries[..|entries|] == entries
  {
    assert entries[..|entries|] == entries;
    assert SlotChildren(EntrySlots(entries[..0]), depth + 1) == [];
  }

  lemma PushedStep(pending: seq<(Slot, nat)>, entries: seq<SlotEntry>, i: nat, depth: nat)
    requires i < |entries|
    ensures Pushed(pending, entries, i + 1, depth) ==
            Pushed(pending, entries, i, depth) + [(entries[i].slot, depth + 1)]
    ensures KeysBytes(SlotKeys(entries[..i + 1])) == KeysBytes(SlotKeys(entries[..i])) + KeyBytes(entries[i].key)
  {
    hide Json.Utf8Length;
    var before, now := entries[..i], entries[..i + 1];
    assert SlotKeys(now)[..i] == SlotKeys(before);
    assert SlotChildren(EntrySlots(now), depth + 1) ==
           SlotChildren(EntrySlots(before), depth + 1) + [(entries[i].slot, depth + 1)];
  }

  /** The loop over the items of one dictionary. */
  method PushEntries(pending: seq<(Slot, nat)>, basicBytes: nat, entries: seq<SlotEntry>, depth: nat)
    returns (pushed: seq<(Slot, nat)>, bytes: nat)
    ensures pushed == pending + SlotChildren(EntrySlots(entries), depth + 1)
    ensures bytes == basicBytes + KeysBytes(SlotKeys(entries))
  {
    hide EntrySlots, SlotKeys, SlotChildren, KeysBytes, Json.Utf8Length, Pushed;
    pushed, bytes := pending, basicBytes;
    PushedEnds(pending, entries, depth);
    for i := 0 to |entries|
      invariant pushed == Pushed(pending, entries, i, depth)
      invariant bytes == basicBytes + KeysBytes(SlotKeys(entries[..i]))
    {
      PushedStep(pending, entries, i, depth);
      bytes := bytes + match entries[i].key case Name(chars) => Json.Utf8Length(chars) case NoText => 16;
      pushed := pushed + [(entries[i].slot, depth + 1)];
    }
  }

  // ---------------------------------------------------------------------
  // Cycles, and trees that are whole
  // ---------------------------------------------------------------------

  lemma {:induction false} DepthOfPart(parts: seq<Measure>, k: nat)
    requires k < |parts|
    ensures parts[k].depth <= Sum(parts).depth
  {
    if k < |parts| - 1 { DepthOfPart(parts[..|parts| - 1], k); }
  }

  /** A slot stands one level below its container. */
  lemma SlotIsDeeper(heap: Heap, id: nat, fuel: nat, k: nat)
    requires fuel > 0 && k < |SlotsOf(heap(id))|
    ensures MeasureOf(Unfold(heap, SlotsOf(heap(id))[k], fuel - 1)).depth <
            MeasureOf(Unfold(heap, Container(id), fuel)).depth
  {
    hide Unfold, MeasureOf, Sum, KeysBytes, SlotsOf;
    OpenedContainer(heap, id, fuel, 0);
    var items := UnfoldAll(heap, SlotsOf(heap(id)), fuel - 1);
    DepthOfPart(Shares(items, 1), k);
  }

  /** Each container of the chain is held by the one before it. */
  ghost predicate IsChain(heap: Heap, ids: seq<nat>) {
    |ids| > 0 && forall i :: 0 <= i < |ids| - 1 ==> Container(ids[i + 1]) in SlotsOf(heap(ids[i]))
  }

  lemma {:induction false} ChainIsDeep(heap: Heap, ids: seq<nat>, fuel: nat)
    requires IsChain(heap, ids) && |ids| - 1 <= fuel
    ensures MeasureOf(Unfold(heap, Container(ids[0]), fuel)).depth >= |ids| - 1
    decreases |ids|
  {
    hide Unfold, MeasureOf, SlotsOf;
    if |ids| > 1 {
      assert Container(ids[1]) in SlotsOf(heap(ids[0]));
      var k: nat :| k < |SlotsOf(heap(ids[0]))| && SlotsOf(heap(ids[0]))[k] == Container(ids[1]);
      ChainIsDeep(heap, ids[1..], fuel - 1);
      SlotIsDeeper(heap, ids[0], fuel, k);
    }
  }

  /** Going round a cycle often enough gives a chain of any length. */
  lemma {:induction false} RoundAndRound(heap: Heap, cycle: seq<nat>, n: nat) returns (ids: seq<nat>)
    requires |cycle| > 0 && IsChain(heap, cycle + [cycle[0]])
    ensures IsChain(heap, ids) && |ids| == n + 1 && ids[0] == cycle[0]
    decreases n
  {
    var closed := cycle + [cycle[0]];
    if n < |cycle| {
      ids := closed[..n + 1];
    } else {
      var rest := RoundAndRound(heap, cycle, n - |cycle|);
      ids := cycle + rest;
      forall i | 0 <= i < |ids| - 1 ensures Container(ids[i + 1]) in SlotsOf(heap(ids[i])) {
        if i < |cycle| {
          assert ids[i] == closed[i] && ids[i + 1] == closed[i + 1];
        } else {
          assert ids[i] == rest[i - |cycle|] && ids[i + 1] == rest[i - |cycle| + 1];
        }
      }
    }
  }

  /** A schema from which a container that holds itself can be reached is never accepted. */
  lemma CyclicIsRefused(heap: Heap, path: seq<nat>, cycle: seq<nat>)
    requires |cycle| > 0 && IsChain(heap, path + [cycle[0]]) && IsChain(heap, cycle + [cycle[0]])
    ensures !Acceptable(Unfolded(heap, Container((path + [cycle[0]])[0])))
  {
    hide Unfold, MeasureOf, SlotsOf;
    var round := RoundAndRound(heap, cycle, MAX_RAW_SCHEMA_DEPTH + 1);
    var start := path + [cycle[0]];
    var ids := path + round;
    forall i | 0 <= i < |ids| - 1 ensures Container(ids[i + 1]) in SlotsOf(heap(ids[i])) {
      if i < |path| {
        assert ids[i] == start[i] && ids[i + 1] == start[i + 1];
      } else {
        assert ids[i] == round[i - |path|] && ids[i + 1] == round[i - |path| + 1];
      }
    }
    var head := ids[..MAX_RAW_SCHEMA_DEPTH + 2];
    assert IsChain(heap, head);
    ChainIsDeep(heap, head, MAX_RAW_SCHEMA_DEPTH + 1);
  }

  /** A tree whose depth stays below the cut is whole: more levels would not change it. */
  lemma {:induction false} ShallowIsWhole(heap: Heap, slot: Slot, fuel: nat)
    requires MeasureOf(Unfold(heap, slot, fuel)).depth < fuel
    ensures Unfold(heap, slot, fuel + 1) == Unfold(heap, slot, fuel)
    decreases fuel
  {
    if slot.Container? {
      hide Unfold, MeasureOf, Acceptable;
      var slots := SlotsOf(heap(slot.id));
      forall k | 0 <= k < |slots| ensures Unfold(heap, slots[k], fuel) == Unfold(heap, slots[k], fuel - 1) {
        SlotIsDeeper(heap, slot.id, fuel, k);
        ShallowIsWhole(heap, slots[k], fuel - 1);
      }
      SameSlotsSameTree(heap, slot.id, fuel);
    }
  }

  lemma SameSlotsSameTree(heap: Heap, id: nat, fuel: nat)
    requires fuel > 0
    requires var slots := SlotsOf(heap(id));
             forall k :: 0 <= k < |slots| ==> Unfold(heap, slots[k], fuel) == Unfold(heap, slots[k], fuel - 1)
    ensures Unfold(heap, Container(id), fuel + 1) == Unfold(heap, Container(id), fuel)
  {
    hide Unfold;
    UnfoldContainer(heap, id, fuel);
    UnfoldContainer(heap, id, fuel + 1);
    var a, b := Unfold(heap, Container(id), fuel), Unfold(heap, Container(id), fuel + 1);
    match heap(id) {
    case DictBody(entries) =>
      forall k | 0 <= k < |entries| ensures a.entries[k] == b.entries[k] {
        assert SlotsOf(heap(id))[k] == entries[k].slot;
      }
      assert a.entries == b.entries;
    case ListBody(items) =>
      assert SlotsOf(heap(id)) == items;
      forall k | 0 <= k < |items| ensures a.items[k] == b.items[k] {}
      assert a.items == b.items;
    }
  }

  /** What the preflight accepts has been measured in full, however far one unfolds it. */
  lemma {:induction false} AcceptedIsWhole(heap: Heap, schema: Slot, fuel: nat)
    requires Acceptable(Unfolded(heap, schema)) && fuel > MAX_RAW_SCHEMA_DEPTH
    ensures Unfold(heap, schema, fuel) == Unfolded(heap, schema)
    decreases fuel
  {
    hide Unfold, MeasureOf;
    if fuel > MAX_RAW_SCHEMA_DEPTH + 1 {
      AcceptedIsWhole(heap, schema, fuel - 1);
      ShallowIsWhole(heap, schema, fuel - 1);
    }
  }
}
