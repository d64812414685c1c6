/**
 What the preflight accepts, over the values of a schema alone: how many there are, how deep
 they stand, what they weigh, and that no container is met twice.
 */
module PreflightSpots {
  import opened Outcomes
  import Json
  import opened JsonPointer
  import opened SchemaExpansion
  import opened Preflight

  /** A value inside a schema, and how many containers enclose it. */
  datatype Spot = Spot(raw: Raw, level: nat)

  /** Every value inside `raw`, itself included, when `raw` stands at `level`. */
  ghost function Spots(raw: Raw, level: nat): seq<Spot>
    decreases raw, 0
  {
    match raw
    case Dict(_, entries) => [Spot(raw, level)] + EntrySpots(entries, level + 1)
    case Sequence(_, items) => [Spot(raw, level)] + ItemSpots(items, level + 1)
    case _ => [Spot(raw, level)]
  }

  ghost function EntrySpots(entries: seq<Entry>, level: nat): seq<Spot>
    decreases entries, 0
  {
    if |entries| == 0 then []
    else
      EntrySpots(entries[..|entries| - 1], level) + ValueSpots(entries[|entries| - 1], level)
  }

  ghost function ValueSpots(entry: Entry, level: nat): seq<Spot>
    decreases entry, 1
  {
    Spots(entry.value, level)
  }

  ghost function ItemSpots(items: seq<Raw>, level: nat): seq<Spot>
    decreases items, 0
  {
    if |items| == 0 then [] else ItemSpots(items[..|items| - 1], level) + Spots(items[|items| - 1], level)
  }

  ghost function KeyWeights(entries: seq<Entry>): nat {
    if |entries| == 0 then 0
    else
      var key := entries[|entries| - 1].key;
      KeyWeights(entries[..|entries| - 1]) + if key.Name? then Json.Utf8Length(key.chars) else 16
  }

  /** What one value adds by itself. */
  ghost function Weight(raw: Raw): nat {
    match raw
    case Text(chars) => Json.Utf8Length(chars)
    case Scalar => 8
    case Dict(_, entries) => 2 + KeyWeights(entries)
    case Sequence(_, _) => 2
  }

  ghost function TotalWeight(spots: seq<Spot>): nat {
    if |spots| == 0 then 0 else TotalWeight(spots[..|spots| - 1]) + Weight(spots[|spots| - 1].raw)
  }

  /** The deepest level, and at least `level`. */
  ghost function Deepest(spots: seq<Spot>, level: nat): nat {
    if |spots| == 0 then level else Max(Deepest(spots[..|spots| - 1], level), spots[|spots| - 1].level)
  }

  ghost predicate IsContainer(raw: Raw) {
    raw.Dict? || raw.Sequence?
  }

  ghost function CountOf(spots: seq<Spot>, id: nat): nat {
    if |spots| == 0 then 0
    else
      var last := spots[|spots| - 1].raw;
      CountOf(spots[..|spots| - 1], id) + if IsContainer(last) && last.id == id then 1 else 0
  }

  // ---------------------------------------------------------------------
  // Spots of parts
  // ---------------------------------------------------------------------

  lemma {:induction false} Concatenated(a: seq<Spot>, b: seq<Spot>, level: nat, id: nat)
    ensures TotalWeight(a + b) == TotalWeight(a) + TotalWeight(b)
    ensures Deepest(a + b, level) == Max(Deepest(a, level), Deepest(b, level)) && Deepest(b, level) >= level
    ensures CountOf(a + b, id) == CountOf(a, id) + CountOf(b, id)
  {
    hide Weight;
    if |b| == 0 {
      assert a + b == a;
      AtLeast(a, level);
    } else {
      Concatenated(a, b[..|b| - 1], level, id);
      assert (a + b)[..|a + b| - 1] == a + b[..|b| - 1];
    }
  }

  lemma {:induction false} AtLeast(spots: seq<Spot>, level: nat)
    ensures Deepest(spots, level) >= level
    ensures forall s :: s in spots ==> s.level <= Deepest(spots, level)
  {
    if |spots| > 0 {
      var before := spots[..|spots| - 1];
      AtLeast(before, level);
      assert forall s :: s in spots ==> s in before || s == spots[|spots| - 1];
    }
  }

  lemma {:induction false} AtMost(spots: seq<Spot>, level: nat, bound: nat)
    requires level <= bound && forall s :: s in spots ==> s.level <= bound
    ensures Deepest(spots, level) <= bound
  {
    if |spots| > 0 { AtMost(spots[..|spots| - 1], level, bound); }
  }

  lemma {:induction false} FromBelow(spots: seq<Spot>, level: nat, below: nat)
    requires below <= level
    ensures Max(Deepest(spots, below), level) == Deepest(spots, level)
  {
    if |spots| > 0 { FromBelow(spots[..|spots| - 1], level, below); }
  }

  /** A measure tells number, weight and depth of these values. */
  ghost predicate Tells(m: Measure, spots: seq<Spot>, level: nat) {
    m.nodes == |spots| && m.bytes == TotalWeight(spots) && level + m.depth == Deepest(spots, level)
  }

  lemma PartsTell(a: Measure, s: seq<Spot>, b: Measure, t: seq<Spot>, level: nat)
    requires Tells(a, s, level) && Tells(b, t, level)
    ensures Tells(Plus(a, b), s + t, level)
  {
    Concatenated(s, t, level, 0);
  }

  lemma InsideTells(m: Measure, spots: seq<Spot>, level: nat)
    requires Tells(m, spots, level + 1) && |spots| > 0 && spots[0].level >= level + 1
    ensures Tells(Lowered(m, 1), spots, level)
  {
    FromBelow(spots, level + 1, level);
    AtLeast(spots, level);
    assert spots[0] in spots;
  }

  lemma OneTells(raw: Raw, level: nat)
    ensures Tells(Measure(1, 0, Weight(raw)), [Spot(raw, level)], level)
  {
    var one := [Spot(raw, level)];
    assert one[..0] == [] && one[0] == Spot(raw, level);
    assert TotalWeight(one[..0]) == 0 && Deepest(one[..0], level) == level;
    hide Weight;
  }

  lemma NoneTells(level: nat)
    ensures Tells(NOTHING, [], level)
  {
  }

  lemma FirstSpot(raw: Raw, level: nat)
    ensures |Spots(raw, level)| > 0 && Spots(raw, level)[0] == Spot(raw, level)
  {
    hide EntrySpots, ItemSpots;
  }

  lemma {:induction false} KeysWeigh(entries: seq<Entry>)
    ensures KeyWeights(entries) == KeysBytes(KeysOf(entries))
  {
    if |entries| > 0 {
      KeysWeigh(entries[..|entries| - 1]);
      assert KeysOf(entries)[..|entries| - 1] == KeysOf(entries[..|entries| - 1]);
    }
  }

  // ---------------------------------------------------------------------
  // The measure tells the spots
  // ---------------------------------------------------------------------

  lemma {:induction false} MeasureTells(raw: Raw, level: nat)
    ensures Tells(MeasureOf(raw), Spots(raw, level), level)
    decreases raw, 0
  {
    OneTells(raw, level);
    match raw
    case Dict(_, entries) =>
      EntriesTell(entries, level);
      DictTells(raw, level);
    case Sequence(_, items) =>
      ItemsTell(items, level);
      SequenceTells(raw, level);
    case _ =>
  }

  lemma {:induction false} ValueTells(entry: Entry, level: nat)
    ensures Tells(MeasureOf(entry.value), Spots(entry.value, level), level)
    decreases entry, 1
  {
    MeasureTells(entry.value, level);
  }

  lemma DictTells(raw: Raw, level: nat)
    requires raw.Dict? && Tells(Measure(1, 0, Weight(raw)), [Spot(raw, level)], level)
    requires Tells(Sum(Shares(Values(raw.entries), 1)), EntrySpots(raw.entries, level + 1), level)
    ensures Tells(MeasureOf(raw), Spots(raw, level), level)
  {
    hide *;
    ContainerMeasure(raw);
    DictParts(raw, level);
    DictWeighs(raw);
    PartsTell(Measure(1, 0, Weight(raw)), [Spot(raw, level)],
              Sum(Shares(Values(raw.entries), 1)), EntrySpots(raw.entries, level + 1), level);
  }

  lemma DictWeighs(raw: Raw)
    requires raw.Dict?
    ensures Weight(raw) == 2 + KeysBytes(KeysOf(raw.entries))
  {
    KeysWeigh(raw.entries);
    hide KeyWeights, KeysBytes, KeysOf;
  }

  lemma DictParts(raw: Raw, level: nat)
    requires raw.Dict?
    ensures Spots(raw, level) == [Spot(raw, level)] + EntrySpots(raw.entries, level + 1)
  {
    hide EntrySpots;
  }

  lemma SequenceTells(raw: Raw, level: nat)
    requires raw.Sequence? && Tells(Measure(1, 0, Weight(raw)), [Spot(raw, level)], level)
    requires Tells(Sum(Shares(raw.items, 1)), ItemSpots(raw.items, level + 1), level)
    ensures Tells(MeasureOf(raw), Spots(raw, level), level)
  {
    ContainerMeasure(raw);
    hide Tells, Sum, ItemSpots, MeasureOf, Shares;
    PartsTell(Measure(1, 0, Weight(raw)), [Spot(raw, level)],
              Sum(Shares(raw.items, 1)), ItemSpots(raw.items, level + 1), level);
  }

  lemma {:induction false} ItemsTell(items: seq<Raw>, level: nat)
    ensures Tells(Sum(Shares(items, 1)), ItemSpots(items, level + 1), level)
    decreases items, 0
  {
    hide MeasureOf, Spots, Tells;
    if |items| == 0 {
      NoneTells(level);
    } else {
      var before, last := items[..|items| - 1], items[|items| - 1];
      ItemsTell(before, level);
      MeasureTells(last, level + 1);
      FirstSpot(last, level + 1);
      InsideTells(MeasureOf(last), Spots(last, level + 1), level);
      PartsTell(Sum(Shares(before, 1)), ItemSpots(before, level + 1),
                Lowered(MeasureOf(last), 1), Spots(last, level + 1), level);
      assert Shares(items, 1)[..|items| - 1] == Shares(before, 1);
    }
  }

  lemma {:induction false} EntriesTell(entries: seq<Entry>, level: nat)
    ensures Tells(Sum(Shares(Values(entries), 1)), EntrySpots(entries, level + 1), level)
    decreases entries, 0
  {
    hide MeasureOf, Spots, Tells;
    if |entries| == 0 {
      NoneTells(level);
    } else {
      var before, entry := entries[..|entries| - 1], entries[|entries| - 1];
      var last := entry.value;
      EntriesTell(before, level);
      ValueTells(entry, level + 1);
      FirstSpot(last, level + 1);
      InsideTells(MeasureOf(last), Spots(last, level + 1), level);
      PartsTell(Sum(Shares(Values(before), 1)), EntrySpots(before, level + 1),
                Lowered(MeasureOf(last), 1), Spots(last, level + 1), level);
      assert Shares(Values(entries), 1)[..|entries| - 1] == Shares(Values(before), 1);
    }
  }

  // ---------------------------------------------------------------------
  // Identities
  // ---------------------------------------------------------------------

  lemma {:induction false} UsesTell(raw: Raw, level: nat, id: nat)
    ensures Uses(raw, id) == CountOf(Spots(raw, level), id)
    decreases raw, 0
  {
    ContainerUses(raw, id);
    var one := [Spot(raw, level)];
    assert one[..0] == [] && CountOf(one[..0], id) == 0;
    assert CountOf(one, id) == if IsContainer(raw) && raw.id == id then 1 else 0;
    match raw
    case Dict(_, entries) =>
      EntryUsesTell(entries, level + 1, id);
      hide CountOf, Total, EntrySpots;
      Concatenated(one, EntrySpots(entries, level + 1), level, id);
    case Sequence(_, items) =>
      ItemUsesTell(items, level + 1, id);
      hide CountOf, Total, ItemSpots;
      Concatenated(one, ItemSpots(items, level + 1), level, id);
    case _ =>
  }

  lemma {:induction false} ValueUsesTell(entry: Entry, level: nat, id: nat)
    ensures Uses(entry.value, id) == CountOf(Spots(entry.value, level), id)
    decreases entry, 1
  {
    UsesTell(entry.value, level, id);
  }

  lemma {:induction false} ItemUsesTell(items: seq<Raw>, level: nat, id: nat)
    ensures Total(UsesIn(items, id)) == CountOf(ItemSpots(items, level), id)
    decreases items, 0
  {
    hide Uses, Spots;
    if |items| > 0 {
      var before, last := items[..|items| - 1], items[|items| - 1];
      ItemUsesTell(before, level, id);
      UsesTell(last, level, id);
      Concatenated(ItemSpots(before, level), Spots(last, level), level, id);
      assert UsesIn(items, id)[..|items| - 1] == UsesIn(before, id);
    }
  }

  lemma {:induction false} EntryUsesTell(entries: seq<Entry>, level: nat, id: nat)
    ensures Total(UsesIn(Values(entries), id)) == CountOf(EntrySpots(entries, level), id)
    decreases entries, 0
  {
    hide Uses, Spots;
    if |entries| > 0 {
      var before, entry := entries[..|entries| - 1], entries[|entries| - 1];
      var last := entry.value;
      EntryUsesTell(before, level, id);
      ValueUsesTell(entry, level, id);
      Concatenated(EntrySpots(before, level), Spots(last, level), level, id);
      assert UsesIn(Values(entries), id)[..|entries| - 1] == UsesIn(Values(before), id);
    }
  }

  /** No two of the values are containers with one identity. */
  ghost predicate NoneTwice(spots: seq<Spot>) {
    forall i, j :: 0 <= i < j < |spots| && IsContainer(spots[i].raw) && IsContainer(spots[j].raw) ==>
      spots[i].raw.id != spots[j].raw.id
  }

  lemma {:induction false} CountsSomewhere(spots: seq<Spot>, id: nat)
    ensures CountOf(spots, id) > 0 <==>
            exists i :: 0 <= i < |spots| && IsContainer(spots[i].raw) && spots[i].raw.id == id
  {
    if |spots| > 0 {
      var before := spots[..|spots| - 1];
      CountsSomewhere(before, id);
      assert forall i :: 0 <= i < |before| ==> before[i] == spots[i];
    }
  }

  lemma {:induction false} CountsOnce(spots: seq<Spot>, id: nat)
    requires NoneTwice(spots)
    ensures CountOf(spots, id) <= 1
  {
    if |spots| > 0 {
      var before := spots[..|spots| - 1];
      assert forall i :: 0 <= i < |before| ==> before[i] == spots[i];
      CountsOnce(before, id);
      CountsSomewhere(before, id);
    }
  }

  lemma {:induction false} CountsTwice(spots: seq<Spot>, i: nat, j: nat, id: nat)
    requires i < j < |spots| && IsContainer(spots[i].raw) && IsContainer(spots[j].raw)
    requires spots[i].raw.id == spots[j].raw.id == id
    ensures CountOf(spots, id) >= 2
  {
    var before := spots[..|spots| - 1];
    if j == |before| {
      assert before[i] == spots[i];
      CountsSomewhere(before, id);
    } else {
      CountsTwice(before, i, j, id);
    }
  }

  // ---------------------------------------------------------------------
  // Main result
  // ---------------------------------------------------------------------

  /**
   A schema is acceptable exactly when it has at most 10000 values, none inside more than 128
   containers, together no heavier than a megabyte, and no container among them occurs twice.
   */
  lemma AcceptableOverSpots(schema: Raw)
    ensures var spots := Spots(schema, 0);
            Acceptable(schema) <==>
            && |spots| <= 10_000 && (forall s :: s in spots ==> s.level <= 128)
            && TotalWeight(spots) <= 1_048_576 && NoneTwice(spots)
  {
    var spots := Spots(schema, 0);
    MeasureTells(schema, 0);
    AtLeast(spots, 0);
    if forall s :: s in spots ==> s.level <= 128 { AtMost(spots, 0, 128); }
    TreeOverSpots(schema);
    hide Spots, TotalWeight, Deepest, MeasureOf, NoneTwice, IsTree;
  }

  lemma TreeOverSpots(schema: Raw)
    ensures IsTree(schema) <==> NoneTwice(Spots(schema, 0))
  {
    var spots := Spots(schema, 0);
    if IsTree(schema) {
      forall i, j | 0 <= i < j < |spots| && IsContainer(spots[i].raw) && IsContainer(spots[j].raw)
        ensures spots[i].raw.id != spots[j].raw.id
      {
        var id := spots[i].raw.id;
        UsesTell(schema, 0, id);
        assert Uses(schema, id) <= 1;
        if spots[j].raw.id == id { CountsTwice(spots, i, j, id); }
      }
    }
    if NoneTwice(spots) {
      forall id: nat ensures Uses(schema, id) <= 1 {
        UsesTell(schema, 0, id);
        CountsOnce(spots, id);
      }
    }
  }
}
