/**
 The content hash of a data manifest: its items in canonical order, with the request
 and the analysis date, printed and hashed. The printing and SHA-256 together are an
 injective function of the payload here.
 */
module ManifestHash {
  import opened Outcomes
  import opened Sorting

  datatype Item = Item(
    product: string,
    instrumentId: Option<int>,
    versionRef: string,
    sourceBatchId: Option<int>,
    contentSha256: string,
    maxObservationDate: Option<int>)

  datatype Manifest = Manifest(
    snapshotId: string,
    manifestSha256: string,
    candidateRequestId: Option<int>,
    analysisDate: int,
    items: seq<Item>)

  datatype Payload = Payload(candidateRequestId: int, analysisDate: int, items: seq<Item>)

  type Digest = Payload -> string

  ghost predicate Injective(digest: Digest) {
    forall p, q :: digest(p) == digest(q) ==> p == q
  }

  /** A missing instrument sorts as instrument 0. */
  function InstrumentKey(item: Item): int {
    match item.instrumentId case Some(n) => n case None => 0
  }

  predicate ItemLe(a: Item, b: Item) {
    if a.product != b.product then TextLe(a.product, b.product)
    else if InstrumentKey(a) != InstrumentKey(b) then InstrumentKey(a) < InstrumentKey(b)
    else TextLe(a.versionRef, b.versionRef)
  }

  lemma ItemOrder()
    ensures IsOrder((a: Item, b: Item) => ItemLe(a, b))
  {
    hide TextLe;
    forall x: Item, y: Item ensures ItemLe(x, y) || ItemLe(y, x) {
      TextLeTotal(x.product, y.product);
      TextLeTotal(x.versionRef, y.versionRef);
    }
    forall x: Item, y: Item, z: Item | ItemLe(x, y) && ItemLe(y, z) ensures ItemLe(x, z) {
      TextLeTotal(x.product, y.product);
      if TextLe(x.product, y.product) && TextLe(y.product, z.product) {
        TextLeTransitive(x.product, y.product, z.product);
      }
      TextLeTotal(x.product, z.product);
      TextLeTotal(y.product, z.product);
      if TextLe(x.versionRef, y.versionRef) && TextLe(y.versionRef, z.versionRef) {
        TextLeTransitive(x.versionRef, y.versionRef, z.versionRef);
      }
    }
  }

  function CanonicalPayload(manifest: Manifest): Option<Payload> {
    match manifest.candidateRequestId
    case None => None
    case Some(id) => Some(Payload(id, manifest.analysisDate, Sort(manifest.items, (a, b) => ItemLe(a, b))))
  }

  /** `calculate_manifest_sha256`. */
  function CalculateSha(digest: Digest, manifest: Manifest): Option<string> {
    match CanonicalPayload(manifest) case None => None case Some(p) => Some(digest(p))
  }

  /** No two different items share product, instrument (a missing one counts as 0) and version. */
  ghost predicate KeysIdentifyItems(items: seq<Item>) {
    forall a, b :: a in items && b in items && ItemLe(a, b) && ItemLe(b, a) ==> a == b
  }

  lemma KeysAreColumns(items: seq<Item>)
    ensures KeysIdentifyItems(items) <==>
            forall a, b :: a in items && b in items && a.product == b.product && a.versionRef == b.versionRef
                           && (if a.instrumentId == None then 0 else a.instrumentId.value)
                              == (if b.instrumentId == None then 0 else b.instrumentId.value)
                           ==> a == b
  {
    forall a: Item, b: Item
      ensures ItemLe(a, b) && ItemLe(b, a) <==>
              a.product == b.product && a.versionRef == b.versionRef && InstrumentKey(a) == InstrumentKey(b)
    {
      SameKey(a, b);
    }
    hide ItemLe;
  }

  lemma SameKey(a: Item, b: Item)
    ensures ItemLe(a, b) && ItemLe(b, a) <==>
            a.product == b.product && a.versionRef == b.versionRef && InstrumentKey(a) == InstrumentKey(b)
  {
    hide TextLe;
    TextLeTotal(a.product, b.product);
    TextLeTotal(a.versionRef, b.versionRef);
  }

  /**
   The hash does not depend on the order in which the items arrive exactly when the
   sort key tells all different items apart.
   */
  lemma HashIgnoresOrderExactlyWhenKeysIdentify(digest: Digest, manifest: Manifest)
    requires Injective(digest) && manifest.candidateRequestId.Some?
    ensures KeysIdentifyItems(manifest.items) <==>
            forall items :: multiset(items) == multiset(manifest.items) ==>
              CalculateSha(digest, manifest.(items := items)) == CalculateSha(digest, manifest)
  {
    var le := (a: Item, b: Item) => ItemLe(a, b);
    ItemOrder();
    assert IsOrder(le);
    assert KeysIdentifyItems(manifest.items) <==> KeysAreUnique(manifest.items, le);
    if KeysIdentifyItems(manifest.items) {
      forall items | multiset(items) == multiset(manifest.items)
        ensures CalculateSha(digest, manifest.(items := items)) == CalculateSha(digest, manifest)
      {
        SortForgetsOrder(manifest.items, items, le);
      }
    } else {
      SortSeesOrder(manifest.items, le);
      var items :| multiset(items) == multiset(manifest.items) && Sort(items, le) != Sort(manifest.items, le);
      assert CalculateSha(digest, manifest.(items := items)) != CalculateSha(digest, manifest);
    }
  }

  /** Equal hashes mean the same request, date and items, up to order. */
  lemma HashPinsContent(digest: Digest, a: Manifest, b: Manifest)
    requires Injective(digest)
    requires CalculateSha(digest, a).Some? && CalculateSha(digest, a) == CalculateSha(digest, b)
    ensures a.candidateRequestId == b.candidateRequestId && a.analysisDate == b.analysisDate
    ensures multiset(a.items) == multiset(b.items)
  {
    var le := (x: Item, y: Item) => ItemLe(x, y);
    SortPermutes(a.items, le);
    SortPermutes(b.items, le);
    assert CanonicalPayload(a) == CanonicalPayload(b);
  }
}
