/**
 Sequences of submissions, retries, clean reassessments, cancels, deletes and worker
 steps on the assessment store, and what they all keep.
 */
module AssessmentLifecycle {
  import opened Outcomes
  import opened Runs
  import opened AssessmentStore

  // ---------------------------------------------------------------------
  // Inserting requests and runs
  // ---------------------------------------------------------------------

  /** A request with its run, first event and, when data is awaited, its requirement. */
  datatype NewRun = NewRun(instrument: Id, request: Id, run: Id, event: Id, requirement: Option<Id>)

  /** The run that a retry or a clean reassessment starts from. */
  datatype Origin = Original | RetryFrom(run: Id) | CleanFrom(run: Id)

  function RunLinks(request: Id, origin: Origin): map<Column, Id> {
    match origin
    case Original => map[RequestId := request]
    case RetryFrom(run) => map[RequestId := request, RetryOf := run]
    case CleanFrom(run) => map[RequestId := request, CleanOf := run]
  }

  function InitialStatus(n: NewRun): RunStatus {
    if n.requirement.Some? then WaitingForData else Queued
  }

  function WithRequest(s: Store, batch: Id, n: NewRun): Store {
    s[n.request := Row(Requests, map[BatchId := batch, InstrumentId := n.instrument], Nothing)]
  }

  function WithRun(s: Store, n: NewRun, origin: Origin, attempt: nat): Store {
    s[n.run := Row(RunRows, RunLinks(n.request, origin), RunDetail(InitialStatus(n), attempt))]
  }

  function WithChild(s: Store, id: Id, table: Table, run: Id): Store {
    s[id := Row(table, map[RunId := run], Nothing)]
  }

  /** The inserts of one request, in the order of their flushes. */
  function Enrol(s: Store, batch: Id, n: NewRun, origin: Origin, attempt: nat): Store {
    var withRun := WithRun(WithRequest(s, batch, n), n, origin, attempt);
    var withRequirement := match n.requirement
                           case Some(id) => WithChild(withRun, id, Requirements, n.run)
                           case None => withRun;
    WithChild(withRequirement, n.event, Events, n.run)
  }

  predicate FreshIds(s: Store, n: NewRun) {
    && n.request !in s && n.run !in s && n.event !in s
    && n.request != n.run && n.event != n.request && n.event != n.run
    && (n.requirement.Some? ==>
          n.requirement.value !in s && n.requirement.value != n.request && n.requirement.value != n.run
            && n.requirement.value != n.event)
    && n.instrument in s && s[n.instrument].table == Instruments
  }

  function EnrolAll(s: Store, batch: Id, items: seq<NewRun>): Store
    decreases |items|
  {
    if |items| == 0 then s else EnrolAll(Enrol(s, batch, items[0], Original, 1), batch, items[1..])
  }

  predicate AllFresh(s: Store, batch: Id, items: seq<NewRun>)
    decreases |items|
  {
    |items| > 0 ==> FreshIds(s, items[0]) && AllFresh(Enrol(s, batch, items[0], Original, 1), batch, items[1..])
  }

  // ---------------------------------------------------------------------
  // What every state satisfies
  // ---------------------------------------------------------------------

  ghost predicate RequestsHaveRuns(s: Store) {
    forall q :: q in s && s[q].table == Requests ==> Referenced(s, RequestId, q)
  }

  ghost predicate BatchesHaveRequests(s: Store) {
    forall b :: b in s && s[b].table == Batches ==> Referenced(s, BatchId, b)
  }

  ghost predicate OneRunPerRequest(s: Store) {
    forall a, b, q :: a in s && b in s && Links(s, a, RequestId, q) && Links(s, b, RequestId, q) ==> a == b
  }

  /** A run has at most one clean reassessment. */
  ghost predicate OneCleanPerRun(s: Store) {
    forall a, b, r :: Links(s, a, CleanOf, r) && Links(s, b, CleanOf, r) ==> a == b
  }

  /** A batch of a user under an idempotency key. */
  predicate IsKeyed(s: Store, b: Id, user: Id, key: string) {
    Links(s, b, UserId, user) && s[b].table == Batches && s[b].detail.BatchDetail? && s[b].detail.key == key
  }

  ghost predicate OneBatchPerKey(s: Store) {
    forall a, b, user, key :: IsKeyed(s, a, user, key) && IsKeyed(s, b, user, key) ==> a == b
  }

  predicate AttemptFollows(s: Store, r: Id, p: Id) {
    r in s && p in s && s[r].detail.RunDetail? && s[p].detail.RunDetail?
      && s[r].detail.attempt == s[p].detail.attempt + 1
  }

  /** An attempt counts one more than the run it retries. */
  ghost predicate AttemptsCount(s: Store) {
    forall r, p :: Links(s, r, RetryOf, p) ==> AttemptFollows(s, r, p)
  }

  /** All but "every batch has a request", which a submission breaks between its inserts. */
  ghost predicate Core(s: Store) {
    && ForeignKeysHold(s) && ArtifactsStayInRun(s) && RequestsHaveRuns(s) && OneRunPerRequest(s)
    && OneBatchPerKey(s) && AttemptsCount(s) && OneCleanPerRun(s)
  }

  ghost predicate Sound(s: Store) {
    Core(s) && BatchesHaveRequests(s)
  }

  // ---------------------------------------------------------------------
  // Single inserts
  // ---------------------------------------------------------------------

  lemma InsertKeepsForeignKeys(s: Store, id: Id, row: Row)
    requires ForeignKeysHold(s) && id !in s && Typed(row) && Resolves(s, row)
    ensures ForeignKeysHold(s[id := row])
  {
    hide Typed;
    var u := s[id := row];
    forall k | k in u ensures Typed(u[k]) && Resolves(u, u[k]) {
      if k != id { RowIsGood(s, k); }
    }
  }

  /** Rows stay as they are while others are added. */
  ghost predicate Extends(s: Store, u: Store) {
    forall id :: id in s ==> id in u && u[id] == s[id]
  }

  lemma ExtensionKeepsReferences(s: Store, u: Store, c: Column, target: Id)
    requires Extends(s, u) && Referenced(s, c, target)
    ensures Referenced(u, c, target)
  {
    var k :| k in s && Links(s, k, c, target);
    assert Links(u, k, c, target);
  }

  lemma LinksResolve(s: Store, id: Id, c: Column, target: Id)
    requires ForeignKeysHold(s) && Links(s, id, c, target)
    ensures target in s && s[target].table == Target(c)
  {
    RowIsGood(s, id);
  }

  /** A row that is no request, run or batch and names no artifact disturbs nothing. */
  lemma PlainInsertKeepsCore(s: Store, id: Id, row: Row)
    requires Core(s) && id !in s && Typed(row) && Resolves(s, row)
    requires row.table !in {Requests, RunRows, Batches}
    requires RequestId !in row.links && RetryOf !in row.links && CleanOf !in row.links
    requires ArtifactId in row.links && RunId in row.links ==> Links(s, row.links[ArtifactId], RunId, row.links[RunId])
    ensures Core(s[id := row])
  {
    hide ForeignKeysHold, Typed, Resolves, Referenced;
    var u := s[id := row];
    InsertKeepsForeignKeys(s, id, row);
    forall q | q in u && u[q].table == Requests ensures Referenced(u, RequestId, q) {
      ExtensionKeepsReferences(s, u, RequestId, q);
    }
    OldRowsKeepLinks(s, u, id);
  }

  /** Adding one row leaves the links, keys and attempts of the others as they are. */
  lemma OldRowsKeepLinks(s: Store, u: Store, id: Id)
    requires id !in s && id in u && u == s[id := u[id]]
    ensures forall k, c, target :: k != id ==> (Links(u, k, c, target) <==> Links(s, k, c, target))
    ensures forall k, user, key :: k != id ==> (IsKeyed(u, k, user, key) <==> IsKeyed(s, k, user, key))
    ensures forall r, p :: AttemptFollows(s, r, p) ==> AttemptFollows(u, r, p)
  {
  }

  lemma RequestInsert(s: Store, batch: Id, n: NewRun)
    requires Core(s) && FreshIds(s, n) && batch in s && s[batch].table == Batches
    ensures var u := WithRequest(s, batch, n);
            && ForeignKeysHold(u) && ArtifactsStayInRun(u) && OneRunPerRequest(u) && OneBatchPerKey(u)
            && AttemptsCount(u)
            && OneCleanPerRun(u)
    ensures forall q :: q in s && s[q].table == Requests ==> Referenced(WithRequest(s, batch, n), RequestId, q)
    ensures forall k :: !Links(WithRequest(s, batch, n), k, RequestId, n.request)
  {
    hide ForeignKeysHold, Referenced;
    var u := WithRequest(s, batch, n);
    RequestRowInsert(s, batch, n);
    OldRowsKeepLinks(s, u, n.request);
    forall q | q in s && s[q].table == Requests ensures Referenced(u, RequestId, q) {
      ExtensionKeepsReferences(s, u, RequestId, q);
    }
    forall k ensures !Links(u, k, RequestId, n.request) {
      if k != n.request && Links(s, k, RequestId, n.request) { LinksResolve(s, k, RequestId, n.request); }
    }
  }

  /** The run that an origin names exists, an attempt counts up, and a clean reassessment is the first. */
  predicate OriginFits(s: Store, origin: Origin, attempt: nat) {
    match origin
    case Original => true
    case CleanFrom(run) => IsRun(s, run) && !Referenced(s, CleanOf, run)
    case RetryFrom(run) => IsRun(s, run) && s[run].detail.RunDetail? && attempt == s[run].detail.attempt + 1
  }

  lemma RunRowFits(s: Store, n: NewRun, origin: Origin, attempt: nat)
    requires n.request in s && s[n.request].table == Requests && (origin.Original? || IsRun(s, origin.run))
    ensures var row := WithRun(s, n, origin, attempt)[n.run]; Typed(row) && Resolves(s, row)
  {
  }

  lemma RunInsert(s: Store, n: NewRun, origin: Origin, attempt: nat)
    requires ForeignKeysHold(s) && n.run !in s && n.request in s && s[n.request].table == Requests
    requires origin.Original? || IsRun(s, origin.run)
    ensures ForeignKeysHold(WithRun(s, n, origin, attempt))
  {
    RunRowFits(s, n, origin, attempt);
    hide ForeignKeysHold, Typed, Resolves, RunLinks;
    InsertKeepsForeignKeys(s, n.run, WithRun(s, n, origin, attempt)[n.run]);
  }

  lemma ChildInsert(s: Store, id: Id, table: Table, run: Id)
    requires ForeignKeysHold(s) && id !in s && IsRun(s, run) && table in {Requirements, Events}
    ensures ForeignKeysHold(WithChild(s, id, table, run))
  {
    hide ForeignKeysHold;
    InsertKeepsForeignKeys(s, id, WithChild(s, id, table, run)[id]);
  }

  lemma RequestRowInsert(s: Store, batch: Id, n: NewRun)
    requires ForeignKeysHold(s) && FreshIds(s, n) && batch in s && s[batch].table == Batches
    ensures ForeignKeysHold(WithRequest(s, batch, n))
  {
    hide ForeignKeysHold;
    InsertKeepsForeignKeys(s, n.request, WithRequest(s, batch, n)[n.request]);
  }

  lemma RequestAndRunKeepCore(s: Store, batch: Id, n: NewRun, origin: Origin, attempt: nat)
    requires Core(s) && FreshIds(s, n) && batch in s && s[batch].table == Batches && OriginFits(s, origin, attempt)
    ensures Core(WithRun(WithRequest(s, batch, n), n, origin, attempt))
  {
    hide ForeignKeysHold, Referenced;
    var t := WithRequest(s, batch, n);
    var u := WithRun(t, n, origin, attempt);
    RequestInsert(s, batch, n);
    RunInsert(t, n, origin, attempt);
    OldRowsKeepLinks(t, u, n.run);
    forall q | q in u && u[q].table == Requests ensures Referenced(u, RequestId, q) {
      if q == n.request {
        ReferencedBy(u, n.run, RequestId, q);
      } else {
        ExtensionKeepsReferences(t, u, RequestId, q);
      }
    }
    assert ArtifactsStayInRun(u);
    OneCleanStays(s, batch, n, origin, attempt);
  }

  lemma OneCleanStays(s: Store, batch: Id, n: NewRun, origin: Origin, attempt: nat)
    requires OneCleanPerRun(s) && FreshIds(s, n) && OriginFits(s, origin, attempt)
    ensures OneCleanPerRun(WithRun(WithRequest(s, batch, n), n, origin, attempt))
  {
    var u := WithRun(WithRequest(s, batch, n), n, origin, attempt);
    forall k, r | Links(u, k, CleanOf, r)
      ensures if k == n.run then !Referenced(s, CleanOf, r) else Links(s, k, CleanOf, r) && Referenced(s, CleanOf, r)
    {
    }
  }

  lemma ReferencedBy(s: Store, id: Id, c: Column, target: Id)
    requires Links(s, id, c, target)
    ensures Referenced(s, c, target)
  {
  }

  lemma EnrolKeepsCore(s: Store, batch: Id, n: NewRun, origin: Origin, attempt: nat)
    requires Core(s) && FreshIds(s, n) && batch in s && s[batch].table == Batches && OriginFits(s, origin, attempt)
    ensures Core(Enrol(s, batch, n, origin, attempt))
  {
    hide Core;
    RequestAndRunKeepCore(s, batch, n, origin, attempt);
    var t := WithRun(WithRequest(s, batch, n), n, origin, attempt);
    hide WithRun, WithRequest;
    assert t[n.run].table == RunRows;
    var u := t;
    if n.requirement.Some? {
      u := WithChild(t, n.requirement.value, Requirements, n.run);
      PlainInsertKeepsCore(t, n.requirement.value, u[n.requirement.value]);
    }
    PlainInsertKeepsCore(u, n.event, WithChild(u, n.event, Events, n.run)[n.event]);
  }

  /** Rows stay as they are and every batch was there before. */
  ghost predicate GrowsBelow(s: Store, u: Store) {
    Extends(s, u) && forall b :: b in u && u[b].table == Batches ==> b in s
  }

  lemma OneRowGrows(s: Store, id: Id, row: Row)
    requires id !in s && row.table != Batches
    ensures GrowsBelow(s, s[id := row])
  {
  }

  lemma GrowthIsTransitive(s: Store, t: Store, u: Store)
    requires GrowsBelow(s, t) && GrowsBelow(t, u)
    ensures GrowsBelow(s, u)
  {
  }

  lemma EnrolGrows(s: Store, batch: Id, n: NewRun, origin: Origin, attempt: nat)
    requires FreshIds(s, n)
    ensures GrowsBelow(s, Enrol(s, batch, n, origin, attempt))
    ensures Referenced(Enrol(s, batch, n, origin, attempt), BatchId, batch)
  {
    hide GrowsBelow, Extends, Referenced, RunLinks;
    var r := WithRequest(s, batch, n);
    OneRowGrows(s, n.request, r[n.request]);
    var t := WithRun(r, n, origin, attempt);
    OneRowGrows(r, n.run, t[n.run]);
    GrowthIsTransitive(s, r, t);
    var u := t;
    if n.requirement.Some? {
      u := WithChild(t, n.requirement.value, Requirements, n.run);
      OneRowGrows(t, n.requirement.value, u[n.requirement.value]);
      GrowthIsTransitive(s, t, u);
    }
    var v := WithChild(u, n.event, Events, n.run);
    OneRowGrows(u, n.event, v[n.event]);
    GrowthIsTransitive(s, u, v);
    ReferencedBy(v, n.request, BatchId, batch);
  }

  lemma BatchInsertKeepsCore(s: Store, batch: Id, user: Id, key: string, digest: Option<string>)
    requires Core(s) && batch !in s && user in s && s[user].table == Users
    requires forall b :: !IsKeyed(s, b, user, key)
    ensures Core(s[batch := Row(Batches, map[UserId := user], BatchDetail(key, digest))])
  {
    hide ForeignKeysHold, Referenced;
    var u := s[batch := Row(Batches, map[UserId := user], BatchDetail(key, digest))];
    InsertKeepsForeignKeys(s, batch, u[batch]);
    OldRowsKeepLinks(s, u, batch);
    forall q | q in u && u[q].table == Requests ensures Referenced(u, RequestId, q) {
      ExtensionKeepsReferences(s, u, RequestId, q);
    }
    assert ArtifactsStayInRun(u);
  }

  lemma {:induction false} EnrolAllKeepsCore(s: Store, batch: Id, items: seq<NewRun>)
    requires Core(s) && batch in s && s[batch].table == Batches && AllFresh(s, batch, items)
    ensures Core(EnrolAll(s, batch, items)) && GrowsBelow(s, EnrolAll(s, batch, items))
    ensures |items| > 0 ==> Referenced(EnrolAll(s, batch, items), BatchId, batch)
    decreases |items|
  {
    if |items| > 0 {
      hide Core, Enrol, Referenced, FreshIds;
      var t := Enrol(s, batch, items[0], Original, 1);
      EnrolKeepsCore(s, batch, items[0], Original, 1);
      EnrolGrows(s, batch, items[0], Original, 1);
      assert batch in t && t[batch].table == Batches;
      hide GrowsBelow, Extends;
      EnrolAllKeepsCore(t, batch, items[1..]);
      var u := EnrolAll(t, batch, items[1..]);
      GrowthIsTransitive(s, t, u);
      GrowthKeepsReferences(t, u, BatchId, batch);
    }
  }

  lemma GrowthKeepsReferences(s: Store, u: Store, c: Column, target: Id)
    requires GrowsBelow(s, u) && Referenced(s, c, target)
    ensures Referenced(u, c, target)
  {
    ExtensionKeepsReferences(s, u, c, target);
  }

  // ---------------------------------------------------------------------
  // Transactions
  // ---------------------------------------------------------------------

  /** A batch of the user under the key; sound stores have at most one. */
  ghost function FindBatch(s: Store, user: Id, key: string): Option<Id> {
    if exists b :: IsKeyed(s, b, user, key) then
      var b :| IsKeyed(s, b, user, key);
      Some(b)
    else None
  }

  function WithBatch(s: Store, batch: Id, user: Id, key: string, digest: Option<string>): Store {
    s[batch := Row(Batches, map[UserId := user], BatchDetail(key, digest))]
  }

  /** `submit`: a known key answers with the stored batch, unless its payload was another. */
  ghost function Submit(s: Store, user: Id, key: string, digest: string, batch: Id, items: seq<NewRun>)
    : Result<(Store, Id), string>
  {
    match FindBatch(s, user, key)
    case Some(b) =>
      if s[b].detail.digest.Some? && s[b].detail.digest != Some(digest) then Err("idempotency_conflict") else Ok((s, b))
    case None => Ok((EnrolAll(WithBatch(s, batch, user, key, Some(digest)), batch, items), batch))
  }

  const RETRYABLE: set<RunStatus> := {Failed, Cancelled, NeedsAttention}

  function InstrumentOf(s: Store, run: Id): (instrument: Id)
    requires ForeignKeysHold(s) && IsRun(s, run)
    ensures instrument in s && s[instrument].table == Instruments
  {
    RowIsGood(s, RequestOf(s, run));
    s[RequestOf(s, run)].links[InstrumentId]
  }

  /** The user who submitted the batch of a run. */
  function OwnerOf(s: Store, run: Id): (user: Id)
    requires ForeignKeysHold(s) && IsRun(s, run)
    ensures user in s && s[user].table == Users
  {
    RowIsGood(s, BatchOf(s, RequestOf(s, run)));
    s[BatchOf(s, RequestOf(s, run))].links[UserId]
  }

  /** The new identifiers, for the instrument of an earlier run. */
  function Again(s: Store, run: Id, n: NewRun): NewRun
    requires ForeignKeysHold(s) && IsRun(s, run)
  {
    n.(instrument := InstrumentOf(s, run))
  }

  function Retry(s: Store, run: Id, n: NewRun): Result<Store, string>
    requires ForeignKeysHold(s)
  {
    if !IsRun(s, run) then Err("not_found")
    else if StatusOf(s, run) !in RETRYABLE then Err("retry_not_allowed")
    else Ok(Enrol(s, BatchOf(s, RequestOf(s, run)), Again(s, run, n), RetryFrom(run), AttemptOf(s, run) + 1))
  }

  function AttemptOf(s: Store, run: Id): nat
    requires ForeignKeysHold(s) && IsRun(s, run)
  {
    assert RowHolds(s, run);
    s[run].detail.attempt
  }

  /** The clean reassessment of a run; sound stores have at most one. */
  ghost function FindClean(s: Store, run: Id): Option<Id> {
    if exists c :: Links(s, c, CleanOf, run) then
      var c :| Links(s, c, CleanOf, run);
      Some(c)
    else None
  }

  /**
   `clean_reassess`; `flagged` says how the source run's latest integrity assessment turned out.
   The new batch belongs to the user who submitted the source run.
   */
  ghost function Reassess(s: Store, run: Id, flagged: Option<bool>, key: string, batch: Id, n: NewRun)
    : Result<(Store, Id), string>
    requires ForeignKeysHold(s)
  {
    if !IsRun(s, run) then Err("not_found")
    else if StatusOf(s, run) != Succeeded then Err("source_run_not_succeeded")
    else if FindClean(s, run).Some? then Ok((s, FindClean(s, run).value))
    else if flagged.None? then Err("source_run_unassessed")
    else if !flagged.value then Err("source_run_is_safe")
    else if FindBatch(s, OwnerOf(s, run), key).Some? then Err("integrity_error")
    else Ok((Enrol(WithBatch(s, batch, OwnerOf(s, run), key, None), batch, Again(s, run, n), CleanFrom(run), 1), n.run))
  }

  /** Tables whose rows other parts of the platform add and that no transaction here creates. */
  predicate IsRecord(t: Table) {
    t !in {Requests, RunRows, Batches}
  }

  datatype Action =
    | DoSubmit(user: Id, key: string, digest: string, batch: Id, items: seq<NewRun>)
    | DoRetry(run: Id, n: NewRun)
    | DoReassess(run: Id, flagged: Option<bool>, key: string, batch: Id, n: NewRun)
    | DoDelete(run: Id)
    | DoAdd(id: Id, row: Row)
    | DoMove(run: Id, status: RunStatus)
    | DoPin(run: Id, snapshot: Id)
    | DoJob(id: Id, running: bool)
    | DoUnlease(id: Id)

  /** New identifiers are fresh; the other parts of the platform respect schema, transitions and runs. */
  ghost predicate Enabled(s: Store, a: Action) {
    match a
    case DoSubmit(user, key, digest, batch, items) =>
      && user in s && s[user].table == Users && batch !in s && |items| > 0
      && AllFresh(WithBatch(s, batch, user, key, Some(digest)), batch, items)
    case DoRetry(_, n) => FreshIds(s, n)
    case DoReassess(_, _, _, batch, n) => batch !in s && FreshIds(s, n) && batch !in NewIds(n)
    case DoDelete(_) => true
    case DoAdd(id, row) =>
      && id !in s && Typed(row) && Resolves(s, row) && IsRecord(row.table)
      && (ArtifactId in row.links && RunId in row.links ==> Links(s, row.links[ArtifactId], RunId, row.links[RunId]))
    case DoMove(run, status) => IsRun(s, run) && s[run].detail.RunDetail? && CanMove(s[run].detail.status, status)
    case DoPin(run, snapshot) => IsRun(s, run) && snapshot in s && s[snapshot].table == Snapshots
    case DoJob(id, _) => id in s && s[id].table in {Validations, PriceBases}
    case DoUnlease(id) => id in s && s[id].table == Leases
  }

  ghost function Step(s: Store, a: Action): Store
    requires ForeignKeysHold(s) && Enabled(s, a)
  {
    match a
    case DoSubmit(user, key, digest, batch, items) =>
      (match Submit(s, user, key, digest, batch, items) case Ok((u, _)) => u case Err(_) => s)
    case DoRetry(run, n) => (match Retry(s, run, n) case Ok(u) => u case Err(_) => s)
    case DoReassess(run, flagged, key, batch, n) =>
      (match Reassess(s, run, flagged, key, batch, n) case Ok((u, _)) => u case Err(_) => s)
    case DoDelete(run) => (match Delete(s, run) case Ok(u) => u case Err(_) => s)
    case DoAdd(id, row) => s[id := row]
    case DoMove(run, status) => s[run := s[run].(detail := s[run].detail.(status := status))]
    case DoPin(run, snapshot) => s[run := s[run].(links := s[run].links[SnapshotId := snapshot])]
    case DoJob(id, running) => s[id := s[id].(detail := WorkDetail(running))]
    case DoUnlease(id) => s - {id}
  }

  // ---------------------------------------------------------------------
  // Every transaction keeps the invariant
  // ---------------------------------------------------------------------

  lemma SubmitKeepsSound(s: Store, a: Action)
    requires Sound(s) && a.DoSubmit? && Enabled(s, a)
    ensures Sound(Step(s, a))
  {
    hide ForeignKeysHold, Referenced, EnrolAll, AllFresh;
    if FindBatch(s, a.user, a.key).None? {
      var t := WithBatch(s, a.batch, a.user, a.key, Some(a.digest));
      BatchInsertKeepsCore(s, a.batch, a.user, a.key, Some(a.digest));
      EnrolAllKeepsCore(t, a.batch, a.items);
      var u := EnrolAll(t, a.batch, a.items);
      forall b | b in u && u[b].table == Batches ensures Referenced(u, BatchId, b) {
        if b != a.batch { ExtensionKeepsReferences(s, u, BatchId, b); }
      }
    }
  }

  lemma EnrolKeepsSound(s: Store, t: Store, batch: Id, n: NewRun, origin: Origin, attempt: nat)
    requires Core(t) && FreshIds(t, n) && batch in t && t[batch].table == Batches && OriginFits(t, origin, attempt)
    requires forall b :: b in t && t[b].table == Batches && b != batch ==> Referenced(t, BatchId, b)
    ensures Sound(Enrol(t, batch, n, origin, attempt))
  {
    hide Core, Referenced, FreshIds, Enrol;
    EnrolKeepsCore(t, batch, n, origin, attempt);
    EnrolGrows(t, batch, n, origin, attempt);
    var u := Enrol(t, batch, n, origin, attempt);
    forall b | b in u && u[b].table == Batches ensures Referenced(u, BatchId, b) {
      if b != batch { ExtensionKeepsReferences(t, u, BatchId, b); }
    }
  }

  lemma RetryKeepsSound(s: Store, a: Action)
    requires Sound(s) && a.DoRetry? && Enabled(s, a)
    ensures Sound(Step(s, a))
  {
    hide ForeignKeysHold, Referenced, Enrol, FreshIds, Again;
    if Retry(s, a.run, a.n).Ok? {
      RowIsGood(s, a.run);
      AgainIsFresh(s, s, a.run, a.n);
      EnrolKeepsSound(s, s, BatchOf(s, RequestOf(s, a.run)), Again(s, a.run, a.n), RetryFrom(a.run),
                      AttemptOf(s, a.run) + 1);
    }
  }

  /** The identifiers stay new while rows that are none of them are added. */
  lemma AgainIsFresh(s: Store, t: Store, run: Id, n: NewRun)
    requires ForeignKeysHold(s) && IsRun(s, run) && FreshIds(s, n) && Extends(s, t)
    requires forall id :: id in t && id in NewIds(n) ==> id in s
    ensures FreshIds(t, Again(s, run, n))
  {
    hide ForeignKeysHold;
  }

  lemma ReassessKeepsSound(s: Store, a: Action)
    requires Sound(s) && a.DoReassess? && Enabled(s, a)
    ensures Sound(Step(s, a))
  {
    hide ForeignKeysHold, Referenced, Enrol, FreshIds, Again, OwnerOf, NewIds;
    var outcome := Reassess(s, a.run, a.flagged, a.key, a.batch, a.n);
    if outcome.Ok? && FindClean(s, a.run).None? {
      var t := WithBatch(s, a.batch, OwnerOf(s, a.run), a.key, None);
      BatchInsertKeepsCore(s, a.batch, OwnerOf(s, a.run), a.key, None);
      forall b | b in t && t[b].table == Batches && b != a.batch ensures Referenced(t, BatchId, b) {
        ExtensionKeepsReferences(s, t, BatchId, b);
      }
      NoCleanYet(s, t, a.run, a.batch);
      AgainIsFresh(s, t, a.run, a.n);
      EnrolKeepsSound(s, t, a.batch, Again(s, a.run, a.n), CleanFrom(a.run), 1);
    }
  }

  lemma NoCleanYet(s: Store, t: Store, run: Id, batch: Id)
    requires FindClean(s, run).None? && batch !in s && batch in t && t == s[batch := t[batch]]
             && CleanOf !in t[batch].links
    ensures !Referenced(t, CleanOf, run)
  {
    forall k | k in t ensures !Links(t, k, CleanOf, run) {
      assert k != batch ==> !Links(s, k, CleanOf, run);
    }
  }

  lemma AddKeepsSound(s: Store, a: Action)
    requires Sound(s) && a.DoAdd? && Enabled(s, a)
    ensures Sound(Step(s, a))
  {
    hide ForeignKeysHold, Referenced, Core;
    RecordColumns(a.row);
    PlainInsertKeepsCore(s, a.id, a.row);
    var u := s[a.id := a.row];
    forall b | b in u && u[b].table == Batches ensures Referenced(u, BatchId, b) {
      ExtensionKeepsReferences(s, u, BatchId, b);
    }
  }

  lemma RecordColumns(row: Row)
    requires Typed(row) && IsRecord(row.table)
    ensures RequestId !in row.links && RetryOf !in row.links && CleanOf !in row.links
  {
  }

  /** The row differs at most in its status and its configuration snapshot. */
  ghost predicate SameButProgress(old_: Row, new_: Row) {
    && new_.table == old_.table
    && (forall c :: c != SnapshotId ==> (c in new_.links <==> c in old_.links))
    && (forall c :: c != SnapshotId && c in old_.links && c in new_.links ==> new_.links[c] == old_.links[c])
    && (old_.detail.BatchDetail? ==> new_.detail == old_.detail)
    && (old_.detail.RunDetail? <==> new_.detail.RunDetail?)
    && (old_.detail.RunDetail? ==> new_.detail.attempt == old_.detail.attempt)
  }

  lemma UpdateKeepsLinks(s: Store, u: Store, id: Id)
    requires id in s && id in u && u == s[id := u[id]] && SameButProgress(s[id], u[id]) && Typed(u[id]) && Typed(s[id])
    ensures forall k, c, target :: c != SnapshotId ==> (Links(u, k, c, target) <==> Links(s, k, c, target))
    ensures forall k, user, key :: IsKeyed(u, k, user, key) <==> IsKeyed(s, k, user, key)
    ensures forall r, p :: AttemptFollows(u, r, p) <==> AttemptFollows(s, r, p)
  {
  }

  lemma SameLinksSameReferences(s: Store, u: Store, c: Column, target: Id)
    requires forall k :: Links(s, k, c, target) ==> Links(u, k, c, target)
    requires Referenced(s, c, target)
    ensures Referenced(u, c, target)
  {
    var k :| k in s && Links(s, k, c, target);
    assert Links(u, k, c, target);
  }

  lemma UpdateKeepsForeignKeys(s: Store, u: Store, id: Id)
    requires ForeignKeysHold(s) && id in s && id in u && u == s[id := u[id]] && u[id].table == s[id].table
    requires Typed(u[id]) && Resolves(s, u[id])
    ensures ForeignKeysHold(u)
  {
    hide Typed;
    forall k | k in u ensures Typed(u[k]) && Resolves(u, u[k]) {
      RowIsGood(s, k);
    }
  }

  lemma UpdateKeepsSound(s: Store, u: Store, id: Id)
    requires Sound(s) && id in s && id in u && u == s[id := u[id]]
    requires SameButProgress(s[id], u[id]) && Typed(u[id]) && Resolves(s, u[id])
    ensures Sound(u)
  {
    hide ForeignKeysHold, Referenced, Typed, Resolves;
    RowIsGood(s, id);
    UpdateKeepsForeignKeys(s, u, id);
    UpdateKeepsLinks(s, u, id);
    hide IsKeyed, AttemptFollows, Links;
    forall q | q in u && u[q].table == Requests ensures Referenced(u, RequestId, q) {
      SameLinksSameReferences(s, u, RequestId, q);
    }
    forall b | b in u && u[b].table == Batches ensures Referenced(u, BatchId, b) {
      SameLinksSameReferences(s, u, BatchId, b);
    }
    forall k | k in u && ArtifactId in u[k].links && RunId in u[k].links
      ensures Links(u, u[k].links[ArtifactId], RunId, u[k].links[RunId])
    {
      assert Links(s, s[k].links[ArtifactId], RunId, s[k].links[RunId]);
    }
  }

  lemma MovedRow(s: Store, row: Row, status: RunStatus)
    requires Typed(row) && Resolves(s, row) && row.detail.RunDetail?
    ensures var u := row.(detail := row.detail.(status := status));
            Typed(u) && Resolves(s, u) && SameButProgress(row, u)
  {
    hide Mandatory, Nullable;
  }

  lemma PinnedRow(s: Store, row: Row, snapshot: Id)
    requires Typed(row) && Resolves(s, row) && row.table == RunRows && snapshot in s && s[snapshot].table == Snapshots
    ensures var u := row.(links := row.links[SnapshotId := snapshot]);
            Typed(u) && Resolves(s, u) && SameButProgress(row, u)
  {
    assert SnapshotId in Nullable(RunRows);
    hide Mandatory, Nullable;
  }

  lemma JobRow(s: Store, row: Row, running: bool)
    requires Typed(row) && Resolves(s, row) && row.table in {Validations, PriceBases}
    ensures var u := row.(detail := WorkDetail(running)); Typed(u) && Resolves(s, u) && SameButProgress(row, u)
  {
    hide Mandatory, Nullable;
  }

  lemma SoundHasKeys(s: Store)
    requires Sound(s)
    ensures ForeignKeysHold(s)
  {
  }

  /** A move, a pin or a change of a job changes one row, and there only status, snapshot or work. */
  lemma ProgressKeepsRows(s: Store, a: Action)
    requires Sound(s) && (a.DoMove? || a.DoPin? || a.DoJob?) && Enabled(s, a)
    ensures var id, u := if a.DoJob? then a.id else a.run, Step(s, a);
            && id in s && id in u && u == s[id := u[id]] && SameButProgress(s[id], u[id])
            && Typed(s[id]) && Typed(u[id]) && Resolves(s, u[id])
  {
    var id := if a.DoJob? then a.id else a.run;
    RowIsGood(s, id);
    hide Typed, Resolves, SameButProgress, ArtifactsStayInRun, RequestsHaveRuns, OneRunPerRequest, OneBatchPerKey,
         AttemptsCount,
         BatchesHaveRequests, ForeignKeysHold;
    match a {
      case DoMove(run, status) => MovedRow(s, s[run], status);
      case DoPin(run, snapshot) => PinnedRow(s, s[run], snapshot);
      case DoJob(_, running) => JobRow(s, s[id], running);
    }
  }

  lemma ProgressKeepsSound(s: Store, a: Action)
    requires Sound(s) && (a.DoMove? || a.DoPin? || a.DoJob?) && Enabled(s, a)
    ensures Sound(Step(s, a))
  {
    SoundHasKeys(s);
    hide Sound, Step, Typed, Resolves, SameButProgress;
    ProgressKeepsRows(s, a);
    UpdateKeepsSound(s, Step(s, a), if a.DoJob? then a.id else a.run);
  }

  // ---------------------------------------------------------------------
  // Deletes keep the invariant
  // ---------------------------------------------------------------------

  ghost predicate Restricts(u: Store, s: Store) {
    forall id :: id in u ==> id in s && u[id] == s[id]
  }

  lemma RestrictionKeepsLinks(s: Store, u: Store)
    requires Restricts(u, s)
    ensures forall k, c, target :: k in u ==> (Links(u, k, c, target) <==> Links(s, k, c, target))
    ensures forall k, user, key :: IsKeyed(u, k, user, key) ==> IsKeyed(s, k, user, key)
    ensures forall r, p :: r in u && p in u ==> (AttemptFollows(u, r, p) <==> AttemptFollows(s, r, p))
  {
  }

  /** A restriction whose foreign keys hold keeps everything that speaks of all rows. */
  lemma RestrictionKeepsCore(s: Store, u: Store)
    requires Core(s) && Restricts(u, s) && ForeignKeysHold(u) && RequestsHaveRuns(u)
    ensures Core(u)
  {
    hide ForeignKeysHold, Referenced;
    RestrictionKeepsLinks(s, u);
    hide IsKeyed, AttemptFollows;
    forall k | k in u && ArtifactId in u[k].links && RunId in u[k].links
      ensures Links(u, u[k].links[ArtifactId], RunId, u[k].links[RunId])
    {
      RowIsGood(u, k);
    }
    forall r, p | Links(u, r, RetryOf, p) ensures AttemptFollows(u, r, p) {
      LinksResolve(u, r, RetryOf, p);
    }
  }

  lemma OtherRunSurvives(s: Store, run: Id, other: Id)
    requires ForeignKeysHold(s) && IsRun(s, run) && IsRun(s, other) && other != run
    ensures other in DeleteGraph(s, run) && DeleteGraph(s, run)[other] == s[other]
  {
    OtherRunsUntouched(s, run, other, other);
  }

  lemma RequestSurvives(s: Store, run: Id, q: Id)
    requires ForeignKeysHold(s) && IsRun(s, run) && q in s && s[q].table == Requests
    requires q == RequestOf(s, run) ==> SharedBeyond(s, RequestId, q, run)
    ensures q in DeleteGraph(s, run) && DeleteGraph(s, run)[q] == s[q]
  {
    hide DeleteGraph, Rank, SharedBeyond, ForeignKeysHold;
    DeleteTakesExactlyTheGraph(s, run);
    assert Links(s, q, BatchId, BatchOf(s, q));
    OnlyRunsAndRequestsLead(s, q, BatchId);
    RowIsGood(s, run);
  }

  lemma BatchOutlivesRequest(s: Store, run: Id, b: Id) returns (q: Id)
    requires ForeignKeysHold(s) && IsRun(s, run) && b == BatchOf(s, RequestOf(s, run)) && b in DeleteGraph(s, run)
    ensures Links(DeleteGraph(s, run), q, BatchId, b)
  {
    hide DeleteGraph, Rank, ForeignKeysHold, Owned;
    DeleteTakesExactlyTheGraph(s, run);
    var request := RequestOf(s, run);
    if SharedBeyond(s, RequestId, request, run) {
      q := request;
    } else {
      q :| q in s && q != request && Links(s, q, BatchId, b);
      OnlyRunsAndRequestsLead(s, q, BatchId);
    }
    RequestSurvives(s, run, q);
  }

  lemma DeleteKeepsRequestsAndBatches(s: Store, run: Id)
    requires ForeignKeysHold(s) && RequestsHaveRuns(s) && BatchesHaveRequests(s) && IsRun(s, run)
    ensures RequestsHaveRuns(DeleteGraph(s, run)) && BatchesHaveRequests(DeleteGraph(s, run))
    ensures Restricts(DeleteGraph(s, run), s)
  {
    hide ForeignKeysHold, Owned, DeleteGraph, Rank;
    var u := DeleteGraph(s, run);
    DeleteTakesExactlyTheGraph(s, run);
    var request := RequestOf(s, run);
    forall q | q in u && u[q].table == Requests ensures Referenced(u, RequestId, q) {
      var r :| r in s && Links(s, r, RequestId, q);
      if r == run {
        var r' :| r' in s && r' != run && Links(s, r', RequestId, q);
        OnlyRunsAndRequestsLead(s, r', RequestId);
        OtherRunSurvives(s, run, r');
        ReferencedBy(u, r', RequestId, q);
      } else {
        OnlyRunsAndRequestsLead(s, r, RequestId);
        OtherRunSurvives(s, run, r);
        ReferencedBy(u, r, RequestId, q);
      }
    }
    forall b | b in u && u[b].table == Batches ensures Referenced(u, BatchId, b) {
      var q :| q in s && Links(s, q, BatchId, b);
      OnlyRunsAndRequestsLead(s, q, BatchId);
      if q != request {
        RequestSurvives(s, run, q);
        ReferencedBy(u, q, BatchId, b);
      } else {
        var q' := BatchOutlivesRequest(s, run, b);
        ReferencedBy(u, q', BatchId, b);
      }
    }
  }

  lemma DeleteKeepsSound(s: Store, a: Action)
    requires Sound(s) && a.DoDelete?
    ensures Sound(Step(s, a))
  {
    hide ForeignKeysHold, Owned, DeleteGraph, RequestsHaveRuns, BatchesHaveRequests;
    if Delete(s, a.run).Ok? {
      StayingInRunIsPrivate(s, a.run);
      DroppingParentsKeepsForeignKeys(s, a.run);
      DeleteKeepsRequestsAndBatches(s, a.run);
      RestrictionKeepsCore(s, DeleteGraph(s, a.run));
    }
  }

  /** Nothing refers to a lease. */
  lemma UnleaseKeepsSound(s: Store, a: Action)
    requires Sound(s) && a.DoUnlease? && Enabled(s, a)
    ensures Sound(Step(s, a))
  {
    hide Typed, Referenced;
    var u := s - {a.id};
    forall k | k in u ensures Typed(u[k]) && Resolves(u, u[k]) {
      RowIsGood(s, k);
    }
    hide ForeignKeysHold, Core;
    forall q | q in u && u[q].table == Requests ensures Referenced(u, RequestId, q) {
      LeaseIsNoLink(s, a.id, RequestId, q);
    }
    forall b | b in u && u[b].table == Batches ensures Referenced(u, BatchId, b) {
      LeaseIsNoLink(s, a.id, BatchId, b);
    }
    RestrictionKeepsCore(s, u);
  }

  lemma LeaseIsNoLink(s: Store, id: Id, c: Column, target: Id)
    requires ForeignKeysHold(s) && id in s && s[id].table == Leases && Referenced(s, c, target)
             && c in {RequestId, BatchId}
    ensures Referenced(s - {id}, c, target)
  {
    hide ForeignKeysHold, Typed;
    var k :| k in s && Links(s, k, c, target);
    RowIsGood(s, id);
    LeaseColumns(s[id]);
    assert Links(s - {id}, k, c, target);
  }

  lemma LeaseColumns(row: Row)
    requires Typed(row) && row.table == Leases
    ensures RequestId !in row.links && BatchId !in row.links
  {
  }

  lemma StepKeepsSound(s: Store, a: Action)
    requires Sound(s) && Enabled(s, a)
    ensures Sound(Step(s, a))
  {
    hide Step, Enabled, Core, BatchesHaveRequests;
    match a {
      case DoSubmit(_, _, _, _, _) => SubmitKeepsSound(s, a);
      case DoRetry(_, _) => RetryKeepsSound(s, a);
      case DoReassess(_, _, _, _, _) => ReassessKeepsSound(s, a);
      case DoDelete(_) => DeleteKeepsSound(s, a);
      case DoAdd(_, _) => AddKeepsSound(s, a);
      case DoUnlease(_) => UnleaseKeepsSound(s, a);
      case _ => ProgressKeepsSound(s, a);
    }
  }

  /** A sequence of actions, each enabled where it happens. */
  ghost predicate Executes(s: Store, actions: seq<Action>)
    requires Sound(s)
    decreases |actions|
  {
    |actions| > 0 ==>
      Enabled(s, actions[0]) && (StepKeepsSound(s, actions[0]); Executes(Step(s, actions[0]), actions[1..]))
  }

  ghost function After(s: Store, actions: seq<Action>): Store
    requires Sound(s) && Executes(s, actions)
    decreases |actions|
  {
    if |actions| == 0 then s else (StepKeepsSound(s, actions[0]); After(Step(s, actions[0]), actions[1..]))
  }

  // ---------------------------------------------------------------------
  // Main results
  // ---------------------------------------------------------------------

  const EMPTY: Store := map[]

  lemma {:induction false} SequencesKeepSound(s: Store, actions: seq<Action>)
    requires Sound(s) && Executes(s, actions)
    ensures Sound(After(s, actions))
    decreases |actions|
  {
    if |actions| > 0 {
      hide Core, BatchesHaveRequests, Step, Enabled;
      StepKeepsSound(s, actions[0]);
      SequencesKeepSound(Step(s, actions[0]), actions[1..]);
    }
  }

  lemma EmptyIsSound()
    ensures Sound(EMPTY)
  {
  }

  /** A sequence of actions from the empty tables. */
  ghost predicate IsHistory(actions: seq<Action>) {
    EmptyIsSound();
    Executes(EMPTY, actions)
  }

  ghost function Reached(actions: seq<Action>): Store
    requires IsHistory(actions)
  {
    EmptyIsSound();
    After(EMPTY, actions)
  }

  /** Over every sequence of actions from empty tables the whole invariant holds. */
  lemma ReachableIsSound(actions: seq<Action>)
    requires IsHistory(actions)
    ensures Sound(Reached(actions))
  {
    EmptyIsSound();
    SequencesKeepSound(EMPTY, actions);
  }

  /** In a sound store a permitted delete keeps the foreign keys at every single removal and all rows of other runs. */
  lemma PermittedDeleteIsSafe(s: Store, run: Id)
    requires Sound(s) && Delete(s, run).Ok?
    ensures forall k: nat :: k <= |DELETE_ORDER| ==> ForeignKeysHold(RemoveFirst(s, k, run))
    ensures var request, bare := RequestOf(s, run), RemoveFirst(s, |DELETE_ORDER|, run);
            ForeignKeysHold(DropUnreferenced(bare, RequestId, request))
              && ForeignKeysHold(DropParents(bare, request, BatchOf(s, request)))
    ensures ForeignKeysHold(Delete(s, run).value)
    ensures forall other, id :: id in s && other != run && Owned(s, id, other) ==>
              id in Delete(s, run).value && Delete(s, run).value[id] == s[id]
  {
    hide ForeignKeysHold, Owned, DeleteGraph, RemoveFirst, RequestsHaveRuns, BatchesHaveRequests;
    var u := DeleteGraph(s, run);
    StayingInRunIsPrivate(s, run);
    forall k: nat | k <= |DELETE_ORDER| ensures ForeignKeysHold(RemoveFirst(s, k, run)) {
      EachRemovalKeepsForeignKeys(s, run, k);
    }
    DroppingParentsKeepsForeignKeys(s, run);
    forall other, id | id in s && other != run && Owned(s, id, other)
      ensures id in u && u[id] == s[id]
    {
      OtherRunsUntouched(s, run, other, id);
    }
  }

  /** The identifiers of the rows of one enrolment. */
  function NewIds(n: NewRun): set<Id> {
    {n.request, n.run, n.event} + match n.requirement case Some(id) => {id} case None => {}
  }

  /** A new run stands in the store with its request, its first event and, when data is awaited, its requirement. */
  ghost predicate IsEnrolled(s: Store, batch: Id, n: NewRun, origin: Origin, attempt: nat) {
    && n.request in s && s[n.request] == Row(Requests, map[BatchId := batch, InstrumentId := n.instrument], Nothing)
    && n.run in s && s[n.run].table == RunRows
    && s[n.run].detail == RunDetail(if n.requirement.Some? then WaitingForData else Queued, attempt)
    && (forall c, target :: Links(s, n.run, c, target) <==>
          || (c == RequestId && target == n.request)
          || (c == RetryOf && origin == RetryFrom(target)) || (c == CleanOf && origin == CleanFrom(target)))
    && n.event in s && s[n.event] == Row(Events, map[RunId := n.run], Nothing)
    && (n.requirement.Some? ==>
          n.requirement.value in s && s[n.requirement.value] == Row(Requirements, map[RunId := n.run], Nothing))
  }

  lemma EnrolEnrols(s: Store, batch: Id, n: NewRun, origin: Origin, attempt: nat)
    requires FreshIds(s, n)
    ensures IsEnrolled(Enrol(s, batch, n, origin, attempt), batch, n, origin, attempt)
    ensures Enrol(s, batch, n, origin, attempt).Keys == s.Keys + NewIds(n) && NewIds(n) !! s.Keys
  {
  }

  /** Exactly the rows of every item are added, all of them new, and nothing else changes. */
  lemma {:induction false} EnrolAllEnrols(s: Store, batch: Id, items: seq<NewRun>, i: nat, id: Id)
    requires AllFresh(s, batch, items) && i < |items|
    ensures var u := EnrolAll(s, batch, items);
            && IsEnrolled(u, batch, items[i], Original, 1) && NewIds(items[i]) !! s.Keys
            && (id in u <==> id in s || exists j :: 0 <= j < |items| && id in NewIds(items[j]))
            && (id in s ==> u[id] == s[id])
    decreases |items|
  {
    hide Enrol, IsEnrolled, FreshIds, NewIds, EnrolAll;
    var t, rest := Enrol(s, batch, items[0], Original, 1), items[1..];
    assert EnrolAll(s, batch, items) == EnrolAll(t, batch, rest) by { EnrolAllStep(s, batch, items); }
    EnrolEnrols(s, batch, items[0], Original, 1);
    EnrolGrows(s, batch, items[0], Original, 1);
    GrowthContains(s, t);
    if |rest| == 0 {
      assert EnrolAll(t, batch, rest) == t by { EnrolAllStep(t, batch, rest); }
    } else {
      EnrolAllEnrols(t, batch, rest, if i == 0 then 0 else i - 1, id);
      assert forall j :: 0 < j < |items| ==> items[j] == rest[j - 1];
      assert forall j :: 0 <= j < |rest| ==> items[j + 1] == rest[j];
      if i == 0 {
        forall k | k in NewIds(items[0]) ensures k in EnrolAll(t, batch, rest) && EnrolAll(t, batch, rest)[k] == t[k] {
          EnrolAllEnrols(t, batch, rest, 0, k);
        }
        EnrolledStays(t, EnrolAll(t, batch, rest), batch, items[0]);
      }
    }
  }

  lemma EnrolAllStep(s: Store, batch: Id, items: seq<NewRun>)
    ensures EnrolAll(s, batch, items) ==
            if |items| == 0 then s else EnrolAll(Enrol(s, batch, items[0], Original, 1), batch, items[1..])
  {
  }

  lemma EnrolledStays(t: Store, u: Store, batch: Id, n: NewRun)
    requires IsEnrolled(t, batch, n, Original, 1) && forall k :: k in NewIds(n) ==> k in u && u[k] == t[k]
    ensures IsEnrolled(u, batch, n, Original, 1)
  {
    assert forall c, target :: Links(u, n.run, c, target) <==> Links(t, n.run, c, target);
  }

  /** Different items get different identifiers. */
  lemma {:induction false} ItemsAreApart(s: Store, batch: Id, items: seq<NewRun>, i: nat, j: nat)
    requires AllFresh(s, batch, items) && i < j < |items|
    ensures NewIds(items[i]) !! NewIds(items[j])
    decreases |items|
  {
    hide Enrol, IsEnrolled, FreshIds, NewIds, EnrolAll;
    var t, rest := Enrol(s, batch, items[0], Original, 1), items[1..];
    if i == 0 {
      EnrolEnrols(s, batch, items[0], Original, 1);
      EnrolAllEnrols(t, batch, rest, j - 1, 0);
    } else {
      ItemsAreApart(t, batch, rest, i - 1, j - 1);
    }
  }

  /**
   A submission under a new key adds its batch and, for every item, one fresh request, run and
   event, different ones for different items; nothing else changes.
   */
  lemma SubmitEnrolsEachItem(s: Store, a: Action, i: nat, j: nat, id: Id)
    requires Sound(s) && a.DoSubmit? && Enabled(s, a) && FindBatch(s, a.user, a.key).None? && i < |a.items|
    ensures var u := Step(s, a);
            && IsKeyed(u, a.batch, a.user, a.key) && a.batch !in s
            && IsEnrolled(u, a.batch, a.items[i], Original, 1) && NewIds(a.items[i]) !! s.Keys
            && (i < j < |a.items| ==> NewIds(a.items[i]) !! NewIds(a.items[j]))
            && (id in u <==> id in s || id == a.batch || exists k :: 0 <= k < |a.items| && id in NewIds(a.items[k]))
            && (id in s ==> u[id] == s[id])
  {
    hide ForeignKeysHold, EnrolAll, AllFresh, IsEnrolled, NewIds;
    var t := WithBatch(s, a.batch, a.user, a.key, Some(a.digest));
    EnrolAllEnrols(t, a.batch, a.items, i, id);
    EnrolAllEnrols(t, a.batch, a.items, i, a.batch);
    if i < j < |a.items| { ItemsAreApart(t, a.batch, a.items, i, j); }
  }

  /**
   A submission is refused exactly when the user's batch under the key records another payload, and
   answers with a stored batch exactly when there is one that records this payload or none.
   */
  lemma SubmitsExactlyWhen(s: Store, user: Id, key: string, digest: string, batch: Id, items: seq<NewRun>)
    requires Sound(s)
    ensures var r := Submit(s, user, key, digest, batch, items);
            && (r.Err? <==> exists b :: IsKeyed(s, b, user, key) && s[b].detail.digest.Some?
                                        && s[b].detail.digest.value != digest)
            && (forall b :: IsKeyed(s, b, user, key) ==>
                  (s[b].detail.digest == None || s[b].detail.digest == Some(digest) ==> r == Ok((s, b))))
            && (r.Ok? && (forall b :: !IsKeyed(s, b, user, key)) ==> r.value.1 == batch)
  {
    assert OneBatchPerKey(s);
    hide Core, BatchesHaveRequests, EnrolAll, WithBatch;
  }

  /**
   A second submission under the same key changes nothing: the same payload finds the batch, another one is
   refused.
   */
  lemma SubmitIsIdempotent(s: Store, a: Action, digest: string, batch: Id, items: seq<NewRun>)
    requires Sound(s) && a.DoSubmit? && Enabled(s, a) && Submit(s, a.user, a.key, a.digest, a.batch, a.items).Ok?
    ensures var (u, b) := Submit(s, a.user, a.key, a.digest, a.batch, a.items).value;
            && (digest == a.digest ==> Submit(u, a.user, a.key, digest, batch, items) == Ok((u, b)))
            && (FindBatch(s, a.user, a.key).None? && digest != a.digest ==>
                  Submit(u, a.user, a.key, digest, batch, items).Err?)
  {
    hide ForeignKeysHold, Referenced, EnrolAll, AllFresh, RequestsHaveRuns, BatchesHaveRequests, ArtifactsStayInRun;
    SubmitKeepsSound(s, a);
    var (u, b) := Submit(s, a.user, a.key, a.digest, a.batch, a.items).value;
    if FindBatch(s, a.user, a.key).None? {
      var t := WithBatch(s, a.batch, a.user, a.key, Some(a.digest));
      BatchInsertKeepsCore(s, a.batch, a.user, a.key, Some(a.digest));
      EnrolAllKeepsCore(t, a.batch, a.items);
      assert u[b] == t[b];
    }
    assert IsKeyed(u, b, a.user, a.key);
    assert FindBatch(u, a.user, a.key) == Some(b);
  }

  lemma OnlyRunsRetry(row: Row)
    requires Typed(row) && (RetryOf in row.links || CleanOf in row.links)
    ensures row.table == RunRows
  {
  }

  /** While a retry or clean reassessment of a run exists, in whatever store, the run cannot be deleted. */
  lemma RetriedRunIsPinned(s: Store, run: Id, later: Id)
    requires ForeignKeysHold(s) && (Links(s, later, RetryOf, run) || Links(s, later, CleanOf, run))
    ensures Delete(s, run).Err? && IsRun(s, run)
    ensures StatusOf(s, run) in TERMINAL && !HasActiveWork(s, run) ==>
              Delete(s, run) == Err(DependentRunsExist(DependentRuns(s, run))) && later in DependentRuns(s, run)
  {
    hide ForeignKeysHold, Typed, Resolves, HasActiveWork;
    RowIsGood(s, later);
    OnlyRunsRetry(s[later]);
    LinksResolve(s, later, if Links(s, later, RetryOf, run) then RetryOf else CleanOf, run);
    RetriesAreDependents(s, later, run);
  }

  /** A run that was just retried is pinned by its retry. */
  lemma RetryPins(s: Store, run: Id, n: NewRun)
    requires Sound(s) && FreshIds(s, n) && Retry(s, run, n).Ok?
    ensures ForeignKeysHold(Retry(s, run, n).value) && Delete(Retry(s, run, n).value, run).Err?
  {
    RetryKeepsSound(s, DoRetry(run, n));
    hide ForeignKeysHold, Typed, Delete;
    var u := Retry(s, run, n).value;
    assert Links(u, n.run, RetryOf, run);
    RetriedRunIsPinned(u, run, n.run);
  }

  /** A retry happens exactly for a run that failed, was cancelled or needs attention. */
  lemma RetriesExactlyWhen(s: Store, run: Id, n: NewRun)
    requires ForeignKeysHold(s)
    ensures Retry(s, run, n).Ok? <==>
            run in s && s[run].table == RunRows && s[run].detail.RunDetail?
            && var status := s[run].detail.status; status == Failed || status == Cancelled || status == NeedsAttention
    ensures Retry(s, run, n) == Err("not_found") <==> run !in s || s[run].table != RunRows
    ensures Retry(s, run, n).Err? && run in s && s[run].table == RunRows ==>
              Retry(s, run, n) == Err("retry_not_allowed")
  {
    if IsRun(s, run) { RowIsGood(s, run); }
    assert |"not_found"| == 9 && |"retry_not_allowed"| == 17;
    hide ForeignKeysHold, Enrol, Again;
  }

  /**
   A retry is the next attempt at the run, in a new request with the batch and the instrument of
   the old one; nothing else changes.
   */
  lemma RetryTriesAgain(s: Store, run: Id, n: NewRun, id: Id)
    requires ForeignKeysHold(s) && FreshIds(s, n) && Retry(s, run, n).Ok?
    ensures IsRun(s, run) && s[run].detail.RunDetail?
    ensures var u, attempt := Retry(s, run, n).value, s[run].detail.attempt + 1;
            && (exists request: Id, batch: Id, instrument: Id ::
                  && Links(s, run, RequestId, request) && Links(s, request, BatchId, batch)
                  && Links(s, request, InstrumentId, instrument)
                  && IsEnrolled(u, batch, n.(instrument := instrument), RetryFrom(run), attempt))
            && (id in u <==> id in s || id in NewIds(n)) && (id in s ==> u[id] == s[id])
  {
    hide *;
    RetryIsEnrolment(s, run, n);
    var request := RequestOf(s, run);
    var batch, m, attempt := BatchOf(s, request), Again(s, run, n), AttemptOf(s, run) + 1;
    SourceColumns(s, run);
    AgainIsSame(s, run, n);
    NothingExtends(s);
    AgainIsFresh(s, s, run, n);
    EnrolEnrols(s, batch, m, RetryFrom(run), attempt);
    EnrolGrows(s, batch, m, RetryFrom(run), attempt);
    GrowthContains(s, Enrol(s, batch, m, RetryFrom(run), attempt));
    StatusIsColumn(s, run);
  }

  /** Where the columns of a run lead. */
  lemma SourceColumns(s: Store, run: Id)
    requires ForeignKeysHold(s) && IsRun(s, run)
    ensures var request := RequestOf(s, run);
            && Links(s, run, RequestId, request) && Links(s, request, BatchId, BatchOf(s, request))
            && Links(s, request, InstrumentId, InstrumentOf(s, run))
            && Links(s, BatchOf(s, request), UserId, OwnerOf(s, run))
  {
    RowIsGood(s, RequestOf(s, run));
    RowIsGood(s, BatchOf(s, RequestOf(s, run)));
  }

  lemma AgainIsSame(s: Store, run: Id, n: NewRun)
    requires ForeignKeysHold(s) && IsRun(s, run)
    ensures NewIds(Again(s, run, n)) == NewIds(n) && Again(s, run, n) == n.(instrument := InstrumentOf(s, run))
  {
    hide ForeignKeysHold, InstrumentOf;
  }

  lemma NothingExtends(s: Store)
    ensures Extends(s, s)
  {
  }

  lemma RetryIsEnrolment(s: Store, run: Id, n: NewRun)
    requires ForeignKeysHold(s) && Retry(s, run, n).Ok?
    ensures IsRun(s, run)
    ensures Retry(s, run, n).value ==
            Enrol(s, BatchOf(s, RequestOf(s, run)), Again(s, run, n), RetryFrom(run), AttemptOf(s, run) + 1)
  {
    hide ForeignKeysHold, Enrol, Again;
  }

  lemma StatusIsColumn(s: Store, run: Id)
    requires ForeignKeysHold(s) && IsRun(s, run)
    ensures s[run].detail.RunDetail? && AttemptOf(s, run) == s[run].detail.attempt
  {
    RowIsGood(s, run);
  }

  /** Every refusal of a clean reassessment has its cause, in the order of the checks. */
  lemma ReassessesExactlyWhen(s: Store, run: Id, flagged: Option<bool>, key: string, batch: Id, n: NewRun)
    requires ForeignKeysHold(s)
    ensures var r := Reassess(s, run, flagged, key, batch, n);
            var isRun := run in s && s[run].table == RunRows;
            var succeeded := isRun && s[run].detail.RunDetail? && s[run].detail.status == Succeeded;
            var clean := exists c :: Links(s, c, CleanOf, run);
            && (r == Err("not_found") <==> !isRun)
            && (r == Err("source_run_not_succeeded") <==> isRun && !succeeded)
            && (r == Err("source_run_unassessed") <==> succeeded && !clean && flagged == None)
            && (r == Err("source_run_is_safe") <==> succeeded && !clean && flagged == Some(false))
            && (succeeded && (clean || flagged == Some(true)) <==> r.Ok? || r == Err("integrity_error"))
            && (succeeded && clean ==> r.Ok? && r.value.0 == s && Links(s, r.value.1, CleanOf, run))
  {
    if IsRun(s, run) { RowIsGood(s, run); }
    assert |"not_found"| == 9 && |"source_run_not_succeeded"| == 24 && |"source_run_unassessed"| == 21
           && |"source_run_is_safe"| == 18 && |"integrity_error"| == 15;
    hide ForeignKeysHold, Enrol, Again, OwnerOf, FindBatch;
  }

  /**
   A new clean reassessment is a first attempt in a batch of its own, for the user and the
   instrument of the source run; nothing else changes.
   */
  lemma ReassessStartsAfresh(s: Store, a: Action, id: Id)
    requires Sound(s) && a.DoReassess? && Enabled(s, a) && FindClean(s, a.run).None?
    requires Reassess(s, a.run, a.flagged, a.key, a.batch, a.n).Ok?
    ensures var (u, clean) := Reassess(s, a.run, a.flagged, a.key, a.batch, a.n).value;
            && clean == a.n.run
            && (exists request: Id, batch: Id, user: Id, instrument: Id ::
                  && Links(s, a.run, RequestId, request) && Links(s, request, BatchId, batch)
                  && Links(s, batch, UserId, user) && Links(s, request, InstrumentId, instrument)
                  && IsKeyed(u, a.batch, user, a.key)
                  && IsEnrolled(u, a.batch, a.n.(instrument := instrument), CleanFrom(a.run), 1))
            && (id in u <==> id in s || id == a.batch || id in NewIds(a.n)) && (id in s ==> u[id] == s[id])
  {
    var u := Reassess(s, a.run, a.flagged, a.key, a.batch, a.n).value.0;
    ReassessIsEnrolment(s, a);
    var request := RequestOf(s, a.run);
    var batch, user, m := BatchOf(s, request), OwnerOf(s, a.run), Again(s, a.run, a.n);
    SourceColumns(s, a.run);
    AgainIsSame(s, a.run, a.n);
    var t := WithBatch(s, a.batch, user, a.key, None);
    AgainIsFresh(s, t, a.run, a.n);
    assert IsKeyed(t, a.batch, user, a.key) && a.batch in t;
    assert t.Keys == s.Keys + {a.batch} && forall k :: k in s ==> t[k] == s[k];
    hide *;
    EnrolEnrols(t, a.batch, m, CleanFrom(a.run), 1);
    EnrolGrows(t, a.batch, m, CleanFrom(a.run), 1);
    GrowthContains(t, u);
    KeyStays(t, u, a.batch, user, a.key);
  }

  lemma KeyStays(t: Store, u: Store, batch: Id, user: Id, key: string)
    requires IsKeyed(t, batch, user, key) && batch in u && u[batch] == t[batch]
    ensures IsKeyed(u, batch, user, key)
  {
  }

  lemma ReassessIsEnrolment(s: Store, a: Action)
    requires Sound(s) && a.DoReassess? && Enabled(s, a) && FindClean(s, a.run).None?
    requires Reassess(s, a.run, a.flagged, a.key, a.batch, a.n).Ok?
    ensures ForeignKeysHold(s) && IsRun(s, a.run) && a.batch !in s && FreshIds(s, a.n) && a.batch !in NewIds(a.n)
    ensures Reassess(s, a.run, a.flagged, a.key, a.batch, a.n).value ==
            (Enrol(WithBatch(s, a.batch, OwnerOf(s, a.run), a.key, None), a.batch, Again(s, a.run, a.n),
                   CleanFrom(a.run), 1), a.n.run)
  {
    hide ForeignKeysHold, Enrol, Again, OwnerOf, WithBatch, FreshIds, NewIds, FindClean, FindBatch;
  }

  /**
   Asked again with any new identifiers, an accepted clean reassessment answers with the same run and changes
   nothing.
   */
  lemma ReassessIsIdempotent(s: Store, a: Action, flagged: Option<bool>, key: string, batch: Id, n: NewRun)
    requires Sound(s) && a.DoReassess? && Enabled(s, a)
    requires Reassess(s, a.run, a.flagged, a.key, a.batch, a.n).Ok?
    ensures var (u, clean) := Reassess(s, a.run, a.flagged, a.key, a.batch, a.n).value;
            && ForeignKeysHold(u) && Links(u, clean, CleanOf, a.run)
            && Reassess(u, a.run, flagged, key, batch, n) == Ok((u, clean))
  {
    ReassessKeepsSound(s, a);
    hide ForeignKeysHold, Referenced, RequestsHaveRuns, BatchesHaveRequests, ArtifactsStayInRun, AttemptsCount,
         OneBatchPerKey, OneRunPerRequest, FindBatch, FreshIds, Enrol, WithBatch, Again, OwnerOf;
    var (u, clean) := Reassess(s, a.run, a.flagged, a.key, a.batch, a.n).value;
    if FindClean(s, a.run).None? { NewCleanLinks(s, a); }
    assert Links(u, clean, CleanOf, a.run);
    assert IsRun(u, a.run) && u[a.run] == s[a.run];
    hide FindClean, Links, OneCleanPerRun, Enabled;
    CleanIsFound(u, clean, a.run);
    KnownCleanAnswers(u, a.run, clean, flagged, key, batch, n);
  }

  lemma KnownCleanAnswers(u: Store, run: Id, clean: Id, flagged: Option<bool>, key: string, batch: Id, n: NewRun)
    requires ForeignKeysHold(u) && IsRun(u, run) && StatusOf(u, run) == Succeeded && FindClean(u, run) == Some(clean)
    ensures Reassess(u, run, flagged, key, batch, n) == Ok((u, clean))
  {
    hide ForeignKeysHold, FindClean, FindBatch, Enrol;
  }

  lemma NewCleanLinks(s: Store, a: Action)
    requires ForeignKeysHold(s) && a.DoReassess? && Enabled(s, a) && IsRun(s, a.run)
    ensures var t := WithBatch(s, a.batch, OwnerOf(s, a.run), a.key, None);
            var u := Enrol(t, a.batch, Again(s, a.run, a.n), CleanFrom(a.run), 1);
            Links(u, a.n.run, CleanOf, a.run) && a.run in u && u[a.run] == s[a.run]
  {
    hide ForeignKeysHold, OwnerOf, InstrumentOf;
  }

  lemma CleanIsFound(s: Store, clean: Id, run: Id)
    requires OneCleanPerRun(s) && Links(s, clean, CleanOf, run)
    ensures FindClean(s, run) == Some(clean)
  {
  }

  lemma OldRowsAreNotOwned(s: Store, u: Store, id: Id, run: Id)
    requires ForeignKeysHold(s) && Extends(s, u) && id in s && run !in s
    ensures !Owned(u, id, run)
  {
    hide ForeignKeysHold;
    RowIsGood(s, id);
    if s[id].table == Deliveries {
      if EventId in s[id].links && Links(s, s[id].links[EventId], RunId, run) {
        LinksResolve(s, s[id].links[EventId], RunId, run);
      }
    } else if Links(s, id, RunId, run) {
      LinksResolve(s, id, RunId, run);
    }
  }

  /** The rows of an enrolment besides the request are the run's. */
  lemma NewRowsAreOwned(s: Store, batch: Id, n: NewRun, origin: Origin, attempt: nat, id: Id)
    requires FreshIds(s, n) && id !in s && id != n.request && id in Enrol(s, batch, n, origin, attempt)
    ensures Owned(Enrol(s, batch, n, origin, attempt), id, n.run)
  {
  }

  lemma NewRequestIsUnshared(s: Store, batch: Id, n: NewRun, origin: Origin, attempt: nat)
    requires ForeignKeysHold(s) && FreshIds(s, n)
    ensures !SharedBeyond(Enrol(s, batch, n, origin, attempt), RequestId, n.request, n.run)
  {
    hide ForeignKeysHold;
    var u := Enrol(s, batch, n, origin, attempt);
    forall k | k in u && k != n.run ensures !Links(u, k, RequestId, n.request) {
      if k in s && Links(s, k, RequestId, n.request) { LinksResolve(s, k, RequestId, n.request); }
    }
  }

  lemma BatchIsSharedByOldRequests(s: Store, batch: Id, n: NewRun, origin: Origin, attempt: nat)
    requires FreshIds(s, n)
    ensures SharedBeyond(Enrol(s, batch, n, origin, attempt), BatchId, batch, n.request) <==>
              Referenced(s, BatchId, batch)
  {
    var u := Enrol(s, batch, n, origin, attempt);
    if Referenced(s, BatchId, batch) {
      var k :| k in s && Links(s, k, BatchId, batch);
      assert Links(u, k, BatchId, batch);
    }
    if SharedBeyond(u, BatchId, batch, n.request) {
      var k :| k in u && k != n.request && Links(u, k, BatchId, batch);
      assert Links(s, k, BatchId, batch);
    }
  }

  lemma NewRowsLead(s: Store, batch: Id, n: NewRun, origin: Origin, attempt: nat)
    requires FreshIds(s, n)
    ensures var u := Enrol(s, batch, n, origin, attempt);
            Links(u, n.run, RequestId, n.request) && Links(u, n.request, BatchId, batch) && SnapshotOf(u[n.run]) == None
  {
  }

  lemma ParentsByLinks(u: Store, run: Id, request: Id, batch: Id)
    requires ForeignKeysHold(u) && IsRun(u, run) && Links(u, run, RequestId, request)
             && Links(u, request, BatchId, batch)
    ensures RequestOf(u, run) == request && BatchOf(u, request) == batch
  {
  }

  /** Of a store with a new run, exactly the old rows survive its delete, less a batch that had no request before. */
  lemma OldRowsAlone(s: Store, batch: Id, n: NewRun, origin: Origin, attempt: nat, id: Id)
    requires ForeignKeysHold(s) && FreshIds(s, n) && batch in s
    requires ForeignKeysHold(Enrol(s, batch, n, origin, attempt)) && IsRun(Enrol(s, batch, n, origin, attempt), n.run)
    requires id in Enrol(s, batch, n, origin, attempt)
    ensures Survives(Enrol(s, batch, n, origin, attempt), n.run, id) <==>
            id in s && (id == batch ==> Referenced(s, BatchId, batch))
  {
    EnrolGrows(s, batch, n, origin, attempt);
    NewRowsLead(s, batch, n, origin, attempt);
    NewRequestIsUnshared(s, batch, n, origin, attempt);
    BatchIsSharedByOldRequests(s, batch, n, origin, attempt);
    hide Enrol, ForeignKeysHold, Owned, SharedBeyond, Referenced, Links, RequestOf, BatchOf, IsRun;
    var u := Enrol(s, batch, n, origin, attempt);
    ParentsByLinks(u, n.run, n.request, batch);
    if id in s {
      OldRowsAreNotOwned(s, u, id, n.run);
    } else if id != n.request {
      NewRowsAreOwned(s, batch, n, origin, attempt, id);
    }
  }

  lemma SameRows(d: Store, s: Store)
    requires d.Keys == s.Keys && forall id :: id in d ==> d[id] == s[id]
    ensures d == s
  {
  }

  lemma DeletedRow(u: Store, run: Id, id: Id)
    requires ForeignKeysHold(u) && IsRun(u, run)
    ensures id in DeleteGraph(u, run) <==> id in u && Survives(u, run, id)
    ensures id in DeleteGraph(u, run) ==> DeleteGraph(u, run)[id] == u[id]
  {
    hide *;
    DeleteTakesExactlyTheGraph(u, run);
  }

  /** Deleting a new run undoes exactly what the transaction that created it inserted, a batch of its own included. */
  lemma DeleteUndoesEnrol(s: Store, batch: Id, n: NewRun, origin: Origin, attempt: nat)
    requires ForeignKeysHold(s) && FreshIds(s, n) && batch in s && s[batch].table == Batches
             && OriginFits(s, origin, attempt)
    ensures ForeignKeysHold(Enrol(s, batch, n, origin, attempt)) && IsRun(Enrol(s, batch, n, origin, attempt), n.run)
    ensures DeleteGraph(Enrol(s, batch, n, origin, attempt), n.run) ==
            if Referenced(s, BatchId, batch) then s else s - {batch}
  {
    hide *;
    EnrolKeepsForeignKeys(s, batch, n, origin, attempt);
    var u := Enrol(s, batch, n, origin, attempt);
    var d := DeleteGraph(u, n.run);
    var expected := if Referenced(s, BatchId, batch) then s else s - {batch};
    EnrolGrows(s, batch, n, origin, attempt);
    GrowthContains(s, u);
    forall id ensures id in d <==> id in expected
      ensures id in d ==> d[id] == s[id]
    {
      DeletedRow(u, n.run, id);
      if id in u { OldRowsAlone(s, batch, n, origin, attempt, id); }
    }
    SameRows(d, expected);
  }

  lemma EnrolKeepsForeignKeys(s: Store, batch: Id, n: NewRun, origin: Origin, attempt: nat)
    requires ForeignKeysHold(s) && FreshIds(s, n) && batch in s && s[batch].table == Batches
             && OriginFits(s, origin, attempt)
    ensures ForeignKeysHold(Enrol(s, batch, n, origin, attempt)) && IsRun(Enrol(s, batch, n, origin, attempt), n.run)
  {
    hide ForeignKeysHold, Referenced, RunLinks;
    RequestRowInsert(s, batch, n);
    var r := WithRequest(s, batch, n);
    RunInsert(r, n, origin, attempt);
    var t := WithRun(r, n, origin, attempt);
    var u := t;
    if n.requirement.Some? {
      ChildInsert(t, n.requirement.value, Requirements, n.run);
      u := WithChild(t, n.requirement.value, Requirements, n.run);
    }
    ChildInsert(u, n.event, Events, n.run);
  }

  lemma GrowthContains(s: Store, u: Store)
    requires GrowsBelow(s, u)
    ensures forall id :: id in s ==> id in u && u[id] == s[id]
  {
  }
}
