/**
 The assessment tables as a relational store: typed rows with foreign keys, the
 transactions that insert and delete them, and what every sequence of transactions keeps.
 Identifiers are unique over all tables and never reused.
 */
module AssessmentStore {
  import opened Outcomes
  import opened Runs

  type Id = nat

  datatype Table =
    | Users | Instruments | Workers | Webhooks | Batches | Requests | Snapshots | RunRows
    | Requirements | Events | Deliveries | Reviews | Comments | Leases | Steps
    | Integrity | Artifacts | Decisions | Evidence | Validations | PriceBases

  /** The foreign-key columns. The user columns of all tables share one name here. */
  datatype Column =
    | UserId | InstrumentId | WorkerId | WebhookId | BatchId | RequestId | SnapshotId
    | RunId | RetryOf | CleanOf | EventId | ArtifactId

  function Target(c: Column): Table {
    match c
    case UserId => Users
    case InstrumentId => Instruments
    case WorkerId => Workers
    case WebhookId => Webhooks
    case BatchId => Batches
    case RequestId => Requests
    case SnapshotId => Snapshots
    case RunId => RunRows
    case RetryOf => RunRows
    case CleanOf => RunRows
    case EventId => Events
    case ArtifactId => Artifacts
  }

  /** The columns that must have a value. */
  function Mandatory(t: Table): set<Column> {
    match t
    case Users => {}
    case Instruments => {}
    case Workers => {}
    case Snapshots => {}
    case Webhooks => {UserId}
    case Batches => {UserId}
    case Requests => {BatchId, InstrumentId}
    case RunRows => {RequestId}
    case Deliveries => {WebhookId, EventId}
    case Reviews => {RunId, UserId}
    case Comments => {RunId, UserId}
    case Leases => {RunId, WorkerId}
    case _ => {RunId}
  }

  function Nullable(t: Table): set<Column> {
    match t
    case RunRows => {SnapshotId, RetryOf, CleanOf}
    case Integrity => {ArtifactId}
    case Evidence => {ArtifactId}
    case Validations => {ArtifactId}
    case _ => {}
  }

  datatype Detail =
    | Nothing
    | RunDetail(status: RunStatus, attempt: nat)
    | WorkDetail(running: bool)
    | BatchDetail(key: string, digest: Option<string>)

  datatype Row = Row(table: Table, links: map<Column, Id>, detail: Detail)

  type Store = map<Id, Row>

  predicate Typed(row: Row) {
    && Mandatory(row.table) <= row.links.Keys <= Mandatory(row.table) + Nullable(row.table)
    && (row.table == RunRows <==> row.detail.RunDetail?)
    && (row.table == Batches <==> row.detail.BatchDetail?)
  }

  predicate Links(s: Store, id: Id, c: Column, target: Id) {
    id in s && c in s[id].links && s[id].links[c] == target
  }

  predicate Resolves(s: Store, row: Row) {
    forall c :: c in row.links ==> row.links[c] in s && s[row.links[c]].table == Target(c)
  }

  predicate RowHolds(s: Store, id: Id) {
    id in s ==> Typed(s[id]) && Resolves(s, s[id])
  }

  ghost predicate ForeignKeysHold(s: Store) {
    forall id :: RowHolds(s, id)
  }

  // ---------------------------------------------------------------------
  // Deleting one run
  // ---------------------------------------------------------------------

  /** The rows of a run: its own row, the rows that name it, and the deliveries of its events. */
  predicate Owned(s: Store, id: Id, runId: Id) {
    id in s &&
    if s[id].table == RunRows then id == runId
    else if s[id].table == Deliveries then EventId in s[id].links && Links(s, s[id].links[EventId], RunId, runId)
    else Links(s, id, RunId, runId)
  }

  const DELETE_ORDER: seq<Table> := [
    Deliveries, Integrity, Validations, PriceBases, Evidence, Reviews, Comments, Decisions,
    Leases, Steps, Artifacts, Events, Requirements, RunRows]

  function RemoveOwned(s: Store, table: Table, runId: Id): Store {
    map id | id in s && !(s[id].table == table && Owned(s, id, runId)) :: s[id]
  }

  /** The store after the first `k` removals. */
  function RemoveFirst(s: Store, k: nat, runId: Id): Store
    requires k <= |DELETE_ORDER|
  {
    if k == 0 then s else RemoveOwned(RemoveFirst(s, k - 1, runId), DELETE_ORDER[k - 1], runId)
  }

  predicate Referenced(s: Store, c: Column, target: Id) {
    exists id :: id in s && Links(s, id, c, target)
  }

  function DropUnreferenced(s: Store, c: Column, target: Id): Store {
    if Referenced(s, c, target) then s else s - {target}
  }

  predicate IsRun(s: Store, id: Id) {
    id in s && s[id].table == RunRows
  }

  lemma HasParent(s: Store, id: Id)
    requires ForeignKeysHold(s) && id in s
    ensures s[id].table == RunRows ==> RequestId in s[id].links && Resolves(s, s[id])
    ensures s[id].table == Requests ==> BatchId in s[id].links && Resolves(s, s[id])
  {
    assert RowHolds(s, id);
  }

  function RequestOf(s: Store, runId: Id): (request: Id)
    requires ForeignKeysHold(s) && IsRun(s, runId)
    ensures Links(s, runId, RequestId, request) && request in s && s[request].table == Requests
  {
    HasParent(s, runId);
    s[runId].links[RequestId]
  }

  function BatchOf(s: Store, request: Id): (batch: Id)
    requires ForeignKeysHold(s) && request in s && s[request].table == Requests
    ensures Links(s, request, BatchId, batch) && batch in s && s[batch].table == Batches
  {
    HasParent(s, request);
    s[request].links[BatchId]
  }

  /** The request goes with its last run, the batch with its last request. */
  function DropParents(bare: Store, request: Id, batch: Id): Store {
    if Referenced(bare, RequestId, request) then bare
    else DropUnreferenced(bare - {request}, BatchId, batch)
  }

  function DropSnapshot(s: Store, snapshot: Option<Id>): Store {
    match snapshot case None => s case Some(id) => DropUnreferenced(s, SnapshotId, id)
  }

  function SnapshotOf(row: Row): Option<Id> {
    if SnapshotId in row.links then Some(row.links[SnapshotId]) else None
  }

  function DeleteGraph(s: Store, runId: Id): Store
    requires ForeignKeysHold(s) && IsRun(s, runId)
  {
    var request := RequestOf(s, runId);
    var batch := BatchOf(s, request);
    DropSnapshot(DropParents(RemoveFirst(s, |DELETE_ORDER|, runId), request, batch), SnapshotOf(s[runId]))
  }

  // ---------------------------------------------------------------------
  // The guards of the delete
  // ---------------------------------------------------------------------

  predicate HasActiveWork(s: Store, runId: Id) {
    exists id :: id in s && Links(s, id, RunId, runId)
      && (s[id].table == Leases || (s[id].table in {Validations, PriceBases} && s[id].detail == WorkDetail(true)))
  }

  function DependentRuns(s: Store, runId: Id): set<Id> {
    set id | id in s && s[id].table == RunRows && (Links(s, id, RetryOf, runId) || Links(s, id, CleanOf, runId))
  }

  function StatusOf(s: Store, runId: Id): RunStatus
    requires ForeignKeysHold(s) && IsRun(s, runId)
  {
    assert RowHolds(s, runId);
    s[runId].detail.status
  }

  datatype DeleteError = NotFound | RunNotTerminal(status: RunStatus) | ActiveWork | DependentRunsExist(ids: set<Id>)

  function Delete(s: Store, runId: Id): Result<Store, DeleteError>
    requires ForeignKeysHold(s)
  {
    if !IsRun(s, runId) then Err(NotFound)
    else if StatusOf(s, runId) !in TERMINAL then Err(RunNotTerminal(StatusOf(s, runId)))
    else if HasActiveWork(s, runId) then Err(ActiveWork)
    else if DependentRuns(s, runId) != {} then Err(DependentRunsExist(DependentRuns(s, runId)))
    else Ok(DeleteGraph(s, runId))
  }

  // ---------------------------------------------------------------------
  // The guards, over rows and columns
  // ---------------------------------------------------------------------

  /** The row is a worker's lease of the run, or a validation or price basis of it that is still running. */
  ghost predicate WorksOn(row: Row, runId: Id) {
    && RunId in row.links && row.links[RunId] == runId
    && (row.table == Leases
        || (row.table == Validations && row.detail == WorkDetail(true))
        || (row.table == PriceBases && row.detail == WorkDetail(true)))
  }

  /** The row is a run that retries this one or re-assesses it. */
  ghost predicate BuildsOn(row: Row, runId: Id) {
    && row.table == RunRows
    && ((RetryOf in row.links && row.links[RetryOf] == runId) || (CleanOf in row.links && row.links[CleanOf] == runId))
  }

  ghost predicate IsWorkedOn(s: Store, runId: Id) {
    exists id :: id in s && WorksOn(s[id], runId)
  }

  ghost predicate HasEnded(s: Store, runId: Id) {
    runId in s && s[runId].table == RunRows && s[runId].detail.RunDetail? && s[runId].detail.status in TERMINAL
  }

  /** A run that has ended, on which nobody works and on which no run builds. */
  ghost predicate MayDelete(s: Store, runId: Id) {
    && HasEnded(s, runId)
    && forall id :: id in s ==> !WorksOn(s[id], runId) && !BuildsOn(s[id], runId)
  }

  /** Each refusal has its cause; a later one presupposes that the earlier causes are absent. */
  ghost predicate IsRefusal(s: Store, runId: Id, error: DeleteError) {
    match error
    case NotFound => runId !in s || s[runId].table != RunRows
    case RunNotTerminal(status) =>
      && runId in s && s[runId].table == RunRows && s[runId].detail.RunDetail?
      && status == s[runId].detail.status && status !in TERMINAL
    case ActiveWork => HasEnded(s, runId) && IsWorkedOn(s, runId)
    case DependentRunsExist(ids) =>
      && HasEnded(s, runId) && !IsWorkedOn(s, runId) && ids != {}
      && forall id :: id in ids <==> id in s && BuildsOn(s[id], runId)
  }

  lemma WorkIsActive(s: Store, runId: Id)
    ensures HasActiveWork(s, runId) <==> IsWorkedOn(s, runId)
  {
    if HasActiveWork(s, runId) {
      var id :| id in s && Links(s, id, RunId, runId)
                && (s[id].table == Leases
                    || (s[id].table in {Validations, PriceBases} && s[id].detail == WorkDetail(true)));
      assert WorksOn(s[id], runId);
    }
    if IsWorkedOn(s, runId) {
      var id :| id in s && WorksOn(s[id], runId);
      assert Links(s, id, RunId, runId);
    }
  }

  lemma BuildersAreDependents(s: Store, runId: Id)
    ensures forall id :: id in DependentRuns(s, runId) <==> id in s && BuildsOn(s[id], runId)
  {
  }

  /** The guarded delete happens exactly when it may, and each error comes exactly for its cause. */
  lemma DeletesExactlyWhen(s: Store, runId: Id)
    requires ForeignKeysHold(s)
    ensures Delete(s, runId).Ok? <==> MayDelete(s, runId)
    ensures forall e :: Delete(s, runId) == Err(e) <==> IsRefusal(s, runId, e)
  {
    WorkIsActive(s, runId);
    BuildersAreDependents(s, runId);
    if IsRun(s, runId) { assert RowHolds(s, runId); }
    hide HasActiveWork, DependentRuns, DeleteGraph, WorksOn, BuildsOn, RowHolds, ForeignKeysHold;
    forall e ensures Delete(s, runId) == Err(e) <==> IsRefusal(s, runId, e) {
      match e
      case DependentRunsExist(ids) =>
        assert (forall id :: id in ids <==> id in DependentRuns(s, runId)) <==> ids == DependentRuns(s, runId);
      case _ =>
    }
  }

  /** Rows that name an artifact belong to the artifact's run. */
  ghost predicate ArtifactsStayInRun(s: Store) {
    forall id :: id in s && ArtifactId in s[id].links && RunId in s[id].links ==>
      Links(s, s[id].links[ArtifactId], RunId, s[id].links[RunId])
  }

  /** No row of another run names an artifact of this run. */
  ghost predicate ArtifactsArePrivate(s: Store, runId: Id) {
    forall id :: id in s && ArtifactId in s[id].links && Owned(s, s[id].links[ArtifactId], runId) ==>
        Links(s, id, RunId, runId)
  }

  lemma StayingInRunIsPrivate(s: Store, runId: Id)
    requires ForeignKeysHold(s) && ArtifactsStayInRun(s)
    ensures ArtifactsArePrivate(s, runId)
  {
    hide Mandatory, Nullable, Rank, ForeignKeysHold;
    forall id | id in s && ArtifactId in s[id].links && Owned(s, s[id].links[ArtifactId], runId)
      ensures Links(s, id, RunId, runId)
    {
      RowIsGood(s, id);
      ArtifactColumn(s[id].table);
      assert Links(s, s[id].links[ArtifactId], RunId, s[id].links[RunId]);
    }
  }

  // ---------------------------------------------------------------------
  // Every single removal keeps the foreign keys
  // ---------------------------------------------------------------------

  /** The place of a table in the order of removals; tables that stay come after all of them. */
  function Rank(t: Table): nat {
    match t
    case Deliveries => 0
    case Integrity => 1
    case Validations => 2
    case PriceBases => 3
    case Evidence => 4
    case Reviews => 5
    case Comments => 6
    case Decisions => 7
    case Leases => 8
    case Steps => 9
    case Artifacts => 10
    case Events => 11
    case Requirements => 12
    case RunRows => 13
    case _ => 14
  }

  lemma RankIsPlace(t: Table, k: nat)
    requires k < |DELETE_ORDER|
    ensures |DELETE_ORDER| == 14 && (DELETE_ORDER[k] == t <==> Rank(t) == k)
  {
  }

  /** What is left after the first `k` removals, said at once. */
  function Left(s: Store, k: nat, runId: Id): Store {
    map id | id in s && !(Rank(s[id].table) < k && Owned(s, id, runId)) :: s[id]
  }

  lemma OwnedByName(s: Store, k: nat, runId: Id, id: Id)
    requires id in Left(s, k, runId) && s[id].table != Deliveries
    ensures Owned(Left(s, k, runId), id, runId) <==> Owned(s, id, runId)
  {
  }

  lemma OneRemoval(s: Store, k: nat, t: Table, runId: Id)
    requires forall u: Table :: Rank(u) == k <==> u == t
    requires k > 0 ==> t != Deliveries
    ensures RemoveOwned(Left(s, k, runId), t, runId) == Left(s, k + 1, runId)
  {
    hide Owned, Rank;
    var left := Left(s, k, runId);
    if k == 0 {
      assert left == s;
    } else {
      forall id | id in left && left[id].table == t ensures Owned(left, id, runId) <==> Owned(s, id, runId) {
        OwnedByName(s, k, runId, id);
      }
    }
  }

  /** Removing table by table leaves exactly the rows that are not the run's. */
  lemma {:induction false} RemovalsLeave(s: Store, k: nat, runId: Id)
    requires k <= |DELETE_ORDER|
    ensures RemoveFirst(s, k, runId) == Left(s, k, runId)
  {
    hide Owned, Left, RemoveOwned, Rank;
    if k > 0 {
      RemovalsLeave(s, k - 1, runId);
      forall u: Table ensures Rank(u) == k - 1 <==> u == DELETE_ORDER[k - 1] { RankIsPlace(u, k - 1); }
      RankIsPlace(Deliveries, 0);
      RankIsPlace(Deliveries, k - 1);
      OneRemoval(s, k - 1, DELETE_ORDER[k - 1], runId);
    } else {
      NothingRemoved(s, runId);
    }
  }

  lemma NothingRemoved(s: Store, runId: Id)
    ensures Left(s, 0, runId) == s
  {
  }

  /** Which tables may hold a column that leads into the rows of a run. */
  lemma HoldersOf(c: Column, t: Table)
    requires c in Mandatory(t) + Nullable(t) && Rank(Target(c)) < 14
    ensures c == RetryOf || c == CleanOf ==> t == RunRows
    ensures c != RetryOf && c != CleanOf ==> Rank(t) < Rank(Target(c)) && t != RunRows
    ensures c == EventId ==> t == Deliveries
    ensures c != EventId ==> t != Deliveries
    ensures c == ArtifactId ==> RunId in Mandatory(t)
    ensures c in {RunId, RetryOf, CleanOf, EventId, ArtifactId}
  {
  }

  lemma RetriesAreDependents(s: Store, id: Id, runId: Id)
    requires id in s && s[id].table == RunRows && (Links(s, id, RetryOf, runId) || Links(s, id, CleanOf, runId))
    ensures DependentRuns(s, runId) != {}
  {
    assert id in DependentRuns(s, runId);
  }

  lemma ReferrerIsOwned(s: Store, id: Id, c: Column, runId: Id)
    requires ArtifactsArePrivate(s, runId) && id in s && c in s[id].links && c in {RunId, EventId, ArtifactId}
    requires s[id].table != RunRows && (c == EventId <==> s[id].table == Deliveries)
    requires c == ArtifactId ==> RunId in s[id].links
    requires s[id].links[c] in s && s[s[id].links[c]].table == Target(c) && Owned(s, s[id].links[c], runId)
    ensures Owned(s, id, runId)
  {
  }

  /** Whoever refers to a row of a run belongs to that run and is deleted before it. */
  lemma ReferrerGoesFirst(s: Store, id: Id, c: Column, runId: Id)
    requires ForeignKeysHold(s) && ArtifactsArePrivate(s, runId) && DependentRuns(s, runId) == {}
    requires id in s && c in s[id].links && Owned(s, s[id].links[c], runId) && Rank(s[s[id].links[c]].table) < 14
    ensures Owned(s, id, runId) && Rank(s[id].table) < Rank(s[s[id].links[c]].table)
  {
    hide Mandatory, Nullable, Rank, Owned, ArtifactsArePrivate, DependentRuns, ForeignKeysHold;
    var x := s[id].links[c];
    RowIsGood(s, id);
    HoldersOf(c, s[id].table);
    if c == RetryOf || c == CleanOf {
      OwnedRun(s, x, runId);
      RetriesAreDependents(s, id, runId);
    } else {
      ReferrerIsOwned(s, id, c, runId);
    }
  }

  lemma OwnedRun(s: Store, x: Id, runId: Id)
    requires Owned(s, x, runId) && s[x].table == RunRows
    ensures x == runId
  {
  }

  lemma RowIsGood(s: Store, id: Id)
    requires ForeignKeysHold(s) && id in s
    ensures Typed(s[id]) && Resolves(s, s[id])
  {
    assert RowHolds(s, id);
  }

  /** The foreign keys hold after each of the removals, not only after the last. */
  lemma EachRemovalKeepsForeignKeys(s: Store, runId: Id, k: nat)
    requires ForeignKeysHold(s) && ArtifactsArePrivate(s, runId) && DependentRuns(s, runId) == {}
    requires k <= |DELETE_ORDER|
    ensures ForeignKeysHold(RemoveFirst(s, k, runId))
  {
    hide Owned, Rank, Typed, DependentRuns, ArtifactsArePrivate, RemoveFirst;
    RemovalsLeave(s, k, runId);
    var left := Left(s, k, runId);
    RankIsPlace(RunRows, 13);
    forall id | id in left ensures Typed(left[id]) && Resolves(left, left[id]) {
      RowIsGood(s, id);
      forall c | c in left[id].links ensures left[id].links[c] in left && left[left[id].links[c]].table == Target(c) {
        if left[id].links[c] !in left {
          ReferrerGoesFirst(s, id, c, runId);
        }
      }
    }
  }

  /** A run that retries or re-assesses this one, or an outsider's reference to its artifact, breaks a removal. */
  lemma BrokenReferenceShows(s: Store, runId: Id, id: Id, c: Column, k: nat)
    requires ForeignKeysHold(s) && k <= |DELETE_ORDER|
    requires id in s && c in s[id].links && Owned(s, s[id].links[c], runId) && Rank(s[s[id].links[c]].table) < k
    requires !Owned(s, id, runId)
    ensures !ForeignKeysHold(RemoveFirst(s, k, runId))
  {
    hide Owned, Rank, Typed, RemoveFirst;
    RemovalsLeave(s, k, runId);
    var left := Left(s, k, runId);
    assert id in left && left[id].links[c] !in left;
    assert !RowHolds(left, id);
  }

  /**
   The foreign keys hold after every removal exactly when no run depends on this one
   and no row of another run names one of its artifacts.
   */
  lemma RemovalsAreSafeExactlyWhen(s: Store, runId: Id)
    requires ForeignKeysHold(s) && IsRun(s, runId)
    requires !Links(s, runId, RetryOf, runId) && !Links(s, runId, CleanOf, runId)
    ensures (forall k: nat :: k <= |DELETE_ORDER| ==> ForeignKeysHold(RemoveFirst(s, k, runId))) <==>
            DependentRuns(s, runId) == {} && ArtifactsArePrivate(s, runId)
  {
    hide Mandatory, Nullable, RemoveFirst, ForeignKeysHold;
    RankIsPlace(RunRows, 13);
    if DependentRuns(s, runId) == {} && ArtifactsArePrivate(s, runId) {
      forall k: nat | k <= |DELETE_ORDER| { EachRemovalKeepsForeignKeys(s, runId, k); }
    } else if DependentRuns(s, runId) != {} {
      var id :| id in DependentRuns(s, runId);
      BrokenReferenceShows(s, runId, id, if Links(s, id, RetryOf, runId) then RetryOf else CleanOf, 14);
    } else {
      var id :| id in s && ArtifactId in s[id].links && Owned(s, s[id].links[ArtifactId], runId)
        && !Links(s, id, RunId, runId);
      ArtifactHolders(s, id);
      BrokenReferenceShows(s, runId, id, ArtifactId, 11);
    }
  }

  lemma ArtifactHolders(s: Store, id: Id)
    requires ForeignKeysHold(s) && id in s && ArtifactId in s[id].links
    ensures s[id].table != RunRows && s[id].table != Deliveries
    ensures s[id].links[ArtifactId] in s && s[s[id].links[ArtifactId]].table == Artifacts
  {
    hide Mandatory, Nullable, Rank, ForeignKeysHold;
    RowIsGood(s, id);
    ArtifactColumn(s[id].table);
  }

  lemma ArtifactColumn(t: Table)
    requires ArtifactId in Mandatory(t) + Nullable(t)
    ensures t != RunRows && t != Deliveries && RunId in Mandatory(t)
  {
  }

  // ---------------------------------------------------------------------
  // What a delete leaves
  // ---------------------------------------------------------------------

  /** A row other than `except` leads to `target`. */
  predicate SharedBeyond(s: Store, c: Column, target: Id, except: Id) {
    exists id :: id in s && id != except && Links(s, id, c, target)
  }

  /**
   A row outlives the delete of a run when it is not the run's, and when, being the
   request, the batch or the configuration snapshot of the run, others still use it.
   */
  predicate Survives(s: Store, runId: Id, id: Id)
    requires ForeignKeysHold(s) && IsRun(s, runId)
  {
    var request := RequestOf(s, runId);
    var batch := BatchOf(s, request);
    && !Owned(s, id, runId)
    && (id == request ==> SharedBeyond(s, RequestId, request, runId))
    && (id == batch ==> SharedBeyond(s, RequestId, request, runId) || SharedBeyond(s, BatchId, batch, request))
    && (SnapshotOf(s[runId]) == Some(id) ==> SharedBeyond(s, SnapshotId, id, runId))
  }

  lemma OnlyRunsAndRequestsLead(s: Store, id: Id, c: Column)
    requires ForeignKeysHold(s) && id in s && c in s[id].links
    ensures c == RequestId || c == SnapshotId ==> s[id].table == RunRows
    ensures c == BatchId ==> s[id].table == Requests && RunId !in s[id].links
  {
    hide Mandatory, Nullable;
    RowIsGood(s, id);
    LeadingColumns(c, s[id].table);
    if RunId in s[id].links { LeadingColumns(RunId, s[id].table); }
  }

  lemma LeadingColumns(c: Column, t: Table)
    requires c in Mandatory(t) + Nullable(t)
    ensures c == RequestId || c == SnapshotId ==> t == RunRows
    ensures c == BatchId ==> t == Requests
    ensures c == RunId ==> t != Requests
  {
  }

  lemma LeftRunsLead(s: Store, runId: Id, c: Column, target: Id)
    requires ForeignKeysHold(s) && c in {RequestId, SnapshotId}
    ensures Referenced(Left(s, 14, runId), c, target) <==> SharedBeyond(s, c, target, runId)
  {
    var left := Left(s, 14, runId);
    forall id | id in s && Links(s, id, c, target) ensures id in left <==> id != runId {
      OnlyRunsAndRequestsLead(s, id, c);
    }
    if SharedBeyond(s, c, target, runId) {
      var id :| id in s && id != runId && Links(s, id, c, target);
      assert Links(left, id, c, target);
    }
    if Referenced(left, c, target) {
      var id :| id in left && Links(left, id, c, target);
      assert Links(s, id, c, target);
    }
  }

  lemma LeftRequestsLead(s: Store, runId: Id, request: Id, batch: Id)
    requires ForeignKeysHold(s)
    ensures Referenced(Left(s, 14, runId) - {request}, BatchId, batch) <==> SharedBeyond(s, BatchId, batch, request)
  {
    var left := Left(s, 14, runId) - {request};
    forall id | id in s && Links(s, id, BatchId, batch) ensures id in left <==> id != request {
      OnlyRunsAndRequestsLead(s, id, BatchId);
    }
    if SharedBeyond(s, BatchId, batch, request) {
      var id :| id in s && id != request && Links(s, id, BatchId, batch);
      assert Links(left, id, BatchId, batch);
    }
    if Referenced(left, BatchId, batch) {
      var id :| id in left && Links(left, id, BatchId, batch);
      assert Links(s, id, BatchId, batch);
    }
  }

  /** Dropping what is neither a run nor the row itself hides no snapshot reference. */
  lemma DroppingKeepsRuns(s: Store, c: Column, target: Id, dropped: set<Id>)
    requires forall id :: id in s && c in s[id].links ==> id !in dropped
    ensures Referenced(s - dropped, c, target) <==> Referenced(s, c, target)
  {
    if Referenced(s, c, target) {
      var id :| id in s && Links(s, id, c, target);
      assert Links(s - dropped, id, c, target);
    }
    if Referenced(s - dropped, c, target) {
      var id :| id in s - dropped && Links(s - dropped, id, c, target);
      assert Links(s, id, c, target);
    }
  }

  /** The rows dropped as parents. */
  function DroppedParents(s: Store, runId: Id, request: Id, batch: Id): set<Id> {
    if SharedBeyond(s, RequestId, request, runId) then {}
    else if SharedBeyond(s, BatchId, batch, request) then {request} else {request, batch}
  }

  lemma ParentsDropped(s: Store, runId: Id, request: Id, batch: Id)
    requires ForeignKeysHold(s)
    ensures DropParents(Left(s, 14, runId), request, batch) ==
            Left(s, 14, runId) - DroppedParents(s, runId, request, batch)
  {
    hide Left, Referenced, SharedBeyond, ForeignKeysHold;
    LeftRunsLead(s, runId, RequestId, request);
    LeftRequestsLead(s, runId, request, batch);
  }

  lemma SnapshotDropped(s: Store, runId: Id, request: Id, batch: Id, snapshot: Id)
    requires ForeignKeysHold(s) && request in s && batch in s && s[request].table == Requests
             && s[batch].table == Batches
    ensures var u := Left(s, 14, runId) - DroppedParents(s, runId, request, batch);
            DropSnapshot(u, Some(snapshot)) ==
            if SharedBeyond(s, SnapshotId, snapshot, runId) then u else u - {snapshot}
  {
    hide Referenced, SharedBeyond, Owned, Links, ForeignKeysHold;
    var dropped := DroppedParents(s, runId, request, batch);
    var left := Left(s, 14, runId);
    forall id | id in left && SnapshotId in left[id].links ensures id !in dropped {
      OnlyRunsAndRequestsLead(s, id, SnapshotId);
    }
    DroppingKeepsRuns(left, SnapshotId, snapshot, dropped);
    LeftRunsLead(s, runId, SnapshotId, snapshot);
  }

  /** The delete takes exactly the rows that do not survive, and changes no other row. */
  lemma DeleteTakesExactlyTheGraph(s: Store, runId: Id)
    requires ForeignKeysHold(s) && IsRun(s, runId)
    ensures DeleteGraph(s, runId) == map id | id in s && Survives(s, runId, id) :: s[id]
  {
    hide Owned, RemoveFirst, Referenced, SharedBeyond, Mandatory, Nullable, Links, ForeignKeysHold, DropParents;
    RankIsPlace(RunRows, 13);
    var request := RequestOf(s, runId);
    var batch := BatchOf(s, request);
    RemovalsLeave(s, 14, runId);
    ParentsDropped(s, runId, request, batch);
    var bare := Left(s, 14, runId) - DroppedParents(s, runId, request, batch);
    match SnapshotOf(s[runId]) {
      case Some(snapshot) =>
        SnapshotDropped(s, runId, request, batch, snapshot);
      case None =>
    }
    assert DeleteGraph(s, runId) == DropSnapshot(bare, SnapshotOf(s[runId]));
    forall id | id in s ensures id in DeleteGraph(s, runId) <==> Survives(s, runId, id) {
      if Owned(s, id, runId) { OwnedIsRemoved(s, id, runId); }
    }
  }

  lemma RunChildrenAreRemoved(t: Table)
    requires RunId in Mandatory(t) + Nullable(t) || t == RunRows || t == Deliveries
    ensures Rank(t) < 14
  {
  }

  lemma OwnedIsRemoved(s: Store, id: Id, runId: Id)
    requires ForeignKeysHold(s) && Owned(s, id, runId)
    ensures Rank(s[id].table) < 14
  {
    hide Mandatory, Nullable, Rank;
    RowIsGood(s, id);
    RunChildrenAreRemoved(s[id].table);
  }

  /** A column that is the only one to lead into its table. */
  predicate SoleColumn(c: Column) {
    c in {RequestId, BatchId, SnapshotId}
  }

  lemma SoleColumnRefers(s: Store, id: Id, d: Column, c: Column, target: Id)
    requires SoleColumn(c) && id in s && d in s[id].links && s[id].links[d] == target && Target(d) == Target(c)
    ensures Referenced(s, c, target)
  {
    assert Links(s, id, c, target);
  }

  lemma DropKeepsForeignKeys(s: Store, c: Column, target: Id)
    requires ForeignKeysHold(s) && SoleColumn(c) && (target in s ==> s[target].table == Target(c))
    ensures ForeignKeysHold(DropUnreferenced(s, c, target))
  {
    hide Typed;
    var left := DropUnreferenced(s, c, target);
    if !Referenced(s, c, target) {
      forall id | id in left ensures Typed(left[id]) && Resolves(left, left[id]) {
        RowIsGood(s, id);
        forall d | d in left[id].links ensures left[id].links[d] in left && left[left[id].links[d]].table == Target(d) {
          if left[id].links[d] == target {
            SoleColumnRefers(s, id, d, c, target);
          }
        }
      }
    }
  }

  /**
   After the rows of the run, the request, the batch and the snapshot go one by one, and the foreign keys
   hold each time.
   */
  lemma DroppingParentsKeepsForeignKeys(s: Store, runId: Id)
    requires ForeignKeysHold(s) && ArtifactsArePrivate(s, runId) && DependentRuns(s, runId) == {} && IsRun(s, runId)
    ensures var request, bare := RequestOf(s, runId), RemoveFirst(s, |DELETE_ORDER|, runId);
            && ForeignKeysHold(DropUnreferenced(bare, RequestId, request))
            && ForeignKeysHold(DropParents(bare, request, BatchOf(s, request)))
            && ForeignKeysHold(DeleteGraph(s, runId))
  {
    hide Owned, RemoveFirst, Referenced, Mandatory, Nullable, Links, ForeignKeysHold, Left;
    var request := RequestOf(s, runId);
    var batch := BatchOf(s, request);
    var bare := RemoveFirst(s, |DELETE_ORDER|, runId);
    RankIsPlace(RunRows, 13);
    EachRemovalKeepsForeignKeys(s, runId, 14);
    RemovalsLeave(s, 14, runId);
    assert DELETE_ORDER[..14] == DELETE_ORDER;
    LeftKeepsTables(s, 14, runId);
    DropKeepsForeignKeys(bare, RequestId, request);
    DropKeepsForeignKeys(DropUnreferenced(bare, RequestId, request), BatchId, batch);
    if SnapshotId in s[runId].links {
      RowIsGood(s, runId);
      DropKeepsForeignKeys(DropParents(bare, request, batch), SnapshotId, s[runId].links[SnapshotId]);
    }
  }

  lemma LeftKeepsTables(s: Store, k: nat, runId: Id)
    ensures forall id :: id in Left(s, k, runId) ==> id in s && Left(s, k, runId)[id] == s[id]
  {
  }

  lemma OwnerIsUnique(s: Store, id: Id, a: Id, b: Id)
    requires Owned(s, id, a) && Owned(s, id, b)
    ensures a == b
  {
  }

  lemma ParentsAreNotOwned(t: Table)
    requires Rank(t) < 14
    ensures t != Requests && t != Batches && t != Snapshots
  {
  }

  /** A delete changes no row of another run. */
  lemma OtherRunsUntouched(s: Store, runId: Id, other: Id, id: Id)
    requires ForeignKeysHold(s) && IsRun(s, runId) && other != runId && Owned(s, id, other)
    ensures id in DeleteGraph(s, runId) && DeleteGraph(s, runId)[id] == s[id]
  {
    hide Mandatory, Nullable, Rank, DeleteGraph, ForeignKeysHold, SharedBeyond;
    DeleteTakesExactlyTheGraph(s, runId);
    OwnedIsRemoved(s, id, other);
    ParentsAreNotOwned(s[id].table);
    RowIsGood(s, runId);
    if Owned(s, id, runId) { OwnerIsUnique(s, id, runId, other); }
    hide Owned;
  }

  /** A configuration snapshot outlives a delete exactly when another run still uses it or the run never did. */
  lemma SharedSnapshotsAreKept(s: Store, runId: Id, snapshot: Id)
    requires ForeignKeysHold(s) && IsRun(s, runId) && snapshot in s && s[snapshot].table == Snapshots
    ensures snapshot in DeleteGraph(s, runId) <==>
            SharedBeyond(s, SnapshotId, snapshot, runId) || SnapshotOf(s[runId]) != Some(snapshot)
  {
    DeleteTakesExactlyTheGraph(s, runId);
    if Owned(s, snapshot, runId) { OwnedIsRemoved(s, snapshot, runId); }
    var request := RequestOf(s, runId);
    assert BatchOf(s, request) != snapshot && request != snapshot;
  }
}
