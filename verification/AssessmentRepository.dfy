/**
 The repository of the assessment store, changing its rows in place and counting what a
 delete removes, and the service's guarded delete.
 */
module AssessmentRepository {
  import opened Outcomes
  import opened Runs
  import opened AssessmentStore

  function RowsOf(s: Store, t: Table): set<Id> {
    set id | id in s && s[id].table == t
  }

  /** The counts say for every table how many of its rows are gone; an unlisted table lost none. */
  ghost predicate Tallied(before: Store, now: Store, counts: map<Table, nat>) {
    forall t: Table :: |RowsOf(before, t)| == |RowsOf(now, t)| + (if t in counts then counts[t] else 0)
  }

  lemma RemovalTallies(before: Store, now: Store, gone: set<Id>, t: Table, counts: map<Table, nat>)
    requires Tallied(before, now, counts) && t !in counts
    requires forall id :: id in gone ==> id in now && now[id].table == t
    ensures Tallied(before, now - gone, counts[t := |gone|])
  {
    forall u: Table ensures |RowsOf(now, u)| == |RowsOf(now - gone, u)| + (if u == t then |gone| else 0) {
      if u == t {
        assert RowsOf(now - gone, t) == RowsOf(now, t) - gone;
        assert gone <= RowsOf(now, t);
      } else {
        assert RowsOf(now - gone, u) == RowsOf(now, u);
      }
    }
  }

  class AssessmentRepository {
    var rows: Store

    constructor (rows: Store)
      ensures this.rows == rows
    {
      this.rows := rows;
    }

    /** One `DELETE` on a table; the count is the number of rows it hits. */
    method Remove(gone: set<Id>, table: Table, ghost before: Store, counts: map<Table, nat>)
      returns (counted: map<Table, nat>)
      requires Tallied(before, rows, counts) && table !in counts
      requires forall id :: id in gone ==> id in rows && rows[id].table == table
      modifies this
      ensures rows == old(rows) - gone
      ensures Tallied(before, rows, counted) && counted == counts[table := |gone|]
    {
      RemovalTallies(before, rows, gone, table, counts);
      rows := rows - gone;
      counted := counts[table := |gone|];
    }

    method RemoveOfRun(table: Table, run: Id, ghost before: Store, counts: map<Table, nat>)
      returns (counted: map<Table, nat>)
      requires Rank(table) < |DELETE_ORDER|
      requires Tallied(before, rows, counts) && rows == RemoveFirst(before, Rank(table), run)
      requires forall t :: t in counts ==> Rank(t) < Rank(table)
      modifies this
      ensures Tallied(before, rows, counted) && rows == RemoveFirst(before, Rank(table) + 1, run)
      ensures forall t :: t in counted ==> Rank(t) < Rank(table) + 1
    {
      hide Owned, Rank, Tallied, RemoveFirst;
      var gone := set id | id in rows && rows[id].table == table && Owned(rows, id, run);
      counted := Remove(gone, table, before, counts);
      assert rows == RemoveOwned(old(rows), table, run);
      RemovalStep(before, table, run);
    }

    method RemoveUnreferenced(column: Column, target: Id, ghost before: Store, counts: map<Table, nat>)
      returns (counted: map<Table, nat>)
      requires Tallied(before, rows, counts) && Target(column) !in counts
      requires target in rows ==> rows[target].table == Target(column)
      modifies this
      ensures Tallied(before, rows, counted) && rows == DropUnreferenced(old(rows), column, target)
      ensures counted.Keys <= counts.Keys + {Target(column)}
    {
      hide Tallied, Referenced;
      counted := counts;
      if !Referenced(rows, column, target) {
        var gone := set id | id in rows && id == target;
        assert rows - gone == rows - {target};
        counted := Remove(gone, Target(column), before, counts);
      }
    }

    /** The fourteen deletes that name the run. */
    method RemoveRun(run: Id) returns (counts: map<Table, nat>)
      modifies this
      ensures rows == RemoveFirst(old(rows), |DELETE_ORDER|, run) && Tallied(old(rows), rows, counts)
      ensures forall t :: t in counts ==> Rank(t) < 14
    {
      hide RemoveFirst, Tallied, Rank;
      ghost var before := rows;
      Ranks();
      StartsEmpty(before, run);
      counts := map[];
      counts := RemoveOfRun(Deliveries, run, before, counts);
      counts := RemoveOfRun(Integrity, run, before, counts);
      counts := RemoveOfRun(Validations, run, before, counts);
      counts := RemoveOfRun(PriceBases, run, before, counts);
      counts := RemoveOfRun(Evidence, run, before, counts);
      counts := RemoveOfRun(Reviews, run, before, counts);
      counts := RemoveOfRun(Comments, run, before, counts);
      counts := RemoveOfRun(Decisions, run, before, counts);
      counts := RemoveOfRun(Leases, run, before, counts);
      counts := RemoveOfRun(Steps, run, before, counts);
      counts := RemoveOfRun(Artifacts, run, before, counts);
      counts := RemoveOfRun(Events, run, before, counts);
      counts := RemoveOfRun(Requirements, run, before, counts);
      counts := RemoveOfRun(RunRows, run, before, counts);
    }

    /** `delete_assessment_graph`. */
    method DeleteAssessmentGraph(run: Id) returns (counts: map<Table, nat>)
      requires ForeignKeysHold(rows) && IsRun(rows, run)
      modifies this
      ensures rows == DeleteGraph(old(rows), run)
      ensures Tallied(old(rows), rows, counts)
    {
      hide RemoveFirst, Tallied, ForeignKeysHold, Referenced, Rank, Owned;
      ghost var before := rows;
      var request := RequestOf(rows, run);
      var batch := BatchOf(rows, request);
      var snapshot := SnapshotOf(rows[run]);
      RowIsGood(before, run);
      counts := RemoveRun(run);
      ghost var bare := rows;
      StartsEmpty(before, run);
      RemovalsLeave(before, 14, run);
      LeftKeepsTables(before, 14, run);
      hide Left;
      ParentsStayUncounted(counts);
      if !Referenced(rows, RequestId, request) {
        counts := RemoveUnreferenced(RequestId, request, before, counts);
        counts := RemoveUnreferenced(BatchId, batch, before, counts);
      }
      assert rows == DropParents(bare, request, batch);
      if snapshot.Some? {
        counts := RemoveUnreferenced(SnapshotId, snapshot.value, before, counts);
      }
    }

    /** `delete` of the service, up to the audit record: the guards, then the graph. */
    method Delete(run: Id) returns (outcome: Result<map<Table, nat>, DeleteError>)
      requires ForeignKeysHold(rows)
      modifies this
      ensures match AssessmentStore.Delete(old(rows), run)
              case Err(e) => outcome == Err(e) && rows == old(rows)
              case Ok(u) => outcome.Ok? && rows == u && Tallied(old(rows), rows, outcome.value)
      ensures outcome.Ok? <==> MayDelete(old(rows), run)
      ensures forall e :: outcome == Err(e) <==> IsRefusal(old(rows), run, e)
    {
      DeletesExactlyWhen(rows, run);
      hide MayDelete, IsRefusal, HasActiveWork, DependentRuns, DeleteGraph, Tallied, ForeignKeysHold;
      if !IsRun(rows, run) { return Err(NotFound); }
      var status := StatusOf(rows, run);
      if status !in TERMINAL { return Err(RunNotTerminal(status)); }
      if HasActiveWork(rows, run) { return Err(ActiveWork); }
      var dependents := DependentRuns(rows, run);
      if dependents != {} { return Err(DependentRunsExist(dependents)); }
      var counts := DeleteAssessmentGraph(run);
      return Ok(counts);
    }
  }

  lemma RemovalStep(s: Store, t: Table, run: Id)
    requires Rank(t) < |DELETE_ORDER|
    ensures RemoveFirst(s, Rank(t) + 1, run) == RemoveOwned(RemoveFirst(s, Rank(t), run), t, run)
  {
    RankIsPlace(t, Rank(t));
  }

  lemma Ranks()
    ensures && Rank(Deliveries) == 0 && Rank(Integrity) == 1 && Rank(Validations) == 2 && Rank(PriceBases) == 3
            && Rank(Evidence) == 4 && Rank(Reviews) == 5 && Rank(Comments) == 6 && Rank(Decisions) == 7
            && Rank(Leases) == 8 && Rank(Steps) == 9 && Rank(Artifacts) == 10 && Rank(Events) == 11
            && Rank(Requirements) == 12 && Rank(RunRows) == 13
  {
  }

  lemma StartsEmpty(s: Store, run: Id)
    ensures Tallied(s, s, map[]) && RemoveFirst(s, 0, run) == s && |DELETE_ORDER| == 14
  {
  }

  lemma ParentsStayUncounted(counts: map<Table, nat>)
    requires forall t :: t in counts ==> Rank(t) < 14
    ensures Requests !in counts && Batches !in counts && Snapshots !in counts
  {
  }
}
