/**
 The repository and the service of the data-readiness protocol, changing the tables in
 place. Every method is proved equal to the transaction of the step model.
 */
module DataReadinessRepository {
  import opened Outcomes
  import opened Runs
  import opened ManifestHash
  import D = DataReadiness

  /** Where the database sorts a missing poll time. */
  datatype Nulls = NullsFirst | NullsLast

  /** The order `next_poll_at, created_at, id` of the claim query. */
  predicate NotAfter(nulls: Nulls, a: D.Requirement, aId: D.Id, b: D.Requirement, bId: D.Id) {
    if a.nextPollAt != b.nextPollAt then
      match (a.nextPollAt, b.nextPollAt)
      case (Some(x), Some(y)) => x < y
      case (None, Some(_)) => nulls == NullsFirst
      case _ => nulls == NullsLast
    else if a.createdAt != b.createdAt then a.createdAt < b.createdAt
    else aId <= bId
  }

  lemma NotAfterIsOrder(nulls: Nulls, a: D.Requirement, aId: D.Id, b: D.Requirement, bId: D.Id, c: D.Requirement,
                        cId: D.Id)
    ensures NotAfter(nulls, a, aId, b, bId) || NotAfter(nulls, b, bId, a, aId)
    ensures NotAfter(nulls, a, aId, b, bId) && NotAfter(nulls, b, bId, c, cId) ==> NotAfter(nulls, a, aId, c, cId)
  {
  }

  class DataReadinessRepository {
    var requirements: map<D.Id, D.Requirement>
    var runs: map<D.Id, D.Run>
    var configs: map<D.Id, Option<D.ManifestRef>>
    var events: map<D.Id, seq<D.RunEvent>>
    const nulls: Nulls

    constructor (tables: D.Tables, nulls: Nulls)
      ensures View() == tables && this.nulls == nulls
    {
      requirements, runs, configs, events := tables.requirements, tables.runs, tables.configs, tables.events;
      this.nulls := nulls;
    }

    function View(): D.Tables
      reads this
    {
      D.Tables(requirements, runs, configs, events)
    }

    /** Hands out the first due row that no other transaction holds, if there is one, and leases it. */
    method ClaimDue(locked: set<D.Id>, worker: string, now: D.Time, leaseSeconds: nat) returns (claim: Option<D.Claim>)
      modifies this`requirements
      ensures claim.None? <==> forall id :: id !in locked ==> !D.Due(old(View()), id, now)
      ensures claim.None? ==> View() == old(View())
      ensures claim.Some? ==>
                var t, id := old(View()), claim.value.requirementId;
                && D.Due(t, id, now) && id !in locked
                && (View(), claim.value) == D.ClaimRow(t, id, worker, now, leaseSeconds)
                && forall other :: D.Due(t, other, now) && other !in locked ==>
                     NotAfter(nulls, t.requirements[id], id, t.requirements[other], other)
    {
      var first: Option<D.Id> := None;
      var unseen := requirements.Keys - locked;
      while unseen != {}
        invariant requirements == old(requirements) && unseen <= requirements.Keys
        invariant first.None? ==> forall id :: D.Due(View(), id, now) && id !in locked ==> id in unseen
        invariant first.Some? ==>
                    && D.Due(View(), first.value, now) && first.value !in locked
                    && forall id :: D.Due(View(), id, now) && id !in locked && id !in unseen ==>
                         NotAfter(nulls, requirements[first.value], first.value, requirements[id], id)
      {
        var id :| id in unseen;
        if D.Due(View(), id, now) {
          if first.None? || NotAfter(nulls, requirements[id], id, requirements[first.value], first.value) {
            forall other | first.Some? && D.Due(View(), other, now) && other !in locked && other !in unseen
              ensures NotAfter(nulls, requirements[id], id, requirements[other], other)
            {
              NotAfterIsOrder(nulls, requirements[id], id, requirements[first.value], first.value,
                              requirements[other], other);
            }
            first := Some(id);
          } else {
            NotAfterIsOrder(nulls, requirements[id], id, requirements[first.value], first.value, requirements[id], id);
          }
        }
        unseen := unseen - {id};
      }
      if first.None? {
        return None;
      }
      var row := requirements[first.value];
      row := row.(leaseOwner := Some(worker), leaseExpiresAt := Some(now + leaseSeconds));
      row := row.(version := row.version + 1);
      requirements := requirements[first.value := row];
      claim := Some(D.Claim(first.value, row.runId, row.providerRequestId, row.version, worker));
    }

    method Locked(claim: D.Claim) returns (found: bool)
      ensures found <==> !D.Fenced(View(), claim)
    {
      found := claim.requirementId in requirements;
      if found {
        var row := requirements[claim.requirementId];
        found := row.version == claim.version && row.leaseOwner == Some(claim.leaseOwner);
      }
    }

    method Release(id: D.Id, nextPollAt: D.Time)
      requires id in requirements
      modifies this`requirements
      ensures requirements == old(requirements)[id := D.Released(old(requirements[id]), nextPollAt)]
    {
      var row := requirements[id];
      row := row.(nextPollAt := Some(nextPollAt));
      row := row.(leaseOwner := None, leaseExpiresAt := None);
      row := row.(version := row.version + 1);
      requirements := requirements[id := row];
    }

    method AppendEvent(runId: D.Id, eventType: string, detail: string)
      modifies this`events
      ensures events == D.Append(old(events), runId, eventType, detail)
    {
      var log := if runId in events then events[runId] else [];
      var sequence := D.MaxSequence(log) + 1;
      events := events[runId := log + [D.RunEvent(sequence, eventType, detail)]];
    }

    method ApplyWaiting(claim: D.Claim, job: string, fingerprint: string, nextPollAt: D.Time) returns (ok: bool)
      modifies this
      ensures (View(), ok) == D.ApplyWaiting(old(View()), claim, job, fingerprint, nextPollAt)
    {
      ok := Locked(claim);
      if !ok { return; }
      var row := requirements[claim.requirementId];
      var changed := row.fingerprint != Some(fingerprint);
      row := row.(progress := D.JobProgress(job), fingerprint := Some(fingerprint));
      requirements := requirements[claim.requirementId := row];
      Release(claim.requirementId, nextPollAt);
      if changed {
        AppendEvent(claim.runId, "assessment.data_progress", job);
      }
      assert requirements == D.ApplyWaiting(old(View()), claim, job, fingerprint, nextPollAt).0.requirements;
    }

    method ReleaseTransient(claim: D.Claim, code: string, nextPollAt: D.Time) returns (ok: bool)
      modifies this
      ensures (View(), ok) == D.ReleaseTransient(old(View()), claim, code, nextPollAt)
    {
      ok := Locked(claim);
      if !ok { return; }
      var row := requirements[claim.requirementId];
      row := row.(progress := row.progress.(transientError := Some(code)));
      requirements := requirements[claim.requirementId := row];
      Release(claim.requirementId, nextPollAt);
      assert requirements == D.ReleaseTransient(old(View()), claim, code, nextPollAt).0.requirements;
    }

    method ApplyReady(claim: D.Claim, ref: D.ManifestRef, manifest: Manifest) returns (ok: bool)
      modifies this
      ensures (View(), ok) == D.ApplyReady(old(View()), claim, ref, manifest)
    {
      ok := Locked(claim);
      if !ok { return; }
      if claim.runId !in runs || runs[claim.runId].status != WaitingForData { return false; }
      var run := runs[claim.runId];
      if run.requestId !in configs { return false; }
      configs := configs[run.requestId := Some(ref)];
      var row := requirements[claim.requirementId];
      row := row.(status := D.Ready, progress := D.Progress("", None, Some("ready"), None));
      row := row.(manifestSnapshotId := Some(manifest.snapshotId), manifestSha256 := Some(manifest.manifestSha256));
      row := row.(leaseOwner := None, leaseExpiresAt := None, nextPollAt := None, version := row.version + 1);
      requirements := requirements[claim.requirementId := row];
      run := run.(status := Queued, version := run.version + 1);
      runs := runs[claim.runId := run];
      AppendEvent(claim.runId, "assessment.data_ready", manifest.manifestSha256);
      AppendEvent(claim.runId, "assessment.queued", "");
    }

    method Finish(claim: D.Claim, runStatus: RunStatus, status: D.RequirementStatus, code: string, now: D.Time)
      returns (ok: bool)
      modifies this
      ensures (View(), ok) == D.Finish(old(View()), claim, runStatus, status, code, now)
    {
      ok := Locked(claim);
      if !ok { return; }
      if claim.runId !in runs || runs[claim.runId].status != WaitingForData { return false; }
      var row := requirements[claim.requirementId];
      row := row.(status := status, progress := D.Progress("", None, Some(D.StageOf(status)), Some(code)));
      row := row.(leaseOwner := None, leaseExpiresAt := None, nextPollAt := None, version := row.version + 1);
      requirements := requirements[claim.requirementId := row];
      var run := runs[claim.runId];
      run := run.(status := runStatus, errorCode := Some(code), finishedAt := Some(now), version := run.version + 1);
      runs := runs[claim.runId := run];
      AppendEvent(claim.runId, "assessment." + D.StageOf(status), code);
    }
  }

  /**
   One pass of the service: claim a due row, ask, and apply what the answer decides. No answer
   stands for any other error on the way, a request number that is no integer included: it
   escapes the pass and leaves the row leased.
   */
  method ReconcileOne(repository: DataReadinessRepository, digest: Digest, fingerprintOf: string -> string,
                      ask: D.Claim -> Option<D.Answer>, locked: set<D.Id>, worker: string, leaseSeconds: nat,
                      now: D.Time, nextPoll: D.Time)
    returns (taken: Option<D.Claim>, escaped: bool)
    modifies repository
    ensures taken.Some? <==> exists id :: id !in locked && D.Due(old(repository.View()), id, now)
    ensures taken.None? ==> !escaped && repository.View() == old(repository.View())
    ensures taken.Some? ==>
              && taken.value.requirementId in old(repository.View()).requirements
              && var (claimed, c) := D.ClaimRow(old(repository.View()), taken.value.requirementId, worker, now,
                   leaseSeconds);
              && taken.value == c && (escaped <==> ask(c).None?)
              && repository.View() ==
                 if escaped then claimed
                 else D.Apply(claimed, c, D.Decide(digest, ask(c).value, nextPoll), fingerprintOf, nextPoll, now).0
    ensures taken.Some? && !escaped && D.References(old(repository.View())) ==>
              var claimed := D.ClaimRow(old(repository.View()), taken.value.requirementId, worker, now, leaseSeconds).0;
              D.Follows(D.World(digest, fingerprintOf), claimed, repository.View(), taken.value.requirementId,
                        ask(taken.value).value, nextPoll, now)
  {
    ghost var before := repository.View();
    hide D.Apply, D.Decide, D.Follows, D.References;
    taken := repository.ClaimDue(locked, worker, now, leaseSeconds);
    escaped := false;
    if taken.None? { return; }
    var answer := ask(taken.value);
    if answer.None? {
      escaped := true;
      return;
    }
    if D.References(before) {
      D.NewClaimHolds(before, taken.value.requirementId, worker, now, leaseSeconds);
      D.HeldClaimFollows(D.World(digest, fingerprintOf), repository.View(), taken.value, answer.value, nextPoll, now);
    }
    ApplyAnswer(repository, digest, fingerprintOf, taken.value, answer.value, now, nextPoll);
  }

  /** The decision tree behind the claim. */
  method ApplyAnswer(repository: DataReadinessRepository, digest: Digest, fingerprintOf: string -> string,
                     claim: D.Claim, answer: D.Answer, now: D.Time, nextPoll: D.Time)
    modifies repository
    ensures repository.View() ==
            D.Apply(old(repository.View()), claim, D.Decide(digest, answer, nextPoll), fingerprintOf, nextPoll, now).0
  {
    hide D.ApplyWaiting, D.ReleaseTransient, D.Finish, D.ApplyReady;
    var done: bool;
    match answer
    case StatusFailed(code) =>
      done := repository.ReleaseTransient(claim, code, nextPoll);
    case Answered(status, fetched) =>
      if status.readiness == D.WaitingAnswer {
        done := repository.ApplyWaiting(claim, status.job, fingerprintOf(status.job), nextPoll);
      } else if status.readiness == D.RejectedAnswer {
        if status.error.Some? && status.error.value.retryable {
          var retryAt := match status.error.value.retryAfter case Some(at) => at case None => nextPoll;
          done := repository.ReleaseTransient(claim, status.error.value.code, retryAt);
        } else {
          var code := match status.error case Some(e) => e.code case None => "data_preparation_failed";
          done := repository.Finish(claim, Failed, D.Rejected, code, now);
        }
      } else if status.manifest.None? {
        done := repository.Finish(claim, NeedsAttention, D.Attention, "manifest_reference_missing", now);
      } else if fetched.Err? {
        done := repository.ReleaseTransient(claim, fetched.error, nextPoll);
      } else if fetched.value.manifestSha256 != status.manifest.value.manifestSha256 {
        done := repository.Finish(claim, NeedsAttention, D.Attention, "manifest_hash_mismatch", now);
      } else if CalculateSha(digest, fetched.value) != Some(fetched.value.manifestSha256) {
        done := repository.Finish(claim, NeedsAttention, D.Attention, "manifest_content_hash_mismatch", now);
      } else {
        done := repository.ApplyReady(claim, status.manifest.value, fetched.value);
      }
  }
}
