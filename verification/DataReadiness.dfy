/**
 The data-readiness protocol: workers claim a requirement row under a lease and a
 version, ask a slow service, and try to apply its answer. Each transaction is one
 step on the tables; the lemmas say what all interleavings keep.
 */
module DataReadiness {
  import opened Outcomes
  import opened Runs
  import opened ManifestHash

  // ---------------------------------------------------------------------
  // Tables
  // ---------------------------------------------------------------------

  type Id = nat
  type Time = int

  datatype RequirementStatus = Waiting | Ready | Rejected | Attention | Withdrawn

  datatype Progress = Progress(job: string, transientError: Option<string>, stage: Option<string>,
      errorCode: Option<string>)

  datatype Requirement = Requirement(
    runId: Id,
    providerRequestId: string,
    status: RequirementStatus,
    version: nat,
    leaseOwner: Option<string>,
    leaseExpiresAt: Option<Time>,
    nextPollAt: Option<Time>,
    createdAt: Time,
    progress: Progress,
    fingerprint: Option<string>,
    manifestSnapshotId: Option<string>,
    manifestSha256: Option<string>)

  datatype Run = Run(requestId: Id, status: RunStatus, version: nat, errorCode: Option<string>,
      finishedAt: Option<Time>)

  datatype ManifestRef = ManifestRef(snapshotId: string, manifestSha256: string)

  datatype RunEvent = RunEvent(sequence: nat, eventType: string, detail: string)

  /** `configs` is the `data_manifest` entry of each request's configuration. */
  datatype Tables = Tables(
    requirements: map<Id, Requirement>,
    runs: map<Id, Run>,
    configs: map<Id, Option<ManifestRef>>,
    events: map<Id, seq<RunEvent>>)

  datatype Claim = Claim(requirementId: Id, runId: Id, providerRequestId: string, version: nat, leaseOwner: string)

  // ---------------------------------------------------------------------
  // Events
  // ---------------------------------------------------------------------

  function EventsOf(events: map<Id, seq<RunEvent>>, runId: Id): seq<RunEvent> {
    if runId in events then events[runId] else []
  }

  /** `coalesce(max(sequence), 0)`. */
  function MaxSequence(log: seq<RunEvent>): nat {
    if |log| == 0 then 0
    else
      var before, last := MaxSequence(log[..|log| - 1]), log[|log| - 1].sequence;
      if before < last then last else before
  }

  function Append(events: map<Id, seq<RunEvent>>, runId: Id, eventType: string,
                  detail: string): map<Id, seq<RunEvent>> {
    var log := EventsOf(events, runId);
    events[runId := log + [RunEvent(MaxSequence(log) + 1, eventType, detail)]]
  }

  // ---------------------------------------------------------------------
  // Transactions on the tables
  // ---------------------------------------------------------------------

  predicate Due(t: Tables, id: Id, now: Time) {
    id in t.requirements &&
    var r := t.requirements[id];
    && r.status == Waiting
    && r.runId in t.runs && t.runs[r.runId].status == WaitingForData
    && (r.nextPollAt.Some? ==> r.nextPollAt.value <= now)
    && (r.leaseExpiresAt.Some? ==> r.leaseExpiresAt.value <= now)
  }

  function ClaimRow(t: Tables, id: Id, worker: string, now: Time, leaseSeconds: nat): (Tables, Claim)
    requires id in t.requirements
  {
    var r := t.requirements[id];
    var r' := r.(leaseOwner := Some(worker), leaseExpiresAt := Some(now + leaseSeconds), version := r.version + 1);
    (t.(requirements := t.requirements[id := r']), Claim(id, r.runId, r.providerRequestId, r'.version, worker))
  }

  /** The fence: the row still has the claim's version and owner. */
  predicate Fenced(t: Tables, c: Claim) {
    !(c.requirementId in t.requirements &&
      var r := t.requirements[c.requirementId];
      r.version == c.version && r.leaseOwner == Some(c.leaseOwner))
  }

  function Released(r: Requirement, nextPollAt: Time): Requirement {
    r.(nextPollAt := Some(nextPollAt), leaseOwner := None, leaseExpiresAt := None, version := r.version + 1)
  }

  function JobProgress(job: string): Progress {
    Progress(job, None, None, None)
  }

  function ApplyWaiting(t: Tables, c: Claim, job: string, fingerprint: string, nextPollAt: Time): (Tables, bool) {
    if Fenced(t, c) then (t, false)
    else
      var r := t.requirements[c.requirementId];
      var r' := Released(r.(progress := JobProgress(job), fingerprint := Some(fingerprint)), nextPollAt);
      var events := if r.fingerprint == Some(fingerprint) then t.events
                    else Append(t.events, c.runId, "assessment.data_progress", job);
      (t.(requirements := t.requirements[c.requirementId := r'], events := events), true)
  }

  function ReleaseTransient(t: Tables, c: Claim, code: string, nextPollAt: Time): (Tables, bool) {
    if Fenced(t, c) then (t, false)
    else
      var r := t.requirements[c.requirementId];
      var r' := Released(r.(progress := r.progress.(transientError := Some(code))), nextPollAt);
      (t.(requirements := t.requirements[c.requirementId := r']), true)
  }

  predicate StillWaiting(t: Tables, runId: Id) {
    runId in t.runs && t.runs[runId].status == WaitingForData
  }

  function Closed(r: Requirement, status: RequirementStatus, progress: Progress): Requirement {
    r.(status := status, progress := progress, leaseOwner := None, leaseExpiresAt := None, nextPollAt := None,
       version := r.version + 1)
  }

  function ApplyReady(t: Tables, c: Claim, ref: ManifestRef, manifest: Manifest): (Tables, bool) {
    if Fenced(t, c) || !StillWaiting(t, c.runId) || t.runs[c.runId].requestId !in t.configs then (t, false)
    else
      var r, run := t.requirements[c.requirementId], t.runs[c.runId];
      var r' := Closed(r, Ready, Progress("", None, Some("ready"), None))
                .(manifestSnapshotId := Some(manifest.snapshotId), manifestSha256 := Some(manifest.manifestSha256));
      (Tables(t.requirements[c.requirementId := r'],
              t.runs[c.runId := run.(status := Queued, version := run.version + 1)],
              t.configs[run.requestId := Some(ref)],
              Append(Append(t.events, c.runId, "assessment.data_ready", manifest.manifestSha256),
                     c.runId, "assessment.queued", "")),
       true)
  }

  function StageOf(status: RequirementStatus): string {
    if status == Rejected then "failed" else "needs_attention"
  }

  function Finish(t: Tables, c: Claim, runStatus: RunStatus, status: RequirementStatus, code: string, now: Time)
    : (Tables, bool)
  {
    if Fenced(t, c) || !StillWaiting(t, c.runId) then (t, false)
    else
      var r, run := t.requirements[c.requirementId], t.runs[c.runId];
      (t.(requirements := t.requirements[c.requirementId :=
                            Closed(r, status, Progress("", None, Some(StageOf(status)), Some(code)))],
          runs := t.runs[c.runId := run.(status := runStatus, version := run.version + 1,
                                         errorCode := Some(code), finishedAt := Some(now))],
          events := Append(t.events, c.runId, "assessment." + StageOf(status), code)),
       true)
  }

  /** The update of `cancel_data_requirement`. */
  function WithdrawnRow(r: Requirement): Requirement {
    r.(status := Withdrawn, nextPollAt := None, leaseOwner := None, leaseExpiresAt := None, version := r.version + 1)
  }

  function Withdraw(requirements: map<Id, Requirement>, runId: Id): map<Id, Requirement> {
    map id | id in requirements ::
      if requirements[id].runId == runId && requirements[id].status == Waiting
      then WithdrawnRow(requirements[id]) else requirements[id]
  }

  /** The user's `cancel`. */
  function Cancel(t: Tables, runId: Id, now: Time): Tables {
    if runId !in t.runs then t
    else
      var run := t.runs[runId];
      match CancelTarget(run.status)
      case None => t
      case Some(target) =>
        var moved := run.(status := target, version := run.version + 1);
        if target == Cancelled then
          t.(runs := t.runs[runId := moved.(finishedAt := Some(now))],
             requirements := if run.status == WaitingForData then Withdraw(t.requirements, runId) else t.requirements,
             events := Append(t.events, runId, "assessment.cancelled", ""))
        else
          t.(runs := t.runs[runId := moved], events := Append(t.events, runId, "assessment.cancel_requested", ""))
  }

  // ---------------------------------------------------------------------
  // The service's decision
  // ---------------------------------------------------------------------

  datatype Readiness = WaitingAnswer | RejectedAnswer | OtherAnswer

  datatype ServiceError = ServiceError(code: string, message: string, retryable: bool, retryAfter: Option<Time>)

  datatype Status = Status(readiness: Readiness, job: string, error: Option<ServiceError>,
      manifest: Option<ManifestRef>)

  /** What the two calls of the client return; either may raise a client error. */
  datatype Answer =
    | StatusFailed(code: string)
    | Answered(status: Status, manifest: Result<Manifest, string>)

  datatype Outcome =
    | StayWaiting(job: string)
    | Retry(code: string, at: Time)
    | Reject(code: string)
    | NeedAttention(code: string)
    | Accept(ref: ManifestRef, manifest: Manifest)

  /** The decision tree of `reconcile_one` behind the claim. */
  function Decide(digest: Digest, answer: Answer, nextPoll: Time): Outcome {
    match answer
    case StatusFailed(code) => Retry(code, nextPoll)
    case Answered(status, fetched) =>
      if status.readiness == WaitingAnswer then StayWaiting(status.job)
      else if status.readiness == RejectedAnswer then
        match status.error
        case Some(e) =>
          if e.retryable then Retry(e.code, match e.retryAfter case Some(at) => at case None => nextPoll)
          else Reject(e.code)
        case None => Reject("data_preparation_failed")
      else
        match status.manifest
        case None => NeedAttention("manifest_reference_missing")
        case Some(ref) =>
          match fetched
          case Err(code) => Retry(code, nextPoll)
          case Ok(manifest) =>
            if manifest.manifestSha256 != ref.manifestSha256 then NeedAttention("manifest_hash_mismatch")
            else if CalculateSha(digest, manifest) != Some(manifest.manifestSha256) then
              NeedAttention("manifest_content_hash_mismatch")
            else Accept(ref, manifest)
  }

  /** The service accepts a manifest only when its recomputed hash is the one both answers name. */
  lemma AcceptedManifestIsVerified(digest: Digest, answer: Answer, nextPoll: Time)
    ensures Decide(digest, answer, nextPoll).Accept? <==>
            answer.Answered? && answer.status.readiness == OtherAnswer && answer.status.manifest.Some?
            && answer.manifest.Ok?
            && CalculateSha(digest, answer.manifest.value) == Some(answer.status.manifest.value.manifestSha256)
            && answer.manifest.value.manifestSha256 == answer.status.manifest.value.manifestSha256
    ensures var o := Decide(digest, answer, nextPoll);
            o.Accept? ==> o.ref == answer.status.manifest.value && o.manifest == answer.manifest.value
  {
  }

  function Apply(t: Tables, c: Claim, outcome: Outcome, fingerprintOf: string -> string, nextPoll: Time, now: Time)
    : (Tables, bool)
  {
    match outcome
    case StayWaiting(job) => ApplyWaiting(t, c, job, fingerprintOf(job), nextPoll)
    case Retry(code, at) => ReleaseTransient(t, c, code, at)
    case Reject(code) => Finish(t, c, Failed, Rejected, code, now)
    case NeedAttention(code) => Finish(t, c, NeedsAttention, Attention, code, now)
    case Accept(ref, manifest) => ApplyReady(t, c, ref, manifest)
  }

  // ---------------------------------------------------------------------
  // Interleavings
  // ---------------------------------------------------------------------

  /** `issued` are the claims handed out so far; a worker may act on any of them at any time. */
  datatype State = State(tables: Tables, issued: set<Claim>)

  datatype Action =
    | DoClaim(id: Id, worker: string, at: Time, leaseSeconds: nat)
    | DoApply(claim: Claim, answer: Answer, nextPoll: Time, at: Time)
    | DoCancel(runId: Id, at: Time)
    | DoSubmit(runId: Id, requestId: Id, config: Option<ManifestRef>, waiting: Option<(Id, Requirement)>)
    | DoWork(runId: Id, target: RunStatus)

  datatype World = World(digest: Digest, fingerprintOf: string -> string)

  /** A row as a submission, a retry or a clean reassessment inserts it. */
  predicate IsFresh(r: Requirement, runId: Id) {
    && r.runId == runId && r.status == Waiting && r.version == 1
    && r.leaseOwner.None? && r.leaseExpiresAt.None? && r.manifestSha256.None?
  }

  predicate Enabled(s: State, a: Action) {
    var t := s.tables;
    match a
    case DoClaim(id, _, at, _) => Due(t, id, at)
    case DoApply(claim, _, _, _) => claim in s.issued
    case DoCancel(_, _) => true
    case DoSubmit(runId, requestId, _, waiting) =>
      && runId !in t.runs && requestId !in t.configs && runId !in t.events
      && (waiting.Some? ==> waiting.value.0 !in t.requirements && IsFresh(waiting.value.1, runId))
    case DoWork(runId, target) =>
      // scheduler and workers move runs that no longer wait for data
      && runId in t.runs && t.runs[runId].status != WaitingForData && CanMove(t.runs[runId].status, target)
  }

  function Submit(t: Tables, runId: Id, requestId: Id, config: Option<ManifestRef>,
                  waiting: Option<(Id, Requirement)>): Tables {
    Tables(
      match waiting case Some((id, r)) => t.requirements[id := r] case None => t.requirements,
      t.runs[runId := Run(requestId, if waiting.Some? then WaitingForData else Queued, 1, None, None)],
      t.configs[requestId := config],
      Append(t.events, runId, if waiting.Some? then "assessment.waiting_for_data" else "assessment.queued", ""))
  }

  function Step(w: World, s: State, a: Action): State
    requires Enabled(s, a)
  {
    match a
    case DoClaim(id, worker, at, leaseSeconds) =>
      var (t, c) := ClaimRow(s.tables, id, worker, at, leaseSeconds);
      State(t, s.issued + {c})
    case DoApply(claim, answer, nextPoll, at) =>
      s.(tables := Apply(s.tables, claim, Decide(w.digest, answer, nextPoll), w.fingerprintOf, nextPoll, at).0)
    case DoCancel(runId, at) => s.(tables := Cancel(s.tables, runId, at))
    case DoSubmit(runId, requestId, config, waiting) =>
      s.(tables := Submit(s.tables, runId, requestId, config, waiting))
    case DoWork(runId, target) => s.(tables := Moved(s.tables, runId, target))
  }

  /** Whether an apply takes effect. */
  predicate TakesEffect(w: World, s: State, a: Action) {
    a.DoApply? && Apply(s.tables, a.claim, Decide(w.digest, a.answer, a.nextPoll), w.fingerprintOf, a.nextPoll, a.at).1
  }

  // ---------------------------------------------------------------------
  // What every reachable state satisfies
  // ---------------------------------------------------------------------

  ghost predicate References(t: Tables) {
    && (forall id :: id in t.requirements ==> t.requirements[id].runId in t.runs)
    && (forall run :: run in t.runs ==> t.runs[run].requestId in t.configs)
    && (forall a, b ::
          a in t.requirements && b in t.requirements && t.requirements[a].runId == t.requirements[b].runId ==> a == b)
    && (forall a, b :: a in t.runs && b in t.runs && t.runs[a].requestId == t.runs[b].requestId ==> a == b)
  }

  /** A run waits for data exactly when it has a requirement that is waiting. */
  ghost predicate WaitsTogether(t: Tables) {
    && (forall id :: id in t.requirements && t.requirements[id].status == Waiting ==>
          StillWaiting(t, t.requirements[id].runId))
    && (forall run :: run in t.runs && t.runs[run].status == WaitingForData ==>
          exists id :: id in t.requirements && t.requirements[id].runId == run && t.requirements[id].status == Waiting)
  }

  /** Only waiting rows are leased; a ready row and its request name one verified hash. */
  ghost predicate RowSound(w: World, t: Tables, id: Id)
    requires id in t.requirements && References(t)
  {
    var r := t.requirements[id];
    && (r.leaseOwner.Some? ==> r.status == Waiting)
    && (r.status == Ready ==>
          var config := t.configs[t.runs[r.runId].requestId];
          r.manifestSha256.Some? && config.Some? && config.value.manifestSha256 == r.manifestSha256.value
          && exists m: Manifest :: CalculateSha(w.digest, m) == r.manifestSha256)
  }

  /** Issued claims name their row truly, lie in its past, and differ in version. */
  ghost predicate ClaimsSound(s: State) {
    && (forall c :: c in s.issued ==>
          && c.requirementId in s.tables.requirements
          && s.tables.requirements[c.requirementId].runId == c.runId
          && c.version <= s.tables.requirements[c.requirementId].version)
    && (forall c, e ::
          c in s.issued && e in s.issued && c.requirementId == e.requirementId && c.version == e.version ==> c == e)
  }

  ghost predicate Sound(w: World, s: State) {
    && References(s.tables) && WaitsTogether(s.tables) && ClaimsSound(s)
    && forall id :: id in s.tables.requirements ==> RowSound(w, s.tables, id)
  }

  const START := State(Tables(map[], map[], map[], map[]), {})

  lemma StartIsSound(w: World)
    ensures Sound(w, START)
  {
  }

  // ---------------------------------------------------------------------
  // One step
  // ---------------------------------------------------------------------

  /** A row may change only with a greater version, and rows and runs stay. */
  ghost predicate RowsGrow(t: Tables, u: Tables) {
    && (forall id :: id in t.requirements ==>
          id in u.requirements && u.requirements[id].runId == t.requirements[id].runId
          && (u.requirements[id] == t.requirements[id] || u.requirements[id].version > t.requirements[id].version))
    && (forall run :: run in t.runs ==>
          run in u.runs
            && (u.runs[run].status == t.runs[run].status || CanMove(t.runs[run].status, u.runs[run].status)))
  }

  /** A fenced claim changes no row and adds no event. */
  lemma FencedClaimChangesNothing(w: World, s: State, a: Action)
    requires Enabled(s, a) && a.DoApply? && Fenced(s.tables, a.claim)
    ensures Step(w, s, a) == s && !TakesEffect(w, s, a)
  {
  }

  /** Behind the fence of a sound state the run still waits and its request exists, so no check fails. */
  lemma FenceSuffices(w: World, s: State, a: Action)
    requires Sound(w, s) && Enabled(s, a) && a.DoApply?
    ensures TakesEffect(w, s, a) <==> !Fenced(s.tables, a.claim)
    ensures !Fenced(s.tables, a.claim) ==>
              s.tables.requirements[a.claim.requirementId].status == Waiting && StillWaiting(s.tables, a.claim.runId)
  {
    if !Fenced(s.tables, a.claim) {
      assert RowSound(w, s.tables, a.claim.requirementId);
    }
  }

  /** Of all claims ever issued on a row, at most one is not fenced. */
  lemma OneClaimHolds(w: World, s: State, c: Claim, e: Claim)
    requires Sound(w, s) && c in s.issued && e in s.issued && c.requirementId == e.requirementId
    requires !Fenced(s.tables, c) && !Fenced(s.tables, e)
    ensures c == e
  {
  }

  // ---------------------------------------------------------------------
  // What each answer does
  // ---------------------------------------------------------------------

  /** A client error in either call, or a rejection that may be retried: the code, and when to ask again. */
  predicate TryAgain(answer: Answer, nextPoll: Time, code: string, at: Time) {
    || (answer == StatusFailed(code) && at == nextPoll)
    || (answer.Answered? && answer.status.readiness == RejectedAnswer && answer.status.error.Some?
        && var e := answer.status.error.value;
           e.retryable && code == e.code && at == if e.retryAfter.Some? then e.retryAfter.value else nextPoll)
    || (answer.Answered? && answer.status.readiness == OtherAnswer && answer.status.manifest.Some?
        && answer.manifest == Err(code) && at == nextPoll)
  }

  /** A rejection for good: with a permanent error, or without any. */
  predicate Refused(answer: Answer, code: string) {
    && answer.Answered? && answer.status.readiness == RejectedAnswer
    && (answer.status.error.Some? ==> !answer.status.error.value.retryable)
    && code == if answer.status.error.Some? then answer.status.error.value.code else "data_preparation_failed"
  }

  /** An answer that is neither and names no manifest, or one whose three hashes do not agree. */
  predicate Doubtful(digest: Digest, answer: Answer, code: string) {
    && answer.Answered? && answer.status.readiness == OtherAnswer
    && match answer.status.manifest
       case None => code == "manifest_reference_missing"
       case Some(ref) =>
         answer.manifest.Ok?
         && var m := answer.manifest.value;
            || (m.manifestSha256 != ref.manifestSha256 && code == "manifest_hash_mismatch")
            || (m.manifestSha256 == ref.manifestSha256 && CalculateSha(digest, m) != Some(ref.manifestSha256)
                && code == "manifest_content_hash_mismatch")
  }

  predicate Verified(digest: Digest, answer: Answer) {
    && answer.Answered? && answer.status.readiness == OtherAnswer && answer.status.manifest.Some?
    && answer.manifest.Ok?
    && answer.manifest.value.manifestSha256 == answer.status.manifest.value.manifestSha256
    && CalculateSha(digest, answer.manifest.value) == Some(answer.status.manifest.value.manifestSha256)
  }

  /** Each decision is taken exactly for its cause, with the code and the time of the cause. */
  lemma DecisionsHaveTheirCauses(digest: Digest, answer: Answer, nextPoll: Time)
    ensures var o := Decide(digest, answer, nextPoll);
            && (o.StayWaiting? <==> answer.Answered? && answer.status.readiness == WaitingAnswer)
            && (o.StayWaiting? ==> o.job == answer.status.job)
            && (forall code, at :: o == Retry(code, at) <==> TryAgain(answer, nextPoll, code, at))
            && (forall code :: o == Reject(code) <==> Refused(answer, code))
            && (forall code :: o == NeedAttention(code) <==> Doubtful(digest, answer, code))
            && (o.Accept? <==> Verified(digest, answer))
            && (o.Accept? ==> o.ref == answer.status.manifest.value && o.manifest == answer.manifest.value)
  {
    hide CalculateSha;
  }

  /** The log of the run gained exactly these entries, and no other log changed. */
  ghost predicate Logged(t: Tables, u: Tables, runId: Id, news: seq<(string, string)>) {
    var before, after := EventsOf(t.events, runId), EventsOf(u.events, runId);
    && |after| == |before| + |news| && after[..|before|] == before
    && (forall i :: 0 <= i < |news| ==>
          after[|before| + i].eventType == news[i].0 && after[|before| + i].detail == news[i].1)
    && (forall k :: k != runId ==> EventsOf(t.events, k) == EventsOf(u.events, k))
  }

  /** All rows but that one, all runs but `runId` and all configurations but that of its request are as before. */
  ghost predicate OnlyTouches(t: Tables, u: Tables, id: Id, runId: Id) {
    && t.requirements.Keys == u.requirements.Keys && t.runs.Keys == u.runs.Keys && t.configs.Keys == u.configs.Keys
    && (forall k :: k in t.requirements && k != id ==> u.requirements[k] == t.requirements[k])
    && (forall k :: k in t.runs && k != runId ==> u.runs[k] == t.runs[k])
    && (forall k :: k in t.configs && (runId in t.runs ==> k != t.runs[runId].requestId) ==>
          u.configs[k] == t.configs[k])
  }

  /** The row is free again and due at `at`; run and configuration are as before. */
  ghost predicate PutOff(t: Tables, u: Tables, id: Id, at: Time)
    requires id in t.requirements && id in u.requirements
  {
    && u.runs == t.runs && u.configs == t.configs
    && u.requirements[id].status == Waiting && u.requirements[id].nextPollAt == Some(at)
  }

  /** Run and row have ended with this code. */
  ghost predicate Ended(t: Tables, u: Tables, id: Id, status: RequirementStatus, runStatus: RunStatus, code: string,
                        now: Time)
    requires id in t.requirements && id in u.requirements
  {
    var runId := t.requirements[id].runId;
    && runId in t.runs && runId in u.runs && u.configs == t.configs
    && u.requirements[id].status == status && u.requirements[id].nextPollAt.None?
    && u.requirements[id].progress.errorCode == Some(code)
    && u.runs[runId] == t.runs[runId].(status := runStatus, errorCode := Some(code), finishedAt := Some(now),
                                       version := t.runs[runId].version + 1)
  }

  /** The run is queued, with the manifest in the configuration of its request and in its row. */
  ghost predicate MadeReady(t: Tables, u: Tables, id: Id, ref: ManifestRef, m: Manifest)
    requires id in t.requirements && id in u.requirements
  {
    var runId := t.requirements[id].runId;
    && runId in t.runs && runId in u.runs
    && u.requirements[id].status == Ready && u.requirements[id].nextPollAt.None?
    && u.requirements[id].manifestSnapshotId == Some(m.snapshotId)
    && u.requirements[id].manifestSha256 == Some(m.manifestSha256)
    && u.runs[runId] == t.runs[runId].(status := Queued, version := t.runs[runId].version + 1)
    && t.runs[runId].requestId in u.configs && u.configs[t.runs[runId].requestId] == Some(ref)
  }

  /** What a claim that holds leaves behind, said over the answer and the columns. */
  ghost predicate Follows(w: World, t: Tables, u: Tables, id: Id, answer: Answer, nextPoll: Time, now: Time)
    requires id in t.requirements
  {
    id in u.requirements &&
    var r, r' := t.requirements[id], u.requirements[id];
    && OnlyTouches(t, u, id, r.runId)
    && r'.runId == r.runId && r'.version == r.version + 1 && r'.leaseOwner.None? && r'.leaseExpiresAt.None?
    && (answer.Answered? && answer.status.readiness == WaitingAnswer ==>
          var job := answer.status.job;
          && PutOff(t, u, id, nextPoll)
          && r'.fingerprint == Some(w.fingerprintOf(job)) && r'.progress == JobProgress(job)
          && Logged(t, u, r.runId,
                    if r.fingerprint == Some(w.fingerprintOf(job)) then [] else [("assessment.data_progress", job)]))
    && (forall code, at :: TryAgain(answer, nextPoll, code, at) ==>
          && PutOff(t, u, id, at) && Logged(t, u, r.runId, [])
          && r'.fingerprint == r.fingerprint && r'.progress == r.progress.(transientError := Some(code)))
    && (forall code :: Refused(answer, code) ==>
          Ended(t, u, id, Rejected, Failed, code, now) && Logged(t, u, r.runId, [("assessment.failed", code)]))
    && (forall code :: Doubtful(w.digest, answer, code) ==>
          && Ended(t, u, id, Attention, NeedsAttention, code, now)
          && Logged(t, u, r.runId, [("assessment.needs_attention", code)]))
    && (Verified(w.digest, answer) ==>
          var ref, m := answer.status.manifest.value, answer.manifest.value;
          && MadeReady(t, u, id, ref, m)
          && Logged(t, u, r.runId, [("assessment.data_ready", m.manifestSha256), ("assessment.queued", "")]))
  }

  lemma AppendLogs(t: Tables, u: Tables, runId: Id, eventType: string, detail: string)
    requires u.events == Append(t.events, runId, eventType, detail)
    ensures Logged(t, u, runId, [(eventType, detail)])
  {
    hide MaxSequence;
  }

  lemma AppendTwiceLogs(t: Tables, u: Tables, runId: Id, first: (string, string), second: (string, string))
    requires u.events == Append(Append(t.events, runId, first.0, first.1), runId, second.0, second.1)
    ensures Logged(t, u, runId, [first, second])
  {
    hide MaxSequence;
  }

  /** The claim passes the fence, and run, row and request are as in every sound state then. */
  ghost predicate Holds(t: Tables, c: Claim) {
    && !Fenced(t, c) && t.requirements[c.requirementId].status == Waiting
    && t.requirements[c.requirementId].runId == c.runId && StillWaiting(t, c.runId)
    && t.runs[c.runId].requestId in t.configs
  }

  lemma WaitingFollows(w: World, t: Tables, c: Claim, answer: Answer, nextPoll: Time, now: Time)
    requires Holds(t, c) && Decide(w.digest, answer, nextPoll).StayWaiting?
    ensures Follows(w, t, Apply(t, c, Decide(w.digest, answer, nextPoll), w.fingerprintOf, nextPoll, now).0,
                    c.requirementId, answer, nextPoll, now)
  {
    DecisionsHaveTheirCauses(w.digest, answer, nextPoll);
    hide CalculateSha, Append, Logged, TryAgain, Refused, Doubtful, Verified, Decide;
    var outcome := Decide(w.digest, answer, nextPoll);
    var u := Apply(t, c, outcome, w.fingerprintOf, nextPoll, now).0;
    if t.requirements[c.requirementId].fingerprint == Some(w.fingerprintOf(outcome.job)) {
      NothingLogged(t, u, c.runId);
    } else {
      AppendLogs(t, u, c.runId, "assessment.data_progress", outcome.job);
    }
  }

  lemma RetryFollows(w: World, t: Tables, c: Claim, answer: Answer, nextPoll: Time, now: Time)
    requires Holds(t, c) && Decide(w.digest, answer, nextPoll).Retry?
    ensures Follows(w, t, Apply(t, c, Decide(w.digest, answer, nextPoll), w.fingerprintOf, nextPoll, now).0,
                    c.requirementId, answer, nextPoll, now)
  {
    DecisionsHaveTheirCauses(w.digest, answer, nextPoll);
    hide CalculateSha, Append, Logged, TryAgain, Refused, Doubtful, Verified, Decide;
    var outcome := Decide(w.digest, answer, nextPoll);
    var u := Apply(t, c, outcome, w.fingerprintOf, nextPoll, now).0;
    NothingLogged(t, u, c.runId);
  }

  lemma RejectFollows(w: World, t: Tables, c: Claim, answer: Answer, nextPoll: Time, now: Time)
    requires Holds(t, c) && Decide(w.digest, answer, nextPoll).Reject?
    ensures Follows(w, t, Apply(t, c, Decide(w.digest, answer, nextPoll), w.fingerprintOf, nextPoll, now).0,
                    c.requirementId, answer, nextPoll, now)
  {
    DecisionsHaveTheirCauses(w.digest, answer, nextPoll);
    hide CalculateSha, Append, Logged, TryAgain, Refused, Doubtful, Verified, Decide;
    var outcome := Decide(w.digest, answer, nextPoll);
    var u := Apply(t, c, outcome, w.fingerprintOf, nextPoll, now).0;
    assert "assessment." + StageOf(Rejected) == "assessment.failed";
    AppendLogs(t, u, c.runId, "assessment.failed", outcome.code);
  }

  lemma AttentionFollows(w: World, t: Tables, c: Claim, answer: Answer, nextPoll: Time, now: Time)
    requires Holds(t, c) && Decide(w.digest, answer, nextPoll).NeedAttention?
    ensures Follows(w, t, Apply(t, c, Decide(w.digest, answer, nextPoll), w.fingerprintOf, nextPoll, now).0,
                    c.requirementId, answer, nextPoll, now)
  {
    DecisionsHaveTheirCauses(w.digest, answer, nextPoll);
    hide CalculateSha, Append, Logged, TryAgain, Refused, Doubtful, Verified, Decide;
    var outcome := Decide(w.digest, answer, nextPoll);
    var u := Apply(t, c, outcome, w.fingerprintOf, nextPoll, now).0;
    assert "assessment." + StageOf(Attention) == "assessment.needs_attention";
    AppendLogs(t, u, c.runId, "assessment.needs_attention", outcome.code);
  }

  lemma AcceptFollows(w: World, t: Tables, c: Claim, answer: Answer, nextPoll: Time, now: Time)
    requires Holds(t, c) && Decide(w.digest, answer, nextPoll).Accept?
    ensures Follows(w, t, Apply(t, c, Decide(w.digest, answer, nextPoll), w.fingerprintOf, nextPoll, now).0,
                    c.requirementId, answer, nextPoll, now)
  {
    DecisionsHaveTheirCauses(w.digest, answer, nextPoll);
    hide CalculateSha, Append, Logged, TryAgain, Refused, Doubtful, Verified, Decide;
    var outcome := Decide(w.digest, answer, nextPoll);
    var u := Apply(t, c, outcome, w.fingerprintOf, nextPoll, now).0;
    AppendTwiceLogs(t, u, c.runId, ("assessment.data_ready", outcome.manifest.manifestSha256),
                    ("assessment.queued", ""));
  }

  lemma HeldClaimFollows(w: World, t: Tables, c: Claim, answer: Answer, nextPoll: Time, now: Time)
    requires Holds(t, c)
    ensures Follows(w, t, Apply(t, c, Decide(w.digest, answer, nextPoll), w.fingerprintOf, nextPoll, now).0,
                    c.requirementId, answer, nextPoll, now)
  {
    hide Follows, Apply, Decide;
    match Decide(w.digest, answer, nextPoll)
    case StayWaiting(_) => WaitingFollows(w, t, c, answer, nextPoll, now);
    case Retry(_, _) => RetryFollows(w, t, c, answer, nextPoll, now);
    case Reject(_) => RejectFollows(w, t, c, answer, nextPoll, now);
    case NeedAttention(_) => AttentionFollows(w, t, c, answer, nextPoll, now);
    case Accept(_, _) => AcceptFollows(w, t, c, answer, nextPoll, now);
  }

  lemma NothingLogged(t: Tables, u: Tables, runId: Id)
    requires u.events == t.events
    ensures Logged(t, u, runId, [])
  {
  }

  lemma NewClaimHolds(t: Tables, id: Id, worker: string, now: Time, leaseSeconds: nat)
    requires Due(t, id, now) && References(t)
    ensures var (u, c) := ClaimRow(t, id, worker, now, leaseSeconds); Holds(u, c)
  {
  }

  /** In a sound state a claim that is not fenced does exactly what the answer asks for. */
  lemma StepFollowsAnswer(w: World, s: State, a: Action)
    requires Sound(w, s) && Enabled(s, a) && a.DoApply? && !Fenced(s.tables, a.claim)
    ensures Follows(w, s.tables, Step(w, s, a).tables, a.claim.requirementId, a.answer, a.nextPoll, a.at)
  {
    FenceSuffices(w, s, a);
    hide Follows, Apply, Decide;
    HeldClaimFollows(w, s.tables, a.claim, a.answer, a.nextPoll, a.at);
  }

  /** A claim passes the fence, and until the row changes it is due again exactly when the lease has run out. */
  lemma LeaseExcludes(t: Tables, id: Id, worker: string, now: Time, leaseSeconds: nat, later: Time)
    requires Due(t, id, now) && now <= later
    ensures var (u, c) := ClaimRow(t, id, worker, now, leaseSeconds);
            && !Fenced(u, c) && c.runId == t.requirements[id].runId
            && (Due(u, id, later) <==> now + leaseSeconds <= later)
            && (forall k :: k != id ==> (Due(u, k, later) <==> Due(t, k, later)))
            && u.runs == t.runs && u.configs == t.configs && u.events == t.events
  {
  }

  /** In a sound state the run of a waiting row waits too, so only the row's own times keep it from being claimed. */
  lemma DueInSoundState(w: World, s: State, id: Id, now: Time)
    requires Sound(w, s) && id in s.tables.requirements
    ensures var r := s.tables.requirements[id];
            Due(s.tables, id, now) <==>
            r.status == Waiting && (r.nextPollAt == None || r.nextPollAt.value <= now)
            && (r.leaseExpiresAt == None || r.leaseExpiresAt.value <= now)
  {
    assert WaitsTogether(s.tables);
  }

  /** A row that was put off is claimed again exactly from the named time on. */
  lemma PutOffIsDueAgain(w: World, t: Tables, u: Tables, id: Id, answer: Answer, nextPoll: Time, now: Time,
                         code: string, at: Time, later: Time)
    requires id in t.requirements && StillWaiting(t, t.requirements[id].runId)
    requires Follows(w, t, u, id, answer, nextPoll, now)
    requires TryAgain(answer, nextPoll, code, at)
             || (answer.Answered? && answer.status.readiness == WaitingAnswer && at == nextPoll)
    ensures Due(u, id, later) <==> at <= later
  {
    hide TryAgain, Logged, OnlyTouches, CalculateSha;
  }

  // ---------------------------------------------------------------------
  // Every action keeps the invariant
  // ---------------------------------------------------------------------

  /** Waiting runs keep their waiting rows when no row of theirs changes. */
  lemma WaitersKeepRows(t: Tables, u: Tables)
    requires WaitsTogether(t)
    requires forall run :: run in u.runs && u.runs[run].status == WaitingForData ==>
               run in t.runs && t.runs[run].status == WaitingForData
    requires forall id ::
               (id in t.requirements && t.requirements[id].status == Waiting
                && StillWaiting(u, t.requirements[id].runId)) ==>
                 && id in u.requirements && u.requirements[id].runId == t.requirements[id].runId
                 && u.requirements[id].status == Waiting
    ensures forall run :: run in u.runs && u.runs[run].status == WaitingForData ==>
              exists id ::
                id in u.requirements && u.requirements[id].runId == run && u.requirements[id].status == Waiting
  {
    forall run | run in u.runs && u.runs[run].status == WaitingForData
      ensures exists id ::
                id in u.requirements && u.requirements[id].runId == run && u.requirements[id].status == Waiting
    {
      var id :| id in t.requirements && t.requirements[id].runId == run && t.requirements[id].status == Waiting;
      assert id in u.requirements && u.requirements[id].runId == run;
    }
  }

  /** A waiting row is rewritten with a greater version and goes on waiting. */
  ghost predicate RowKept(t: Tables, u: Tables, id: Id) {
    && id in t.requirements && id in u.requirements
    && u == t.(requirements := t.requirements[id := u.requirements[id]], events := u.events)
    && var r, r' := t.requirements[id], u.requirements[id];
       r'.runId == r.runId && r.status == Waiting && r'.status == Waiting && r'.version == r.version + 1
  }

  /** A waiting row and its run stop waiting together; a ready row names a verified hash. */
  ghost predicate RowClosed(w: World, t: Tables, u: Tables, id: Id) {
    && id in t.requirements && id in u.requirements
    && var r, r' := t.requirements[id], u.requirements[id];
    && r.runId in t.runs && r.runId in u.runs && u.runs[r.runId].requestId in u.configs
    && u == Tables(t.requirements[id := r'], t.runs[r.runId := u.runs[r.runId]],
                   t.configs[u.runs[r.runId].requestId := u.configs[u.runs[r.runId].requestId]], u.events)
    && r'.runId == r.runId && r.status == Waiting && r'.status != Waiting && r'.version == r.version + 1
    && r'.leaseOwner.None?
    && u.runs[r.runId].requestId == t.runs[r.runId].requestId
    && CanMove(t.runs[r.runId].status, u.runs[r.runId].status)
    && (r'.status == Ready ==>
          && r'.manifestSha256.Some? && u.configs[u.runs[r.runId].requestId].Some?
          && u.configs[u.runs[r.runId].requestId].value.manifestSha256 == r'.manifestSha256.value
          && exists m: Manifest :: CalculateSha(w.digest, m) == r'.manifestSha256)
  }

  lemma RowKeptRefers(t: Tables, u: Tables, id: Id)
    requires References(t) && RowKept(t, u, id)
    ensures References(u) && RowsGrow(t, u)
  {
  }

  lemma RowKeptWaits(t: Tables, u: Tables, id: Id)
    requires WaitsTogether(t) && RowKept(t, u, id)
    ensures WaitsTogether(u)
  {
    forall k | k in u.requirements && u.requirements[k].status == Waiting
      ensures StillWaiting(u, u.requirements[k].runId)
    {
      assert t.requirements[k].status == Waiting && StillWaiting(t, t.requirements[k].runId);
    }
    WaitersKeepRows(t, u);
  }

  lemma RowKeptKeepsRows(w: World, t: Tables, u: Tables, id: Id, k: Id)
    requires References(t) && References(u) && RowKept(t, u, id) && k in t.requirements && RowSound(w, t, k)
    ensures k in u.requirements && RowSound(w, u, k)
  {
  }

  /** Claims stay in the past of rows that only grow. */
  lemma ClaimsFollowRows(s: State, u: Tables)
    requires ClaimsSound(s) && RowsGrow(s.tables, u)
    ensures ClaimsSound(s.(tables := u))
  {
  }

  lemma RowKeptIsSound(w: World, s: State, u: Tables, id: Id)
    requires Sound(w, s) && RowKept(s.tables, u, id)
    ensures Sound(w, s.(tables := u)) && RowsGrow(s.tables, u)
  {
    RowKeptKeys(s.tables, u, id);
    hide WaitsTogether, RowSound, RowKept, ClaimsSound, RowsGrow, References;
    RowKeptRefers(s.tables, u, id);
    RowKeptWaits(s.tables, u, id);
    ClaimsFollowRows(s, u);
    forall k | k in u.requirements ensures RowSound(w, u, k) {
      RowKeptKeepsRows(w, s.tables, u, id, k);
    }
  }

  lemma RowKeptKeys(t: Tables, u: Tables, id: Id)
    requires RowKept(t, u, id)
    ensures u.requirements.Keys == t.requirements.Keys
  {
  }

  lemma RowClosedRefers(w: World, t: Tables, u: Tables, id: Id)
    requires References(t) && RowClosed(w, t, u, id)
    ensures References(u)
  {
  }

  lemma RowClosedGrows(w: World, t: Tables, u: Tables, id: Id)
    requires RowClosed(w, t, u, id)
    ensures RowsGrow(t, u)
    ensures u.runs[t.requirements[id].runId].status != WaitingForData
  {
    var runId := t.requirements[id].runId;
    TransitionTable(t.runs[runId].status, u.runs[runId].status);
  }

  lemma RowClosedWaits(w: World, t: Tables, u: Tables, id: Id)
    requires References(t) && WaitsTogether(t) && RowClosed(w, t, u, id)
    ensures WaitsTogether(u)
  {
    RowClosedGrows(w, t, u, id);
    var runId := t.requirements[id].runId;
    forall k | k in u.requirements && u.requirements[k].status == Waiting
      ensures StillWaiting(u, u.requirements[k].runId)
    {
      assert k != id && k in t.requirements && t.requirements[k].runId != runId;
      assert StillWaiting(t, t.requirements[k].runId);
    }
    WaitersKeepRows(t, u);
  }

  lemma RowClosedKeepsRows(w: World, t: Tables, u: Tables, id: Id, k: Id)
    requires References(t) && References(u) && RowClosed(w, t, u, id)
    requires k in t.requirements && RowSound(w, t, k)
    ensures k in u.requirements && RowSound(w, u, k)
  {
  }

  lemma RowClosedKeys(w: World, t: Tables, u: Tables, id: Id)
    requires RowClosed(w, t, u, id)
    ensures u.requirements.Keys == t.requirements.Keys
  {
  }

  lemma RowClosedIsSound(w: World, s: State, u: Tables, id: Id)
    requires Sound(w, s) && RowClosed(w, s.tables, u, id)
    ensures Sound(w, s.(tables := u)) && RowsGrow(s.tables, u)
  {
    RowClosedKeys(w, s.tables, u, id);
    RowClosedGrows(w, s.tables, u, id);
    hide WaitsTogether, RowSound, RowClosed, ClaimsSound, RowsGrow, References;
    RowClosedRefers(w, s.tables, u, id);
    RowClosedWaits(w, s.tables, u, id);
    ClaimsFollowRows(s, u);
    forall k | k in u.requirements ensures RowSound(w, u, k) {
      RowClosedKeepsRows(w, s.tables, u, id, k);
    }
  }

  /** A run that does not wait is moved by an allowed transition. */
  ghost predicate RunMoved(t: Tables, u: Tables, runId: Id) {
    && runId in t.runs && runId in u.runs
    && u == t.(runs := t.runs[runId := u.runs[runId]], events := u.events)
    && u.runs[runId].requestId == t.runs[runId].requestId
    && t.runs[runId].status != WaitingForData && CanMove(t.runs[runId].status, u.runs[runId].status)
  }

  lemma RunMovedRefers(t: Tables, u: Tables, runId: Id)
    requires References(t) && RunMoved(t, u, runId)
    ensures References(u) && u.requirements == t.requirements
  {
    hide CanMove;
  }

  lemma RunMovedStatus(t: Tables, u: Tables, runId: Id)
    requires RunMoved(t, u, runId)
    ensures forall run :: StillWaiting(u, run) <==> StillWaiting(t, run)
    ensures u.requirements == t.requirements && RowsGrow(t, u)
  {
    hide CanMove, AllowedTransitions;
    TransitionTable(t.runs[runId].status, u.runs[runId].status);
  }

  lemma RunMovedWaits(t: Tables, u: Tables, runId: Id)
    requires References(t) && WaitsTogether(t) && RunMoved(t, u, runId)
    ensures References(u) && WaitsTogether(u) && RowsGrow(t, u) && u.requirements == t.requirements
  {
    RunMovedRefers(t, u, runId);
    RunMovedStatus(t, u, runId);
    hide RunMoved, References, RowsGrow;
    assert forall run :: run in u.runs && u.runs[run].status == WaitingForData ==> StillWaiting(u, run);
    WaitersKeepRows(t, u);
  }

  lemma RunMovedKeepsRow(w: World, t: Tables, u: Tables, runId: Id, k: Id)
    requires References(t) && References(u) && RunMoved(t, u, runId) && k in t.requirements && RowSound(w, t, k)
    ensures RowSound(w, u, k)
  {
  }

  lemma RunMovedIsSound(w: World, s: State, u: Tables, runId: Id)
    requires Sound(w, s) && RunMoved(s.tables, u, runId)
    ensures Sound(w, s.(tables := u)) && RowsGrow(s.tables, u)
  {
    hide WaitsTogether, RowSound, RunMoved, ClaimsSound, RowsGrow, References;
    RunMovedWaits(s.tables, u, runId);
    ClaimsFollowRows(s, u);
    forall k | k in u.requirements ensures RowSound(w, u, k) {
      RunMovedKeepsRow(w, s.tables, u, runId, k);
    }
  }

  lemma ClaimKeepsRow(s: State, w: World, a: Action)
    requires Enabled(s, a) && a.DoClaim?
    ensures RowKept(s.tables, Step(w, s, a).tables, a.id)
  {
  }

  lemma ClaimIsNewest(w: World, s: State, a: Action)
    requires ClaimsSound(s) && Enabled(s, a) && a.DoClaim?
    ensures ClaimsSound(Step(w, s, a))
  {
  }

  lemma ClaimKeepsSound(w: World, s: State, a: Action)
    requires Sound(w, s) && Enabled(s, a) && a.DoClaim?
    ensures Sound(w, Step(w, s, a)) && RowsGrow(s.tables, Step(w, s, a).tables)
  {
    hide References, WaitsTogether, RowSound, ClaimsSound, RowKept, RowsGrow, Due, ClaimRow;
    ClaimKeepsRow(s, w, a);
    RowKeptIsSound(w, s, Step(w, s, a).tables, a.id);
    ClaimIsNewest(w, s, a);
  }

  /** Behind the fence an outcome rewrites one waiting row, or closes it together with its run. */
  lemma OutcomeIsRowStep(w: World, t: Tables, c: Claim, outcome: Outcome, nextPoll: Time, now: Time)
    requires References(t) && !Fenced(t, c) && StillWaiting(t, c.runId)
    requires t.requirements[c.requirementId].status == Waiting && t.requirements[c.requirementId].runId == c.runId
    requires outcome.Accept? ==>
               outcome.ref.manifestSha256 == outcome.manifest.manifestSha256
               && CalculateSha(w.digest, outcome.manifest) == Some(outcome.manifest.manifestSha256)
    ensures var u := Apply(t, c, outcome, w.fingerprintOf, nextPoll, now).0;
            RowKept(t, u, c.requirementId) || RowClosed(w, t, u, c.requirementId)
  {
    hide CalculateSha, Append;
    var u := Apply(t, c, outcome, w.fingerprintOf, nextPoll, now).0;
    var run := t.runs[c.runId];
    assert t.configs[run.requestId := t.configs[run.requestId]] == t.configs;
  }

  lemma ApplyIsRowStep(w: World, s: State, a: Action)
    requires Sound(w, s) && Enabled(s, a) && a.DoApply? && !Fenced(s.tables, a.claim)
    ensures var u, id := Step(w, s, a).tables, a.claim.requirementId;
            RowKept(s.tables, u, id) || RowClosed(w, s.tables, u, id)
  {
    FenceSuffices(w, s, a);
    AcceptedManifestIsVerified(w.digest, a.answer, a.nextPoll);
    hide References, WaitsTogether, RowSound, RowKept, RowClosed, Apply, Decide, StillWaiting;
    OutcomeIsRowStep(w, s.tables, a.claim, Decide(w.digest, a.answer, a.nextPoll), a.nextPoll, a.at);
  }

  /** An apply that takes effect moves its row past every claim issued on it, its own included. */
  lemma EffectFencesAllClaims(w: World, s: State, a: Action, c: Claim)
    requires Sound(w, s) && Enabled(s, a) && TakesEffect(w, s, a)
    requires c in s.issued && c.requirementId == a.claim.requirementId
    ensures Step(w, s, a).tables.requirements[c.requirementId].version > c.version
    ensures Fenced(Step(w, s, a).tables, c)
  {
    hide Decide, Apply, Step, WaitsTogether, RowSound;
    FenceSuffices(w, s, a);
    ApplyIsRowStep(w, s, a);
  }

  lemma ApplyKeepsSound(w: World, s: State, a: Action)
    requires Sound(w, s) && Enabled(s, a) && a.DoApply?
    ensures Sound(w, Step(w, s, a)) && RowsGrow(s.tables, Step(w, s, a).tables)
  {
    hide Apply, Decide;
    if Fenced(s.tables, a.claim) {
      FencedClaimChangesNothing(w, s, a);
    } else {
      ApplyIsRowStep(w, s, a);
      var u, id := Step(w, s, a).tables, a.claim.requirementId;
      if RowKept(s.tables, u, id) {
        RowKeptIsSound(w, s, u, id);
      } else {
        RowClosedIsSound(w, s, u, id);
      }
    }
  }

  /** Cancelling a waiting run withdraws its one waiting row and nothing else. */
  lemma CancelClosesRow(w: World, t: Tables, runId: Id, now: Time) returns (id: Id)
    requires References(t) && WaitsTogether(t) && StillWaiting(t, runId)
    ensures RowClosed(w, t, Cancel(t, runId, now), id)
  {
    id :| id in t.requirements && t.requirements[id].runId == runId && t.requirements[id].status == Waiting;
    var u := Cancel(t, runId, now);
    assert Withdraw(t.requirements, runId) == t.requirements[id := WithdrawnRow(t.requirements[id])];
    CancelIsAllowed(WaitingForData);
    assert u.requirements == Withdraw(t.requirements, runId);
    assert u.configs == t.configs[u.runs[runId].requestId := u.configs[u.runs[runId].requestId]];
  }

  /**
   A cancel ends a run that waits or is queued, asks a run at work to stop, and leaves every other
   run alone; only rows that waited for the run are withdrawn.
   */
  lemma CancelDoes(t: Tables, runId: Id, now: Time)
    requires runId in t.runs
    ensures var u, run := Cancel(t, runId, now), t.runs[runId];
            var ends := run.status == Queued || run.status == WaitingForData;
            var stops := !ends && run.status !in {Succeeded, Failed, Cancelled, NeedsAttention}
                         && run.status != CancelRequested && run.status != Cancelling;
            && u.configs == t.configs && u.runs.Keys == t.runs.Keys && u.requirements.Keys == t.requirements.Keys
            && (forall k :: k in t.runs && k != runId ==> u.runs[k] == t.runs[k])
            && (ends ==>
                  u.runs[runId] == run.(status := Cancelled, version := run.version + 1, finishedAt := Some(now))
                  && Logged(t, u, runId, [("assessment.cancelled", "")]))
            && (stops ==>
                  u.runs[runId] == run.(status := CancelRequested, version := run.version + 1)
                  && Logged(t, u, runId, [("assessment.cancel_requested", "")]))
            && (!ends && !stops ==> u == t)
            && (forall k :: k in t.requirements ==>
                  var r, r' := t.requirements[k], u.requirements[k];
                  if run.status == WaitingForData && r.runId == runId && r.status == Waiting
                  then r'.status == Withdrawn && r'.version == r.version + 1 && r'.leaseOwner.None?
                       && r'.leaseExpiresAt.None? && r'.nextPollAt.None? && r'.runId == r.runId
                  else r' == r)
  {
    hide Append, Logged;
    var u := Cancel(t, runId, now);
    match CancelTarget(t.runs[runId].status)
    case Some(Cancelled) => AppendLogs(t, u, runId, "assessment.cancelled", "");
    case Some(_) => AppendLogs(t, u, runId, "assessment.cancel_requested", "");
    case None =>
  }

  lemma CancelKeepsSound(w: World, s: State, a: Action)
    requires Sound(w, s) && Enabled(s, a) && a.DoCancel?
    ensures Sound(w, Step(w, s, a)) && RowsGrow(s.tables, Step(w, s, a).tables)
  {
    hide RowSound, ClaimsSound, WaitsTogether, RowClosed, Withdraw;
    var t, u := s.tables, Step(w, s, a).tables;
    if StillWaiting(t, a.runId) {
      var id := CancelClosesRow(w, t, a.runId, a.at);
      RowClosedIsSound(w, s, u, id);
    } else if a.runId in t.runs && CancelTarget(t.runs[a.runId].status).Some? {
      CancelIsAllowed(t.runs[a.runId].status);
      RunMovedIsSound(w, s, u, a.runId);
    } else {
      assert u == t;
    }
  }

  lemma SubmitRefers(w: World, s: State, a: Action)
    requires References(s.tables) && Enabled(s, a) && a.DoSubmit?
    ensures References(Step(w, s, a).tables) && RowsGrow(s.tables, Step(w, s, a).tables)
  {
    hide Append;
  }

  lemma SubmitWaits(w: World, s: State, a: Action)
    requires References(s.tables) && WaitsTogether(s.tables) && Enabled(s, a) && a.DoSubmit?
    ensures WaitsTogether(Step(w, s, a).tables)
  {
    hide Append;
    var t, u := s.tables, Step(w, s, a).tables;
    forall run | run in u.runs && u.runs[run].status == WaitingForData
      ensures exists id ::
                id in u.requirements && u.requirements[id].runId == run && u.requirements[id].status == Waiting
    {
      if run == a.runId {
        assert u.requirements[a.waiting.value.0].runId == run;
      } else {
        var id :| id in t.requirements && t.requirements[id].runId == run && t.requirements[id].status == Waiting;
        assert u.requirements[id].runId == run;
      }
    }
  }

  lemma SubmitKeepsRow(w: World, s: State, a: Action, k: Id)
    requires Enabled(s, a) && a.DoSubmit? && References(s.tables) && References(Step(w, s, a).tables)
    requires k in Step(w, s, a).tables.requirements && (k in s.tables.requirements ==> RowSound(w, s.tables, k))
    ensures RowSound(w, Step(w, s, a).tables, k)
  {
    hide Append;
  }

  lemma SubmitKeepsClaims(w: World, s: State, a: Action)
    requires ClaimsSound(s) && Enabled(s, a) && a.DoSubmit?
    ensures ClaimsSound(Step(w, s, a))
  {
    hide Append;
  }

  lemma SubmitKeepsSound(w: World, s: State, a: Action)
    requires Sound(w, s) && Enabled(s, a) && a.DoSubmit?
    ensures Sound(w, Step(w, s, a)) && RowsGrow(s.tables, Step(w, s, a).tables)
  {
    hide WaitsTogether, RowSound, ClaimsSound, References, RowsGrow, Submit, Enabled;
    SubmitRefers(w, s, a);
    SubmitWaits(w, s, a);
    SubmitKeepsClaims(w, s, a);
    forall k | k in Step(w, s, a).tables.requirements ensures RowSound(w, Step(w, s, a).tables, k) {
      SubmitKeepsRow(w, s, a, k);
    }
  }

  /** The tables after an allowed move of a run, whoever makes it. */
  function Moved(t: Tables, runId: Id, target: RunStatus): Tables
    requires runId in t.runs
  {
    var run := t.runs[runId];
    t.(runs := t.runs[runId := run.(status := target, version := run.version + 1)])
  }

  /**
   Runs and requirements go on waiting together after an allowed move from elsewhere exactly when
   the moved run did not wait; the scheduler takes queued runs and a worker the runs it leased.
   */
  lemma MovesKeepWaitsTogetherExactlyWhen(w: World, s: State, runId: Id, target: RunStatus)
    requires Sound(w, s) && runId in s.tables.runs && CanMove(s.tables.runs[runId].status, target)
    ensures WaitsTogether(Moved(s.tables, runId, target)) <==> s.tables.runs[runId].status != WaitingForData
  {
    var t, u := s.tables, Moved(s.tables, runId, target);
    TransitionTable(t.runs[runId].status, target);
    if t.runs[runId].status != WaitingForData {
      RunMovedWaits(t, u, runId);
    } else {
      hide RowSound, ClaimsSound, References;
      var id :| id in t.requirements && t.requirements[id].runId == runId && t.requirements[id].status == Waiting;
      assert !StillWaiting(u, runId);
    }
  }

  lemma WorkKeepsSound(w: World, s: State, a: Action)
    requires Sound(w, s) && Enabled(s, a) && a.DoWork?
    ensures Sound(w, Step(w, s, a)) && RowsGrow(s.tables, Step(w, s, a).tables)
  {
    RunMovedIsSound(w, s, Step(w, s, a).tables, a.runId);
  }

  lemma StepKeepsSound(w: World, s: State, a: Action)
    requires Sound(w, s) && Enabled(s, a)
    ensures Sound(w, Step(w, s, a)) && RowsGrow(s.tables, Step(w, s, a).tables)
  {
    hide Sound, RowsGrow, Step, Enabled;
    match a {
      case DoClaim(_, _, _, _) => ClaimKeepsSound(w, s, a);
      case DoApply(_, _, _, _) => ApplyKeepsSound(w, s, a);
      case DoCancel(_, _) => CancelKeepsSound(w, s, a);
      case DoSubmit(_, _, _, _) => SubmitKeepsSound(w, s, a);
      case DoWork(_, _) => WorkKeepsSound(w, s, a);
    }
  }

  /** A new claim on a row fences every claim issued on it before. */
  lemma ClaimFencesOlderClaims(w: World, s: State, a: Action, c: Claim)
    requires Sound(w, s) && Enabled(s, a) && a.DoClaim? && c in s.issued && c.requirementId == a.id
    ensures Step(w, s, a).tables.requirements[a.id].version > c.version
    ensures Fenced(Step(w, s, a).tables, c)
  {
  }

  /** The run was queued by an accepted answer; row, configuration and recomputed hash of its manifest agree. */
  ghost predicate QueuedByManifest(w: World, u: Tables, a: Action, runId: Id) {
    && a.DoApply? && a.claim.runId == runId && a.answer.Answered? && a.answer.manifest.Ok?
    && a.answer.status.manifest.Some?
    && a.claim.requirementId in u.requirements && runId in u.runs && u.runs[runId].requestId in u.configs
    && var row, sha := u.requirements[a.claim.requirementId], CalculateSha(w.digest, a.answer.manifest.value);
    && row.runId == runId && row.status == Ready
    && sha.Some? && row.manifestSha256 == sha && a.answer.status.manifest.value.manifestSha256 == sha.value
    && u.configs[u.runs[runId].requestId] == a.answer.status.manifest
  }

  lemma OthersDoNotQueue(w: World, s: State, a: Action, runId: Id)
    requires Enabled(s, a) && !a.DoApply? && StillWaiting(s.tables, runId)
    ensures runId in Step(w, s, a).tables.runs && Step(w, s, a).tables.runs[runId].status != Queued
  {
    hide Append, Withdraw, Due;
    CancelIsAllowed(WaitingForData);
  }

  lemma AppliedManifestQueues(w: World, s: State, a: Action, runId: Id)
    requires Sound(w, s) && Enabled(s, a) && a.DoApply? && StillWaiting(s.tables, runId)
    requires runId in Step(w, s, a).tables.runs && Step(w, s, a).tables.runs[runId].status == Queued
    ensures QueuedByManifest(w, Step(w, s, a).tables, a, runId)
  {
    AcceptedManifestIsVerified(w.digest, a.answer, a.nextPoll);
    assert a.claim.requirementId in s.tables.requirements ==>
             s.tables.requirements[a.claim.requirementId].runId == a.claim.runId;
    hide Append, CalculateSha, Decide, WaitsTogether, References, RowSound, ClaimsSound;
  }

  /** A run leaves its waiting state for the queue only by an accepted answer whose manifest is verified. */
  lemma QueuedOnlyWithVerifiedManifest(w: World, s: State, a: Action, runId: Id)
    requires Sound(w, s) && Enabled(s, a) && StillWaiting(s.tables, runId)
    requires runId in Step(w, s, a).tables.runs && Step(w, s, a).tables.runs[runId].status == Queued
    ensures QueuedByManifest(w, Step(w, s, a).tables, a, runId)
  {
    hide Sound, Enabled, Step, QueuedByManifest;
    if a.DoApply? {
      AppliedManifestQueues(w, s, a, runId);
    } else {
      OthersDoNotQueue(w, s, a, runId);
    }
  }

  // ---------------------------------------------------------------------
  // Whole runs
  // ---------------------------------------------------------------------

  ghost predicate Executes(w: World, s: State, actions: seq<Action>)
    decreases |actions|
  {
    |actions| > 0 ==> Enabled(s, actions[0]) && Executes(w, Step(w, s, actions[0]), actions[1..])
  }

  ghost function After(w: World, s: State, actions: seq<Action>): State
    requires Executes(w, s, actions)
    decreases |actions|
  {
    if |actions| == 0 then s else After(w, Step(w, s, actions[0]), actions[1..])
  }

  lemma {:induction false} RunsStaySound(w: World, s: State, actions: seq<Action>)
    requires Sound(w, s) && Executes(w, s, actions)
    ensures Sound(w, After(w, s, actions))
    ensures s.issued <= After(w, s, actions).issued
    decreases |actions|
  {
    if |actions| > 0 {
      hide Sound, Step, Enabled;
      StepKeepsSound(w, s, actions[0]);
      IssuedOnlyGrow(w, s, actions[0]);
      RunsStaySound(w, Step(w, s, actions[0]), actions[1..]);
    }
  }

  lemma IssuedOnlyGrow(w: World, s: State, a: Action)
    requires Enabled(s, a)
    ensures s.issued <= Step(w, s, a).issued
  {
    hide Due, Apply, Decide, Cancel, Submit, Moved;
  }

  /** Every reachable state is sound. */
  lemma ReachableIsSound(w: World, actions: seq<Action>)
    requires Executes(w, START, actions)
    ensures Sound(w, After(w, START, actions))
  {
    StartIsSound(w);
    RunsStaySound(w, START, actions);
  }

  /** Over any run a row that differs at the end has a greater version. */
  lemma {:induction false} VersionsOnlyGrow(w: World, s: State, actions: seq<Action>, id: Id)
    requires Sound(w, s) && Executes(w, s, actions) && id in s.tables.requirements
    ensures var u := After(w, s, actions).tables.requirements;
            && id in u && u[id].runId == s.tables.requirements[id].runId
            && (u[id] == s.tables.requirements[id] || u[id].version > s.tables.requirements[id].version)
    decreases |actions|
  {
    if |actions| > 0 {
      hide Sound, Step, Enabled;
      StepKeepsSound(w, s, actions[0]);
      VersionsOnlyGrow(w, Step(w, s, actions[0]), actions[1..], id);
    }
  }

  /** A claim whose row has moved past it can never take effect again. */
  lemma PassedClaimIsDead(w: World, s: State, actions: seq<Action>, c: Claim)
    requires Sound(w, s) && Executes(w, s, actions) && c.requirementId in s.tables.requirements
    requires s.tables.requirements[c.requirementId].version > c.version
    ensures Fenced(After(w, s, actions).tables, c)
  {
    hide Sound, Step, Enabled, After, Executes;
    VersionsOnlyGrow(w, s, actions, c.requirementId);
  }

  /**
   Once a claim has taken effect, neither it nor any other claim issued on that row so
   far takes effect in any continuation, whatever is attempted with it.
   */
  lemma EffectIsFinal(w: World, s: State, first: Action, between: seq<Action>, again: Action)
    requires Sound(w, s) && Enabled(s, first) && TakesEffect(w, s, first)
    requires Executes(w, Step(w, s, first), between)
    requires again.DoApply? && again.claim in s.issued && again.claim.requirementId == first.claim.requirementId
    ensures !TakesEffect(w, After(w, Step(w, s, first), between), again)
  {
    hide Sound, Step, Apply, Enabled, TakesEffect, After, Executes;
    EffectFencesAllClaims(w, s, first, again.claim);
    StepKeepsSound(w, s, first);
    ClaimNamesRow(w, s, again.claim);
    PassedClaimIsDead(w, Step(w, s, first), between, again.claim);
    FencedNeverTakesEffect(w, After(w, Step(w, s, first), between), again);
  }

  lemma ClaimNamesRow(w: World, s: State, c: Claim)
    requires Sound(w, s) && c in s.issued
    ensures c.requirementId in s.tables.requirements
  {
  }

  lemma FencedNeverTakesEffect(w: World, s: State, a: Action)
    requires a.DoApply? && Fenced(s.tables, a.claim)
    ensures !TakesEffect(w, s, a)
  {
  }

  /** A claim that was overtaken by a later claim on its row never takes effect. */
  lemma OvertakenClaimIsDead(w: World, s: State, claim: Action, between: seq<Action>, late: Action)
    requires Sound(w, s) && Enabled(s, claim) && claim.DoClaim?
    requires Executes(w, Step(w, s, claim), between)
    requires late.DoApply? && late.claim in s.issued && late.claim.requirementId == claim.id
    ensures !TakesEffect(w, After(w, Step(w, s, claim), between), late)
  {
    ClaimFencesOlderClaims(w, s, claim, late.claim);
    hide Sound, Step, Apply, Enabled, TakesEffect, After, Executes;
    StepKeepsSound(w, s, claim);
    ClaimNamesRow(w, s, late.claim);
    PassedClaimIsDead(w, Step(w, s, claim), between, late.claim);
    FencedNeverTakesEffect(w, After(w, Step(w, s, claim), between), late);
  }

  /** A run that does not wait for data never waits again. */
  lemma {:induction false} WaitingIsLeftOnce(w: World, s: State, actions: seq<Action>, runId: Id)
    requires Sound(w, s) && Executes(w, s, actions)
    requires runId in s.tables.runs && s.tables.runs[runId].status != WaitingForData
    ensures runId in After(w, s, actions).tables.runs
            && After(w, s, actions).tables.runs[runId].status != WaitingForData
    decreases |actions|
  {
    if |actions| > 0 {
      hide Sound, Step, Enabled;
      var s' := Step(w, s, actions[0]);
      StepKeepsSound(w, s, actions[0]);
      TransitionTable(s.tables.runs[runId].status, s'.tables.runs[runId].status);
      WaitingIsLeftOnce(w, s', actions[1..], runId);
    }
  }

  // ---------------------------------------------------------------------
  // The event log
  // ---------------------------------------------------------------------

  /** The events of every run are numbered 1, 2, 3, ... */
  ghost predicate Numbered(events: map<Id, seq<RunEvent>>) {
    forall run, i :: run in events && 0 <= i < |events[run]| ==> events[run][i].sequence == i + 1
  }

  lemma {:induction false} MaxOfNumbered(log: seq<RunEvent>)
    requires forall i :: 0 <= i < |log| ==> log[i].sequence == i + 1
    ensures MaxSequence(log) == |log|
  {
    if |log| > 0 { MaxOfNumbered(log[..|log| - 1]); }
  }

  lemma AppendKeepsNumbers(events: map<Id, seq<RunEvent>>, runId: Id, eventType: string, detail: string)
    requires Numbered(events)
    ensures Numbered(Append(events, runId, eventType, detail))
  {
    MaxOfNumbered(EventsOf(events, runId));
  }

  lemma ApplyKeepsNumbers(t: Tables, c: Claim, outcome: Outcome, fingerprintOf: string -> string, nextPoll: Time,
                          now: Time)
    requires Numbered(t.events)
    ensures Numbered(Apply(t, c, outcome, fingerprintOf, nextPoll, now).0.events)
  {
    hide Append, Numbered, Fenced;
    match outcome {
      case StayWaiting(job) => AppendKeepsNumbers(t.events, c.runId, "assessment.data_progress", job);
      case Retry(_, _) =>
      case Reject(code) => AppendKeepsNumbers(t.events, c.runId, "assessment." + StageOf(Rejected), code);
      case NeedAttention(code) => AppendKeepsNumbers(t.events, c.runId, "assessment." + StageOf(Attention), code);
      case Accept(ref, manifest) =>
        AppendKeepsNumbers(t.events, c.runId, "assessment.data_ready", manifest.manifestSha256);
        AppendKeepsNumbers(Append(t.events, c.runId, "assessment.data_ready", manifest.manifestSha256),
                           c.runId, "assessment.queued", "");
    }
  }

  lemma StepKeepsNumbers(w: World, s: State, a: Action)
    requires Numbered(s.tables.events) && Enabled(s, a)
    ensures Numbered(Step(w, s, a).tables.events)
  {
    hide Append, Numbered, Apply, Decide;
    var events := s.tables.events;
    match a {
      case DoApply(c, answer, nextPoll, at) =>
        ApplyKeepsNumbers(s.tables, c, Decide(w.digest, answer, nextPoll), w.fingerprintOf, nextPoll, at);
      case DoCancel(run, _) =>
        AppendKeepsNumbers(events, run, "assessment.cancelled", "");
        AppendKeepsNumbers(events, run, "assessment.cancel_requested", "");
      case DoSubmit(run, _, _, waiting) =>
        AppendKeepsNumbers(events, run, if waiting.Some? then "assessment.waiting_for_data"
            else "assessment.queued", "");
      case _ =>
    }
  }

  lemma {:induction false} EventsAreNumbered(w: World, s: State, actions: seq<Action>)
    requires Numbered(s.tables.events) && Executes(w, s, actions)
    ensures Numbered(After(w, s, actions).tables.events)
    decreases |actions|
  {
    if |actions| > 0 {
      hide Numbered, Step, Enabled;
      StepKeepsNumbers(w, s, actions[0]);
      EventsAreNumbered(w, Step(w, s, actions[0]), actions[1..]);
    }
  }
}
