/**
 The batch driver against the platform: it may post a date more than once, but every post of
 a date carries one idempotency key, so the platform starts at most one run of it.
 */
module BatchOnPlatform {
  import opened Outcomes
  import opened Runs
  import opened AssessmentStore
  import opened AssessmentLifecycle
  import B = SequentialBatch

  // ---------------------------------------------------------------------
  // The runs that submissions under one key start
  // ---------------------------------------------------------------------

  /** The run stands in a batch of the user under the key. */
  ghost predicate IsInBatch(s: Store, run: Id, user: Id, key: string) {
    exists request, batch ::
      Links(s, run, RequestId, request) && Links(s, request, BatchId, batch) && IsKeyed(s, batch, user, key)
  }

  /** A run that a submission started, not a retry or a clean reassessment. */
  ghost predicate IsOriginal(s: Store, run: Id, user: Id, key: string) {
    IsRun(s, run) && RetryOf !in s[run].links && CleanOf !in s[run].links && IsInBatch(s, run, user, key)
  }

  ghost predicate AtMostOneOriginal(s: Store, user: Id, key: string) {
    forall a, b :: IsOriginal(s, a, user, key) && IsOriginal(s, b, user, key) ==> a == b
  }

  /** Rows in both stores are the same. */
  ghost predicate Agree(s: Store, u: Store) {
    forall id :: id in s && id in u ==> u[id] == s[id]
  }

  lemma OldOriginal(s: Store, u: Store, run: Id, user: Id, key: string)
    requires ForeignKeysHold(s) && Agree(s, u) && run in s && IsOriginal(u, run, user, key)
    ensures IsOriginal(s, run, user, key)
  {
    hide ForeignKeysHold;
    var request, batch :|
      Links(u, run, RequestId, request) && Links(u, request, BatchId, batch) && IsKeyed(u, batch, user, key);
    assert Links(s, run, RequestId, request);
    LinksResolve(s, run, RequestId, request);
    assert Links(s, request, BatchId, batch);
    LinksResolve(s, request, BatchId, batch);
    assert IsKeyed(s, batch, user, key);
  }

  /** The new run of an enrolment; the other new rows are no runs. */
  lemma NewRunOfEnrol(s: Store, batch: Id, n: NewRun, origin: Origin, attempt: nat, run: Id)
    requires FreshIds(s, n) && run !in s && IsRun(Enrol(s, batch, n, origin, attempt), run)
    ensures run == n.run
    ensures origin.RetryFrom? ==> RetryOf in Enrol(s, batch, n, origin, attempt)[run].links
    ensures origin.CleanFrom? ==> CleanOf in Enrol(s, batch, n, origin, attempt)[run].links
  {
  }

  lemma EnrolledRunIsInBatch(s: Store, batch: Id, n: NewRun, run: Id, user: Id, key: string)
    requires IsEnrolled(s, batch, n, Original, 1) && run in NewIds(n) && IsOriginal(s, run, user, key)
    ensures run == n.run && IsKeyed(s, batch, user, key)
  {
    var request, other :|
      Links(s, run, RequestId, request) && Links(s, request, BatchId, other) && IsKeyed(s, other, user, key);
  }

  /** A submission adds an original only under its own key, and then only for its items. */
  lemma SubmitAddsOwn(s: Store, a: Action, run: Id, user: Id, key: string)
    requires Sound(s) && a.DoSubmit? && Enabled(s, a) && IsOriginal(Step(s, a), run, user, key)
    requires a.user == user && a.key == key ==> |a.items| == 1
    ensures IsOriginal(s, run, user, key)
            || (a.user == user && a.key == key && FindBatch(s, user, key).None? && run == a.items[0].run)
  {
    hide ForeignKeysHold, IsOriginal, IsEnrolled, IsKeyed, NewIds, AllFresh, EnrolAll, WithBatch;
    var u := Step(s, a);
    if FindBatch(s, a.user, a.key).None? {
      forall id | id in s && id in u ensures u[id] == s[id] { SubmitEnrolsEachItem(s, a, 0, 0, id); }
      if run in s {
        OldOriginal(s, u, run, user, key);
      } else {
        SubmitEnrolsEachItem(s, a, 0, 0, run);
        OriginalIsRow(u, run, user, key);
        BatchRowIsNoRun(u, a.batch, a.user, a.key);
        var k :| 0 <= k < |a.items| && run in NewIds(a.items[k]);
        SubmitEnrolsEachItem(s, a, k, 0, run);
        EnrolledRunIsInBatch(u, a.batch, a.items[k], run, user, key);
        SameKey(u, a.batch, a.user, a.key, user, key);
      }
    } else {
      assert u == s;
    }
  }

  lemma OriginalIsRow(s: Store, run: Id, user: Id, key: string)
    requires IsOriginal(s, run, user, key)
    ensures IsRun(s, run)
  {
  }

  lemma BatchRowIsNoRun(s: Store, batch: Id, user: Id, key: string)
    requires IsKeyed(s, batch, user, key)
    ensures !IsRun(s, batch)
  {
  }

  lemma SameKey(s: Store, batch: Id, user: Id, key: string, other: Id, otherKey: string)
    requires IsKeyed(s, batch, user, key) && IsKeyed(s, batch, other, otherKey)
    ensures user == other && key == otherKey
  {
  }

  /** A retry adds no original. */
  lemma RetryAddsNone(s: Store, a: Action, run: Id, user: Id, key: string)
    requires Sound(s) && a.DoRetry? && Enabled(s, a) && IsOriginal(Step(s, a), run, user, key)
    ensures IsOriginal(s, run, user, key)
  {
    hide ForeignKeysHold, IsInBatch, FreshIds, Enrol, Again, OwnerOf;
    if Retry(s, a.run, a.n).Ok? {
      var batch := BatchOf(s, RequestOf(s, a.run));
      var attempt := AttemptOf(s, a.run) + 1;
      var n := Again(s, a.run, a.n);
      AgainIsFresh(s, s, a.run, a.n);
      EnrolGrows(s, batch, n, RetryFrom(a.run), attempt);
      if run in s {
        OldOriginal(s, Step(s, a), run, user, key);
      } else {
        NewRunOfEnrol(s, batch, n, RetryFrom(a.run), attempt, run);
      }
    }
  }

  /** A clean reassessment adds no original. */
  lemma ReassessAddsNone(s: Store, a: Action, run: Id, user: Id, key: string)
    requires Sound(s) && a.DoReassess? && Enabled(s, a) && IsOriginal(Step(s, a), run, user, key)
    ensures IsOriginal(s, run, user, key)
  {
    hide ForeignKeysHold, IsInBatch, FreshIds, Enrol, Again, OwnerOf;
    var outcome := Reassess(s, a.run, a.flagged, a.key, a.batch, a.n);
    if outcome.Ok? && FindClean(s, a.run).None? {
      var t := WithBatch(s, a.batch, OwnerOf(s, a.run), a.key, None);
      var n := Again(s, a.run, a.n);
      AgainIsFresh(s, t, a.run, a.n);
      EnrolGrows(t, a.batch, n, CleanFrom(a.run), 1);
      if run in s {
        OldOriginal(s, Step(s, a), run, user, key);
      } else if run !in t {
        NewRunOfEnrol(t, a.batch, n, CleanFrom(a.run), 1, run);
      }
    }
  }

  /** Removing rows and adding rows that are no runs adds no original. */
  lemma RemovalAddsNone(s: Store, a: Action, run: Id, user: Id, key: string)
    requires Sound(s) && (a.DoDelete? || a.DoAdd? || a.DoUnlease?) && Enabled(s, a)
    requires IsOriginal(Step(s, a), run, user, key)
    ensures IsOriginal(s, run, user, key)
  {
    hide ForeignKeysHold, IsInBatch, DeleteGraph, Typed, Resolves;
    if a.DoDelete? && Delete(s, a.run).Ok? {
      DeleteKeepsRequestsAndBatches(s, a.run);
    }
    OldOriginal(s, Step(s, a), run, user, key);
  }

  /** Progress of runs and jobs adds no original. */
  lemma ProgressAddsNone(s: Store, a: Action, run: Id, user: Id, key: string)
    requires Sound(s) && (a.DoMove? || a.DoPin? || a.DoJob?) && Enabled(s, a)
    requires IsOriginal(Step(s, a), run, user, key)
    ensures IsOriginal(s, run, user, key)
  {
    var id := if a.DoJob? then a.id else a.run;
    var u := Step(s, a);
    ProgressKeepsRows(s, a);
    hide Step, Sound, Enabled, SameButProgress;
    UpdateKeepsLinks(s, u, id);
    KeptColumns(s, u, id, run);
    hide Links, IsKeyed;
    var request, batch :|
      Links(u, run, RequestId, request) && Links(u, request, BatchId, batch) && IsKeyed(u, batch, user, key);
    assert Links(s, run, RequestId, request) && Links(s, request, BatchId, batch) && IsKeyed(s, batch, user, key);
  }

  lemma KeptColumns(s: Store, u: Store, id: Id, run: Id)
    requires id in s && id in u && u == s[id := u[id]] && SameButProgress(s[id], u[id])
    ensures IsRun(u, run) ==>
              && IsRun(s, run)
              && (RetryOf in u[run].links <==> RetryOf in s[run].links)
              && (CleanOf in u[run].links <==> CleanOf in s[run].links)
  {
  }

  // ---------------------------------------------------------------------
  // Whole histories of the platform
  // ---------------------------------------------------------------------

  /** Submissions under the key bring one item; all other actions are free. */
  predicate BringsOne(a: Action, user: Id, key: string) {
    a.DoSubmit? && a.user == user && a.key == key ==> |a.items| == 1
  }

  lemma StepAddsOwn(s: Store, a: Action, run: Id, user: Id, key: string)
    requires Sound(s) && Enabled(s, a) && BringsOne(a, user, key) && IsOriginal(Step(s, a), run, user, key)
    ensures IsOriginal(s, run, user, key)
            || (a.DoSubmit? && FindBatch(s, user, key).None? && |a.items| == 1 && run == a.items[0].run)
  {
    hide Sound, Enabled, Step, IsOriginal, FindBatch;
    match a {
      case DoSubmit(_, _, _, _, _) => SubmitAddsOwn(s, a, run, user, key);
      case DoRetry(_, _) => RetryAddsNone(s, a, run, user, key);
      case DoReassess(_, _, _, _, _) => ReassessAddsNone(s, a, run, user, key);
      case DoMove(_, _) => ProgressAddsNone(s, a, run, user, key);
      case DoPin(_, _) => ProgressAddsNone(s, a, run, user, key);
      case DoJob(_, _) => ProgressAddsNone(s, a, run, user, key);
      case _ => RemovalAddsNone(s, a, run, user, key);
    }
  }

  lemma NoBatchNoOriginal(s: Store, run: Id, user: Id, key: string)
    requires FindBatch(s, user, key).None?
    ensures !IsOriginal(s, run, user, key)
  {
  }

  /** No action of the platform starts a second run under a key. */
  lemma StepKeepsOneOriginal(s: Store, a: Action, user: Id, key: string)
    requires Sound(s) && Enabled(s, a) && BringsOne(a, user, key) && AtMostOneOriginal(s, user, key)
    ensures AtMostOneOriginal(Step(s, a), user, key)
  {
    SoundHasKeys(s);
    hide Sound, Enabled, Step, IsOriginal, FindBatch;
    var u := Step(s, a);
    forall x, y | IsOriginal(u, x, user, key) && IsOriginal(u, y, user, key) ensures x == y {
      StepAddsOwn(s, a, x, user, key);
      StepAddsOwn(s, a, y, user, key);
      if FindBatch(s, user, key).None? {
        NoBatchNoOriginal(s, x, user, key);
        NoBatchNoOriginal(s, y, user, key);
      }
    }
  }

  // ---------------------------------------------------------------------
  // The driver and the platform together
  // ---------------------------------------------------------------------

  /** The user the driver acts for, and the idempotency key and payload of a post. */
  datatype Poster = Poster(user: Id, keyOf: (string, B.Key) -> string, digestOf: (string, B.Key) -> string)

  /** The state file of the driver and the tables of the platform. */
  datatype World = World(file: B.Tracks, store: Store)

  /** A post that reaches the platform, with the identifiers it would use; a lost one does not. */
  datatype Joint =
    | Turn(turn: B.Turn, arrives: Option<(Id, NewRun)>)
    | Elsewhere(action: Action)

  /** What a post of a date submits: always one item. */
  function PostOf(p: Poster, symbol: string, date: B.Key, batch: Id, n: NewRun): Action {
    DoSubmit(p.user, p.keyOf(symbol, date), p.digestOf(symbol, date), batch, [n])
  }

  /** Under the driver's keys only posts of single items are submitted, by the driver or others. */
  ghost predicate MayHappen(p: Poster, plan: B.Plan, w: World, j: Joint) {
    match j
    case Turn(turn, arrives) =>
      arrives.Some? ==>
        && B.DeedOf(plan, w.file, turn).Posted?
        && Enabled(w.store, PostOf(p, turn.symbol, B.DeedOf(plan, w.file, turn).key, arrives.value.0, arrives.value.1))
    case Elsewhere(action) =>
      Enabled(w.store, action) && forall symbol, date :: BringsOne(action, p.user, p.keyOf(symbol, date))
  }

  /** Whatever answer the driver then sees, an arriving post is submitted. */
  ghost function Happen(p: Poster, plan: B.Plan, w: World, j: Joint): World
    requires Sound(w.store) && MayHappen(p, plan, w, j)
  {
    match j
    case Turn(turn, arrives) =>
      World(B.TakeTurn(plan, w.file, turn),
            match arrives
            case None => w.store
            case Some((batch, n)) => Step(w.store, PostOf(p, turn.symbol, B.DeedOf(plan, w.file, turn).key, batch, n)))
    case Elsewhere(action) => w.(store := Step(w.store, action))
  }

  lemma HappenKeeps(p: Poster, plan: B.Plan, w: World, j: Joint, symbol: string, date: B.Key)
    requires Sound(w.store) && MayHappen(p, plan, w, j) && AtMostOneOriginal(w.store, p.user, p.keyOf(symbol, date))
    ensures Sound(Happen(p, plan, w, j).store)
    ensures AtMostOneOriginal(Happen(p, plan, w, j).store, p.user, p.keyOf(symbol, date))
  {
    hide Sound, Enabled, Step, AtMostOneOriginal, B.DeedOf, B.TakeTurn;
    var key := p.keyOf(symbol, date);
    match j
    case Turn(turn, arrives) =>
      if arrives.Some? {
        var a := PostOf(p, turn.symbol, B.DeedOf(plan, w.file, turn).key, arrives.value.0, arrives.value.1);
        StepKeepsSound(w.store, a);
        StepKeepsOneOriginal(w.store, a, p.user, key);
      }
    case Elsewhere(action) =>
      assert BringsOne(action, p.user, p.keyOf(symbol, date));
      StepKeepsSound(w.store, action);
      StepKeepsOneOriginal(w.store, action, p.user, key);
  }

  /** A sequence of joint steps, each of which may happen where it does, and where it ends. */
  ghost predicate Leads(p: Poster, plan: B.Plan, w: World, steps: seq<Joint>, end: World)
    requires Sound(w.store)
    decreases |steps|
  {
    if |steps| == 0 then end == w
    else
      && MayHappen(p, plan, w, steps[0])
      && Sound(Happen(p, plan, w, steps[0]).store)
      && Leads(p, plan, Happen(p, plan, w, steps[0]), steps[1..], end)
  }

  /**
   However often the driver posts a date, whatever posts and answers are lost and whatever else
   happens on the platform, deletes included, submissions start at most one run of the date.
   */
  lemma {:induction false} DateIsStartedOnce(p: Poster, plan: B.Plan, w: World, steps: seq<Joint>, end: World,
                                             symbol: string, date: B.Key)
    requires Sound(w.store) && Leads(p, plan, w, steps, end)
    requires AtMostOneOriginal(w.store, p.user, p.keyOf(symbol, date))
    ensures AtMostOneOriginal(end.store, p.user, p.keyOf(symbol, date))
    decreases |steps|
  {
    if |steps| > 0 {
      hide Sound, MayHappen, Happen, AtMostOneOriginal;
      HappenKeeps(p, plan, w, steps[0], symbol, date);
      DateIsStartedOnce(p, plan, Happen(p, plan, w, steps[0]), steps[1..], end, symbol, date);
    }
  }

  ghost predicate LeadsFromNothing(p: Poster, plan: B.Plan, steps: seq<Joint>, end: World) {
    EmptyIsSound();
    Leads(p, plan, World(B.Fresh(plan), EMPTY), steps, end)
  }

  /** From a fresh plan and empty tables no date of the plan is ever started twice. */
  lemma EveryDateIsStartedOnce(p: Poster, plan: B.Plan, steps: seq<Joint>, end: World, symbol: string, date: B.Key)
    requires LeadsFromNothing(p, plan, steps, end)
    ensures AtMostOneOriginal(end.store, p.user, p.keyOf(symbol, date))
  {
    EmptyIsSound();
    forall run ensures !IsOriginal(EMPTY, run, p.user, p.keyOf(symbol, date)) {}
    assert AtMostOneOriginal(EMPTY, p.user, p.keyOf(symbol, date));
    hide Sound, Leads, AtMostOneOriginal, EMPTY, B.Fresh;
    DateIsStartedOnce(p, plan, World(B.Fresh(plan), EMPTY), steps, end, symbol, date);
  }
}
