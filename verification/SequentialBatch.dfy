/**
 The resumable driver that runs the assessments of each symbol in strict date order.
 */
module SequentialBatch {
  import opened Outcomes

  /** An analysis date in ISO form. */
  type Key = string

  datatype Record = Record(analysisDate: Key, runId: string, status: string)

  datatype TrackStatus = Pending | Active | Completed | Blocked

  datatype Track = Track(status: TrackStatus, assessments: map<Key, Record>)

  const SUCCEEDED := "succeeded"
  const FAILURE_STATUSES: set<string> := {"failed", "cancelled", "needs_attention"}

  /** A run as the platform answers it; the ticker is in upper case. */
  datatype RunAnswer = RunAnswer(id: string, ticker: string, analysisDate: string, status: string)

  /**
   The answers to the one call a visit may make, none where the call raises or answers something
   else, and whether the state file holds the changed state afterwards.
   */
  datatype Answers = Answers(post: Option<seq<RunAnswer>>, get: Option<RunAnswer>, saved: bool)

  predicate HasSucceeded(track: Track, key: Key) {
    key in track.assessments && track.assessments[key].status == SUCCEEDED
  }

  /** The first date that has not succeeded; the number of dates when all have. */
  function Current(track: Track, dates: seq<Key>): (n: nat)
    ensures n <= |dates| && (n < |dates| ==> !HasSucceeded(track, dates[n]))
    ensures forall i :: 0 <= i < n ==> HasSucceeded(track, dates[i])
  {
    if |dates| == 0 || !HasSucceeded(track, dates[0]) then 0 else 1 + Current(track, dates[1..])
  }

  predicate IsIdentified(run: RunAnswer, ticker: string, key: Key) {
    run.ticker == ticker && run.analysisDate == key && run.id != ""
  }

  /** What a visit asked the platform to do. */
  datatype Deed = Nothing | Posted(key: Key) | Polled(key: Key)

  /** A visit leaves a track in the state file, or raises and leaves the file as it was. */
  datatype Visited = Moved(track: Track, deed: Deed) | Raised(deed: Deed)

  /** The platform answers a post with the one run that was asked for. */
  predicate IsAccepted(items: Option<seq<RunAnswer>>, ticker: string, key: Key) {
    items.Some? && |items.value| == 1 && IsIdentified(items.value[0], ticker, key)
  }

  function Submitted(ticker: string, track: Track, key: Key, items: Option<seq<RunAnswer>>, saved: bool): Visited {
    if !IsAccepted(items, ticker, key) || !saved then Raised(Posted(key))
    else
      var run := items.value[0];
      var record := Record(key, run.id, if run.status == "" then "queued" else run.status);
      Moved(Track(Active, track.assessments[key := record]), Posted(key))
  }

  /** Only a changed status is saved. */
  function Observed(ticker: string, track: Track, key: Key, isLast: bool, answer: Option<RunAnswer>,
                    saved: bool): Visited
    requires key in track.assessments
  {
    if answer.None? || !IsIdentified(answer.value, ticker, key) then Raised(Polled(key))
    else
      var status := answer.value.status;
      var assessments := track.assessments[key := track.assessments[key].(status := status)];
      var next := if status in FAILURE_STATUSES then Blocked
                  else if status == SUCCEEDED then if isLast then Completed else Pending
                  else Active;
      var changed := status != track.assessments[key].status || next != Active;
      if changed && !saved then Raised(Polled(key)) else Moved(Track(next, assessments), Polled(key))
  }

  /** One symbol's turn in `reconcile_once`. */
  function Visit(ticker: string, track: Track, dates: seq<Key>, answers: Answers): Visited {
    if track.status == Blocked || track.status == Completed then Moved(track, Nothing)
    else
      var n := Current(track, dates);
      if n == |dates| then
        if answers.saved then Moved(track.(status := Completed), Nothing) else Raised(Nothing)
      else if dates[n] !in track.assessments then Submitted(ticker, track, dates[n], answers.post, answers.saved)
      else Observed(ticker, track, dates[n], n == |dates| - 1, answers.get, answers.saved)
  }

  // ---------------------------------------------------------------------
  // What every track satisfies
  // ---------------------------------------------------------------------

  ghost predicate AreDistinct(dates: seq<Key>) {
    forall i, j :: 0 <= i < j < |dates| ==> dates[i] != dates[j]
  }

  /** The recorded dates are the first `n`, all but the last of them succeeded. */
  ghost predicate IsPrefix(track: Track, dates: seq<Key>, n: nat) {
    && n <= |dates|
    && (forall key :: key in track.assessments ==> key in dates)
    && (forall i :: 0 <= i < |dates| ==> (dates[i] in track.assessments <==> i < n))
    && (forall i :: 0 <= i < n - 1 ==> HasSucceeded(track, dates[i]))
    && (forall i :: 0 <= i < n ==>
          track.assessments[dates[i]].analysisDate == dates[i] && track.assessments[dates[i]].runId != "")
  }

  ghost predicate StatusFits(track: Track, dates: seq<Key>, n: nat)
    requires IsPrefix(track, dates, n)
  {
    match track.status
    case Pending => n > 0 ==> HasSucceeded(track, dates[n - 1])
    case Active => n > 0
    case Completed => n == |dates| && (n > 0 ==> HasSucceeded(track, dates[n - 1]))
    case Blocked => n > 0 && track.assessments[dates[n - 1]].status in FAILURE_STATUSES
  }

  ghost predicate Sound(track: Track, dates: seq<Key>) {
    exists n: nat :: IsPrefix(track, dates, n) && StatusFits(track, dates, n)
  }

  const FRESH := Track(Pending, map[])

  lemma FreshIsSound(dates: seq<Key>)
    ensures Sound(FRESH, dates)
  {
    assert IsPrefix(FRESH, dates, 0) && StatusFits(FRESH, dates, 0);
  }

  lemma LastOnly(track: Track, dates: seq<Key>, n: nat, c: nat)
    requires IsPrefix(track, dates, n) && c < n && !HasSucceeded(track, dates[c])
    ensures c == n - 1
  {
  }

  /** The current date is the last recorded one or the one after it. */
  lemma CurrentIsNext(track: Track, dates: seq<Key>, n: nat)
    requires IsPrefix(track, dates, n)
    ensures var c := Current(track, dates);
            c == n || (c == n - 1 && !HasSucceeded(track, dates[n - 1]))
  {
    var c := Current(track, dates);
    assert forall i :: 0 <= i < |dates| && HasSucceeded(track, dates[i]) ==> i < n;
    if c > 0 { assert HasSucceeded(track, dates[c - 1]); }
    if n > 0 && c < n { LastOnly(track, dates, n, c); }
  }

  lemma SubmittedIsSound(ticker: string, track: Track, dates: seq<Key>, n: nat, items: Option<seq<RunAnswer>>,
                         saved: bool)
    requires AreDistinct(dates) && IsPrefix(track, dates, n) && n < |dates|
             && (n > 0 ==> HasSucceeded(track, dates[n - 1]))
    ensures var v := Submitted(ticker, track, dates[n], items, saved); v.Moved? ==> Sound(v.track, dates)
  {
    var v := Submitted(ticker, track, dates[n], items, saved);
    if v.Moved? {
      assert IsPrefix(v.track, dates, n + 1) && StatusFits(v.track, dates, n + 1);
    }
  }

  lemma ObservedIsSound(ticker: string, track: Track, dates: seq<Key>, n: nat, answer: Option<RunAnswer>, saved: bool)
    requires AreDistinct(dates) && IsPrefix(track, dates, n) && n > 0
    ensures var v := Observed(ticker, track, dates[n - 1], n == |dates|, answer, saved);
            v.Moved? ==> Sound(v.track, dates)
  {
    var v := Observed(ticker, track, dates[n - 1], n == |dates|, answer, saved);
    if v.Moved? {
      assert IsPrefix(v.track, dates, n) && StatusFits(v.track, dates, n);
    }
  }

  /** Whatever the platform answers, a visit keeps the order of dates and the meaning of the status. */
  lemma VisitKeepsSound(ticker: string, track: Track, dates: seq<Key>, answers: Answers)
    requires AreDistinct(dates) && Sound(track, dates)
    ensures var v := Visit(ticker, track, dates, answers); v.Moved? ==> Sound(v.track, dates)
  {
    hide Submitted, Observed;
    if track.status != Blocked && track.status != Completed {
      var n: nat :| IsPrefix(track, dates, n) && StatusFits(track, dates, n);
      CurrentIsNext(track, dates, n);
      if Current(track, dates) == n {
        if n < |dates| {
          if n > 0 { assert HasSucceeded(track, dates[n - 1]); }
          SubmittedIsSound(ticker, track, dates, n, answers.post, answers.saved);
        } else {
          assert IsPrefix(track.(status := Completed), dates, n) && StatusFits(track.(status := Completed), dates, n);
        }
      } else {
        ObservedIsSound(ticker, track, dates, n, answers.get, answers.saved);
      }
    }
  }

  /** A date is posted only while it has no record, after all dates before it succeeded. */
  lemma PostsInOrder(ticker: string, track: Track, dates: seq<Key>, answers: Answers)
    requires Visit(ticker, track, dates, answers).deed.Posted?
    ensures var key := Visit(ticker, track, dates, answers).deed.key;
            && key !in track.assessments && track.status != Blocked && track.status != Completed
            && exists n ::
                 0 <= n < |dates| && dates[n] == key && forall i :: 0 <= i < n ==> HasSucceeded(track, dates[i])
  {
    assert dates[Current(track, dates)] == Visit(ticker, track, dates, answers).deed.key;
  }

  /** The first date that has not succeeded, on a track that goes on. */
  ghost predicate IsNext(track: Track, dates: seq<Key>, n: nat) {
    && track.status != Blocked && track.status != Completed
    && n < |dates| && !HasSucceeded(track, dates[n]) && forall i :: 0 <= i < n ==> HasSucceeded(track, dates[i])
  }

  lemma {:induction false} NextIsCurrent(track: Track, dates: seq<Key>, n: nat)
    requires n < |dates| && !HasSucceeded(track, dates[n]) && forall i :: 0 <= i < n ==> HasSucceeded(track, dates[i])
    ensures Current(track, dates) == n
  {
    if n > 0 {
      assert HasSucceeded(track, dates[0]);
      NextIsCurrent(track, dates[1..], n - 1);
    }
  }

  predicate IsFailure(status: string) {
    status == "failed" || status == "cancelled" || status == "needs_attention"
  }

  /**
   A next date with a record is polled. The answer becomes the record's status: a failure blocks the
   track, a success completes it on the last date and frees it for the next one before, and anything
   else leaves it active. It raises on no answer, on the answer of another run, and when a new
   status, a failure or a success is not saved.
   */
  lemma PollDecides(ticker: string, track: Track, dates: seq<Key>, answers: Answers, n: nat)
    requires IsNext(track, dates, n) && dates[n] in track.assessments
    ensures var v, record := Visit(ticker, track, dates, answers), track.assessments[dates[n]];
            && v.deed == Polled(dates[n])
            && (v.Raised? <==>
                  answers.get.None?
                  || var run := answers.get.value;
                     || run.ticker != ticker || run.analysisDate != dates[n] || run.id == ""
                     || (!answers.saved
                         && (run.status != record.status || IsFailure(run.status) || run.status == "succeeded")))
            && (v.Moved? ==>
                  var status := answers.get.value.status;
                  && v.track.assessments == track.assessments[dates[n] := record.(status := status)]
                  && (v.track.status == Blocked <==> IsFailure(status))
                  && (v.track.status == Completed <==> status == "succeeded" && n == |dates| - 1)
                  && (v.track.status == Pending <==> status == "succeeded" && n < |dates| - 1)
                  && (v.track.status == Active <==> !IsFailure(status) && status != "succeeded"))
  {
    NextIsCurrent(track, dates, n);
    assert |"succeeded"| == 9 && |"failed"| == 6 && |"needs_attention"| == 15;
    assert "succeeded"[0] == 's' && "cancelled"[0] == 'c';
  }

  /**
   A next date without a record is posted, and exactly the one run that was asked for is put on
   record; any other answer, or one that is not saved, raises.
   */
  lemma PostDecides(ticker: string, track: Track, dates: seq<Key>, answers: Answers, n: nat)
    requires IsNext(track, dates, n) && dates[n] !in track.assessments
    ensures var v := Visit(ticker, track, dates, answers);
            && v.deed == Posted(dates[n])
            && (v.Moved? <==>
                  answers.saved && answers.post.Some? && |answers.post.value| == 1
                  && var run := answers.post.value[0];
                     run.ticker == ticker && run.analysisDate == dates[n] && run.id != "")
            && (v.Moved? ==>
                  var run := answers.post.value[0];
                  var record := Record(dates[n], run.id, if run.status == "" then "queued" else run.status);
                  v.track == Track(Active, track.assessments[dates[n] := record]))
  {
    NextIsCurrent(track, dates, n);
  }

  /** Where no date is next nothing is asked; a track whose dates all succeeded is completed once that is saved. */
  lemma RestAsksNothing(ticker: string, track: Track, dates: seq<Key>, answers: Answers)
    requires forall n: nat :: !IsNext(track, dates, n)
    ensures var v := Visit(ticker, track, dates, answers);
            && v.deed == Nothing
            && (track.status == Blocked || track.status == Completed ==> v == Moved(track, Nothing))
            && (track.status != Blocked && track.status != Completed ==>
                  (v.Raised? <==> !answers.saved) && (v.Moved? ==> v.track == Track(Completed, track.assessments)))
  {
    var n := Current(track, dates);
    assert !IsNext(track, dates, n);
  }

  /** Records stay, successes stay, and a blocked or completed track never moves again. */
  lemma VisitOnlyAdds(ticker: string, track: Track, dates: seq<Key>, answers: Answers, key: Key)
    requires Visit(ticker, track, dates, answers).Moved?
    ensures var u := Visit(ticker, track, dates, answers).track;
            && (key in track.assessments ==>
                  key in u.assessments && u.assessments[key].runId == track.assessments[key].runId)
            && (HasSucceeded(track, key) ==> HasSucceeded(u, key))
            && (track.status == Blocked || track.status == Completed ==> u == track)
  {
  }

  // ---------------------------------------------------------------------
  // Whole runs of the driver
  // ---------------------------------------------------------------------

  datatype Plan = Plan(symbols: seq<string>, dates: seq<Key>)

  type Tracks = map<string, Track>

  datatype Turn = Turn(symbol: string, answers: Answers)

  function Fresh(plan: Plan): Tracks {
    map symbol | symbol in plan.symbols :: FRESH
  }

  /** The tracks in the state file: a raise ends the program and leaves them, and the restart reads them again. */
  function TakeTurn(plan: Plan, tracks: Tracks, turn: Turn): (r: Tracks)
    ensures r.Keys == tracks.Keys
  {
    if turn.symbol !in tracks then tracks
    else
      match Visit(turn.symbol, tracks[turn.symbol], plan.dates, turn.answers)
      case Moved(track, _) => tracks[turn.symbol := track]
      case Raised(_) => tracks
  }

  function After(plan: Plan, tracks: Tracks, turns: seq<Turn>): (r: Tracks)
    ensures r.Keys == tracks.Keys
  {
    if |turns| == 0 then tracks else TakeTurn(plan, After(plan, tracks, turns[..|turns| - 1]), turns[|turns| - 1])
  }

  ghost predicate AllSound(plan: Plan, tracks: Tracks) {
    && (forall symbol :: symbol in tracks <==> symbol in plan.symbols)
    && forall symbol :: symbol in tracks ==> Sound(tracks[symbol], plan.dates)
  }

  lemma TurnKeepsAllSound(plan: Plan, tracks: Tracks, turn: Turn)
    requires AreDistinct(plan.dates) && AllSound(plan, tracks)
    ensures AllSound(plan, TakeTurn(plan, tracks, turn))
  {
    hide Sound, Visit;
    if turn.symbol in tracks {
      VisitKeepsSound(turn.symbol, tracks[turn.symbol], plan.dates, turn.answers);
    }
  }

  /** From a fresh plan, under every sequence of answers, raises and restarts, all tracks stay sound. */
  lemma {:induction false} DriverStaysSound(plan: Plan, turns: seq<Turn>)
    requires AreDistinct(plan.dates)
    ensures AllSound(plan, After(plan, Fresh(plan), turns))
  {
    if |turns| == 0 {
      FreshIsSound(plan.dates);
    } else {
      hide AllSound;
      DriverStaysSound(plan, turns[..|turns| - 1]);
      TurnKeepsAllSound(plan, After(plan, Fresh(plan), turns[..|turns| - 1]), turns[|turns| - 1]);
    }
  }

  function DeedOf(plan: Plan, tracks: Tracks, turn: Turn): Deed {
    if turn.symbol in tracks then Visit(turn.symbol, tracks[turn.symbol], plan.dates, turn.answers).deed else Nothing
  }

  lemma {:induction false} RecordsStay(plan: Plan, tracks: Tracks, turns: seq<Turn>, symbol: string, key: Key)
    requires symbol in tracks && key in tracks[symbol].assessments
    ensures var u := After(plan, tracks, turns);
            symbol in u && key in u[symbol].assessments
              && u[symbol].assessments[key].runId == tracks[symbol].assessments[key].runId
  {
    if |turns| > 0 {
      hide Visit;
      RecordsStay(plan, tracks, turns[..|turns| - 1], symbol, key);
      var before, turn := After(plan, tracks, turns[..|turns| - 1]), turns[|turns| - 1];
      if turn.symbol == symbol && Visit(symbol, before[symbol], plan.dates, turn.answers).Moved? {
        VisitOnlyAdds(symbol, before[symbol], plan.dates, turn.answers, key);
      }
    }
  }

  /** Once a date has a run on record it is never posted again, and its run stays the same. */
  lemma RecordedDateIsNotPostedAgain(plan: Plan, tracks: Tracks, turns: seq<Turn>, again: Turn, key: Key)
    requires again.symbol in tracks && key in tracks[again.symbol].assessments
    ensures DeedOf(plan, After(plan, tracks, turns), again) != Posted(key)
  {
    hide Visit;
    RecordsStay(plan, tracks, turns, again.symbol, key);
    var u := After(plan, tracks, turns);
    if DeedOf(plan, u, again).Posted? {
      PostsInOrder(again.symbol, u[again.symbol], plan.dates, again.answers);
    }
  }

  /** A post reaches the state file: it is accepted and its record is saved. */
  predicate IsRecorded(turn: Turn, key: Key) {
    turn.answers.saved && IsAccepted(turn.answers.post, turn.symbol, key)
  }

  /** A post puts its date on record when it is accepted and saved, and changes nothing else. */
  lemma PostIsRecordedWhenSaved(plan: Plan, tracks: Tracks, turn: Turn, key: Key)
    requires DeedOf(plan, tracks, turn) == Posted(key)
    ensures turn.symbol in tracks
    ensures if IsRecorded(turn, key)
            then key in TakeTurn(plan, tracks, turn)[turn.symbol].assessments
            else TakeTurn(plan, tracks, turn) == tracks
  {
  }

  /** Some continuation posts the date of the symbol again. */
  ghost predicate IsPostedAgain(plan: Plan, tracks: Tracks, symbol: string, key: Key) {
    exists turns, again: Turn ::
      again.symbol == symbol && DeedOf(plan, After(plan, tracks, turns), again) == Posted(key)
  }

  /** A posted date can be posted again if and only if the post was not accepted or its record not saved. */
  lemma PostRepeatsExactlyWhenNotRecorded(plan: Plan, tracks: Tracks, turn: Turn, key: Key)
    requires DeedOf(plan, tracks, turn) == Posted(key)
    ensures IsPostedAgain(plan, TakeTurn(plan, tracks, turn), turn.symbol, key) <==>
            !IsRecorded(turn, key)
  {
    PostIsRecordedWhenSaved(plan, tracks, turn, key);
    hide Visit, TakeTurn;
    var next := TakeTurn(plan, tracks, turn);
    if IsRecorded(turn, key) {
      forall turns, again: Turn | again.symbol == turn.symbol
        ensures DeedOf(plan, After(plan, next, turns), again) != Posted(key)
      {
        RecordedDateIsNotPostedAgain(plan, next, turns, again, key);
      }
    } else {
      assert After(plan, next, []) == tracks;
    }
  }

  /** A post that got no answer: the next pass over the fresh plan posts the same date again. */
  lemma LostPostIsRepeated()
    ensures var plan, lost := Plan(["AAPL"], ["2024-01-02"]), Turn("AAPL", Answers(None, None, true));
            && DeedOf(plan, Fresh(plan), lost) == Posted("2024-01-02")
            && DeedOf(plan, TakeTurn(plan, Fresh(plan), lost), lost) == Posted("2024-01-02")
            && IsPostedAgain(plan, TakeTurn(plan, Fresh(plan), lost), "AAPL", "2024-01-02")
  {
    var plan, lost := Plan(["AAPL"], ["2024-01-02"]), Turn("AAPL", Answers(None, None, true));
    assert Visit("AAPL", FRESH, plan.dates, lost.answers) == Raised(Posted("2024-01-02"));
    assert "AAPL" in plan.symbols;
    PostRepeatsExactlyWhenNotRecorded(plan, Fresh(plan), lost, "2024-01-02");
  }

  /** A post that was accepted but not saved is repeated after the restart. */
  lemma UnsavedPostIsRepeated()
    ensures var plan := Plan(["AAPL"], ["2024-01-02"]);
            var unsaved := Turn("AAPL", Answers(Some([RunAnswer("r1", "AAPL", "2024-01-02", "queued")]), None, false));
            && IsAccepted(unsaved.answers.post, "AAPL", "2024-01-02")
            && DeedOf(plan, Fresh(plan), unsaved) == Posted("2024-01-02")
            && IsPostedAgain(plan, TakeTurn(plan, Fresh(plan), unsaved), "AAPL", "2024-01-02")
  {
    var plan := Plan(["AAPL"], ["2024-01-02"]);
    var unsaved := Turn("AAPL", Answers(Some([RunAnswer("r1", "AAPL", "2024-01-02", "queued")]), None, false));
    assert Visit("AAPL", FRESH, plan.dates, unsaved.answers) == Raised(Posted("2024-01-02"));
    assert "AAPL" in plan.symbols;
    PostRepeatsExactlyWhenNotRecorded(plan, Fresh(plan), unsaved, "2024-01-02");
  }

  /** A blocked symbol stays as it is and asks the platform for nothing more. */
  lemma {:induction false} BlockedStaysBlocked(plan: Plan, tracks: Tracks, turns: seq<Turn>, symbol: string)
    requires symbol in tracks && (tracks[symbol].status == Blocked || tracks[symbol].status == Completed)
    ensures var u := After(plan, tracks, turns);
            symbol in u && u[symbol] == tracks[symbol]
              && forall answers :: DeedOf(plan, u, Turn(symbol, answers)) == Nothing
  {
    if |turns| > 0 {
      BlockedStaysBlocked(plan, tracks, turns[..|turns| - 1], symbol);
    }
  }

  /** Completed means that every date succeeded. */
  lemma CompletedMeansAllSucceeded(track: Track, dates: seq<Key>)
    requires Sound(track, dates) && track.status == Completed
    ensures forall i :: 0 <= i < |dates| ==> HasSucceeded(track, dates[i])
  {
    var n: nat :| IsPrefix(track, dates, n) && StatusFits(track, dates, n);
    forall i | 0 <= i < |dates| ensures HasSucceeded(track, dates[i]) {
      assert i < n - 1 || i == n - 1;
    }
  }

  // ---------------------------------------------------------------------
  // The check of a state
  // ---------------------------------------------------------------------

  /** What `validate_state` demands of a track. */
  ghost predicate IsValid(track: Track, dates: seq<Key>) {
    && (forall key :: key in track.assessments ==> key in dates)
    && forall i :: 0 <= i < |dates| && dates[i] in track.assessments ==>
         && track.assessments[dates[i]].analysisDate == dates[i] && track.assessments[dates[i]].runId != ""
         && forall j :: 0 <= j < i ==> HasSucceeded(track, dates[j])
  }

  method ValidateTrack(track: Track, dates: seq<Key>) returns (valid: bool)
    ensures valid <==> IsValid(track, dates)
  {
    if exists key :: key in track.assessments && key !in dates { return false; }
    var priorSucceeded := true;
    for i := 0 to |dates|
      invariant priorSucceeded <==> forall j :: 0 <= j < i ==> HasSucceeded(track, dates[j])
      invariant forall k :: 0 <= k < i && dates[k] in track.assessments ==>
                  && track.assessments[dates[k]].analysisDate == dates[k] && track.assessments[dates[k]].runId != ""
                  && forall j :: 0 <= j < k ==> HasSucceeded(track, dates[j])
    {
      if dates[i] !in track.assessments {
        priorSucceeded := false;
        continue;
      }
      if !priorSucceeded { return false; }
      var record := track.assessments[dates[i]];
      if record.analysisDate != dates[i] || record.runId == "" { return false; }
      priorSucceeded := record.status == SUCCEEDED;
    }
    return true;
  }

  /** The check accepts exactly the tracks whose records are a prefix of the dates with all but the last succeeded. */
  lemma ValidIsPrefix(track: Track, dates: seq<Key>)
    ensures IsValid(track, dates) <==> exists n: nat :: IsPrefix(track, dates, n)
  {
    if IsValid(track, dates) {
      var n := 0;
      while n < |dates| && dates[n] in track.assessments
        invariant n <= |dates| && forall i :: 0 <= i < n ==> dates[i] in track.assessments
      {
        n := n + 1;
      }
      forall i | n <= i < |dates| ensures dates[i] !in track.assessments {
        assert dates[i] in track.assessments && i > n ==> HasSucceeded(track, dates[n]);
      }
      if n > 0 { assert dates[n - 1] in track.assessments; }
      assert IsPrefix(track, dates, n);
    }
    if exists n: nat :: IsPrefix(track, dates, n) {
      var n: nat :| IsPrefix(track, dates, n);
      forall i | 0 <= i < |dates| && dates[i] in track.assessments
        ensures forall j :: 0 <= j < i ==> HasSucceeded(track, dates[j])
      {
        assert i < n;
      }
    }
  }

  // ---------------------------------------------------------------------
  // The summary
  // ---------------------------------------------------------------------

  function CountOf(symbols: seq<string>, tracks: Tracks, status: TrackStatus): nat
    requires forall symbol :: symbol in symbols ==> symbol in tracks
  {
    if |symbols| == 0 then 0
    else CountOf(symbols[1..], tracks, status) + if tracks[symbols[0]].status == status then 1 else 0
  }

  /** The four counts of the summary add up to the number of symbols. */
  lemma {:induction false} CountsAddUp(symbols: seq<string>, tracks: Tracks)
    requires forall symbol :: symbol in symbols ==> symbol in tracks
    ensures CountOf(symbols, tracks, Pending) + CountOf(symbols, tracks, Active)
            + CountOf(symbols, tracks, Completed) + CountOf(symbols, tracks, Blocked) == |symbols|
  {
    if |symbols| > 0 { CountsAddUp(symbols[1..], tracks); }
  }

  lemma {:induction false} FullCountMeansAll(symbols: seq<string>, tracks: Tracks, symbol: string)
    requires forall s :: s in symbols ==> s in tracks
    requires CountOf(symbols, tracks, Completed) == |symbols| && symbol in symbols
    ensures tracks[symbol].status == Completed
  {
    CountBound(symbols[1..], tracks, Completed);
    if symbol != symbols[0] {
      assert symbol in symbols[1..];
      FullCountMeansAll(symbols[1..], tracks, symbol);
    }
  }

  lemma {:induction false} CountBound(symbols: seq<string>, tracks: Tracks, status: TrackStatus)
    requires forall symbol :: symbol in symbols ==> symbol in tracks
    ensures CountOf(symbols, tracks, status) <= |symbols|
  {
    if |symbols| > 0 { CountBound(symbols[1..], tracks, status); }
  }

  /** `run_plan` returns without an error only when every date of every symbol succeeded. */
  lemma DoneMeansAllSucceeded(plan: Plan, turns: seq<Turn>, symbol: string, i: nat)
    requires AreDistinct(plan.dates) && symbol in plan.symbols && i < |plan.dates|
    requires var tracks := After(plan, Fresh(plan), turns);
             && CountOf(plan.symbols, tracks, Completed) + CountOf(plan.symbols, tracks, Blocked) == |plan.symbols|
             && CountOf(plan.symbols, tracks, Blocked) == 0
    ensures HasSucceeded(After(plan, Fresh(plan), turns)[symbol], plan.dates[i])
  {
    DriverStaysSound(plan, turns);
    var tracks := After(plan, Fresh(plan), turns);
    FullCountMeansAll(plan.symbols, tracks, symbol);
    CompletedMeansAllSucceeded(tracks[symbol], plan.dates);
  }

  // ---------------------------------------------------------------------
  // One pass
  // ---------------------------------------------------------------------

  /** The program: its state in memory and the state file it saves to. */
  class Driver {
    const plan: Plan
    var tracks: Tracks
    var file: Tracks

    constructor (plan: Plan)
      requires AreDistinct(plan.dates)
      ensures this.plan == plan && tracks == file == Fresh(plan) && AllSound(plan, file)
    {
      this.plan := plan;
      tracks := map symbol | symbol in plan.symbols :: FRESH;
      file := map symbol | symbol in plan.symbols :: FRESH;
      FreshIsSound(plan.dates);
    }

    /** A start reads the state file. */
    method Restart()
      modifies this`tracks
      ensures tracks == file
    {
      tracks := file;
    }

    /** `_save_progress`: writes the whole state, or raises and leaves the file as it was. */
    method SaveProgress(saved: bool) returns (goOn: bool)
      modifies this`file
      ensures goOn == saved && file == if saved then tracks else old(file)
    {
      if saved { file := tracks; }
      return saved;
    }

    /** One symbol's turn; answers whether the pass may go on. */
    method VisitSymbol(symbol: string, answers: Answers) returns (goOn: bool)
      requires symbol in tracks && tracks == file && Sound(tracks[symbol], plan.dates)
      modifies this`tracks, this`file
      ensures file == TakeTurn(plan, old(file), Turn(symbol, answers))
      ensures goOn <==> Visit(symbol, old(file)[symbol], plan.dates, answers).Moved?
      ensures goOn ==> tracks == file
    {
      var track := tracks[symbol];
      if track.status == Blocked || track.status == Completed {
        assert tracks[symbol := track] == tracks;
        return true;
      }
      var n := Current(track, plan.dates);
      if n == |plan.dates| {
        tracks := tracks[symbol := track.(status := Completed)];
        goOn := SaveProgress(answers.saved);
        return;
      }
      var key := plan.dates[n];
      if key !in track.assessments {
        if answers.post.None? || |answers.post.value| != 1 { return false; }
        var run := answers.post.value[0];
        if !IsIdentified(run, symbol, key) { return false; }
        var record := Record(key, run.id, if run.status == "" then "queued" else run.status);
        tracks := tracks[symbol := Track(Active, track.assessments[key := record])];
        goOn := SaveProgress(answers.saved);
        return;
      }
      if answers.get.None? || !IsIdentified(answers.get.value, symbol, key) { return false; }
      var status := answers.get.value.status;
      var changed := status != track.assessments[key].status;
      OpenRecordIsActive(track, plan.dates);
      track := track.(assessments := track.assessments[key := track.assessments[key].(status := status)]);
      if status in FAILURE_STATUSES {
        track := track.(status := Blocked);
        changed := true;
      } else if status == SUCCEEDED {
        track := track.(status := if n == |plan.dates| - 1 then Completed else Pending);
        changed := true;
      } else {
        track := track.(status := Active);
      }
      tracks := tracks[symbol := track];
      goOn := true;
      if changed {
        goOn := SaveProgress(answers.saved);
      } else {
        assert tracks == old(tracks) by { SameRecord(old(tracks)[symbol], key, status); }
      }
    }

    /**
     `reconcile_once`: every symbol in turn until a call or a save raises; the state check behind
     the loop never fails.
     */
    method ReconcileOnce(answers: string -> Answers) returns (raised: bool)
      requires AreDistinct(plan.dates) && AllSound(plan, file) && tracks == file
      modifies this`tracks, this`file
      ensures AllSound(plan, file) && (!raised ==> tracks == file)
      ensures exists n :: 0 <= n <= |plan.symbols| && (!raised ==> n == |plan.symbols|)
                && file == After(plan, old(file), TurnsOf(plan.symbols[..n], answers))
    {
      hide Sound, Visit, TakeTurn, IsValid;
      var k := 0;
      while k < |plan.symbols|
        invariant 0 <= k <= |plan.symbols| && AllSound(plan, file) && tracks == file
        invariant file == After(plan, old(file), TurnsOf(plan.symbols[..k], answers))
      {
        var symbol := plan.symbols[k];
        ghost var turn := Turn(symbol, answers(symbol));
        ghost var turns := TurnsOf(plan.symbols[..k], answers);
        assert TurnsOf(plan.symbols[..k + 1], answers) == turns + [turn];
        assert (turns + [turn])[..|turns|] == turns;
        TurnKeepsAllSound(plan, file, turn);
        var goOn := VisitSymbol(symbol, answers(symbol));
        k := k + 1;
        if !goOn { return true; }
      }
      var i := 0;
      while i < |plan.symbols|
        invariant 0 <= i <= |plan.symbols| && AllSound(plan, file) && tracks == file
        invariant file == After(plan, old(file), TurnsOf(plan.symbols[..k], answers))
      {
        var symbol := plan.symbols[i];
        SoundIsValid(tracks[symbol], plan.dates);
        var valid := ValidateTrack(tracks[symbol], plan.dates);
        assert valid;
        i := i + 1;
      }
      return false;
    }
  }

  /** A track whose current date has a record waits for that run. */
  lemma OpenRecordIsActive(track: Track, dates: seq<Key>)
    requires Sound(track, dates) && track.status != Blocked && track.status != Completed
    ensures var n := Current(track, dates); n < |dates| && dates[n] in track.assessments ==> track.status == Active
  {
    var n: nat :| IsPrefix(track, dates, n) && StatusFits(track, dates, n);
    CurrentIsNext(track, dates, n);
  }

  /** Observing the status on record again changes nothing. */
  lemma SameRecord(track: Track, key: Key, status: string)
    requires key in track.assessments && track.assessments[key].status == status
    ensures track.assessments[key := track.assessments[key].(status := status)] == track.assessments
  {
  }

  function TurnsOf(symbols: seq<string>, answers: string -> Answers): seq<Turn> {
    seq(|symbols|, i requires 0 <= i < |symbols| => Turn(symbols[i], answers(symbols[i])))
  }

  lemma SoundIsValid(track: Track, dates: seq<Key>)
    requires Sound(track, dates)
    ensures IsValid(track, dates)
  {
    ValidIsPrefix(track, dates);
  }
}
