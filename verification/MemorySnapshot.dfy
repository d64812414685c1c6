/**
 The memory snapshot of a run: which validated past assessments of the same ticker it
 may look back on.
 */
module MemorySnapshot {
  import opened Outcomes
  import opened Sorting

  type Date = int

  /** `runId` is the text of the UUID, the form in which runs are compared and ordered. */
  datatype Candidate<T> = Candidate(runId: string, ticker: string, analysisDate: Date, exitSession: Date, horizon: nat,
      content: T)

  datatype Mode = Independent | Historical

  predicate IsEligible<T>(c: Candidate<T>, ticker: string, analysisDate: Date) {
    c.ticker == ticker && c.analysisDate < analysisDate && c.exitSession < analysisDate
  }

  predicate RunLe<T>(a: Candidate<T>, b: Candidate<T>) {
    a.analysisDate < b.analysisDate || (a.analysisDate == b.analysisDate && TextLe(a.runId, b.runId))
  }

  /** The sort key: date, run, horizon. */
  predicate KeyLe<T>(a: Candidate<T>, b: Candidate<T>) {
    RunLe(a, b) && (a.analysisDate == b.analysisDate && a.runId == b.runId ==> a.horizon <= b.horizon)
  }

  function LatestFirst<T>(candidates: seq<Candidate<T>>): seq<Candidate<T>> {
    Sort(candidates, (a, b) => KeyLe(b, a))
  }

  predicate HasRun<T>(s: seq<Candidate<T>>, runId: string) {
    exists i :: 0 <= i < |s| && s[i].runId == runId
  }

  /** The first candidate of each run. */
  function FirstOfRuns<T>(s: seq<Candidate<T>>): seq<Candidate<T>> {
    if |s| == 0 then []
    else
      var kept := FirstOfRuns(s[..|s| - 1]);
      if HasRun(kept, s[|s| - 1].runId) then kept else kept + [s[|s| - 1]]
  }

  function Take<T>(s: seq<T>, limit: nat): seq<T> {
    if |s| > limit then s[..limit] else s
  }

  function Ranked<T>(candidates: seq<Candidate<T>>, ticker: string, analysisDate: Date): seq<Candidate<T>> {
    LatestFirst(Select(candidates, c => IsEligible(c, ticker, analysisDate)))
  }

  function Selection<T>(candidates: seq<Candidate<T>>, ticker: string, analysisDate: Date,
                        limit: nat): seq<Candidate<T>> {
    Sort(Take(FirstOfRuns(Ranked(candidates, ticker, analysisDate)), limit), (a, b) => RunLe(a, b))
  }

  /** The runs of the snapshot's entries, oldest first. */
  function Snapshot<T>(mode: Mode, ticker: string, analysisDate: Date, candidates: seq<Candidate<T>>, limit: int)
    : Result<seq<Candidate<T>>, string>
  {
    if limit < 1 then Err("memory entry limit must be positive")
    else if mode == Independent then Ok([])
    else Ok(Selection(candidates, ticker, analysisDate, limit))
  }

  // ---------------------------------------------------------------------
  // Orders
  // ---------------------------------------------------------------------

  lemma RunOrder<T(!new)>()
    ensures IsOrder((a: Candidate<T>, b: Candidate<T>) => RunLe(a, b))
  {
    hide TextLe;
    forall x: Candidate<T>, y: Candidate<T> ensures RunLe(x, y) || RunLe(y, x) {
      TextLeTotal(x.runId, y.runId);
    }
    forall x: Candidate<T>, y: Candidate<T>, z: Candidate<T> | RunLe(x, y) && RunLe(y, z) ensures RunLe(x, z) {
      if TextLe(x.runId, y.runId) && TextLe(y.runId, z.runId) { TextLeTransitive(x.runId, y.runId, z.runId); }
    }
  }

  lemma KeyOrder<T(!new)>()
    ensures IsOrder((a: Candidate<T>, b: Candidate<T>) => KeyLe(b, a))
  {
    hide TextLe;
    forall x: Candidate<T>, y: Candidate<T> ensures KeyLe(x, y) || KeyLe(y, x) {
      TextLeTotal(x.runId, y.runId);
    }
    forall x: Candidate<T>, y: Candidate<T>, z: Candidate<T> | KeyLe(x, y) && KeyLe(y, z) ensures KeyLe(x, z) {
      KeyLeTransitive(x, y, z);
    }
  }

  lemma KeyLeTransitive<T>(x: Candidate<T>, y: Candidate<T>, z: Candidate<T>)
    requires KeyLe(x, y) && KeyLe(y, z)
    ensures KeyLe(x, z)
  {
    hide TextLe;
    if TextLe(x.runId, y.runId) && TextLe(y.runId, z.runId) { TextLeTransitive(x.runId, y.runId, z.runId); }
    TextLeTotal(x.runId, y.runId);
    TextLeTotal(y.runId, z.runId);
  }

  // ---------------------------------------------------------------------
  // The first of each run
  // ---------------------------------------------------------------------

  /** A candidate of the same run that ranks no lower is kept. */
  ghost predicate StandsIn<T>(kept: seq<Candidate<T>>, c: Candidate<T>) {
    exists j :: 0 <= j < |kept| && kept[j].runId == c.runId && KeyLe(c, kept[j])
  }

  ghost predicate Represents<T>(kept: seq<Candidate<T>>, s: seq<Candidate<T>>) {
    forall k :: 0 <= k < |s| ==> StandsIn(kept, s[k])
  }

  ghost predicate RunsDiffer<T>(s: seq<Candidate<T>>) {
    forall i, j :: 0 <= i < j < |s| ==> s[i].runId != s[j].runId
  }

  ghost predicate Descending<T>(s: seq<Candidate<T>>) {
    forall i, j :: 0 <= i < j < |s| ==> KeyLe(s[j], s[i])
  }

  lemma {:induction false} FirstOfRunsFrom<T>(s: seq<Candidate<T>>)
    ensures forall j :: 0 <= j < |FirstOfRuns(s)| ==> FirstOfRuns(s)[j] in s
    ensures RunsDiffer(FirstOfRuns(s))
  {
    if |s| > 0 {
      FirstOfRunsFrom(s[..|s| - 1]);
      assert s == s[..|s| - 1] + [s[|s| - 1]];
    }
  }

  lemma KeyLeReflexive<T>(c: Candidate<T>)
    ensures KeyLe(c, c)
  {
    TextLeTotal(c.runId, c.runId);
  }

  lemma StandsInLonger<T>(kept: seq<Candidate<T>>, now: seq<Candidate<T>>, c: Candidate<T>)
    requires StandsIn(kept, c) && kept <= now
    ensures StandsIn(now, c)
  {
    var j :| 0 <= j < |kept| && kept[j].runId == c.runId && KeyLe(c, kept[j]);
    assert now[j] == kept[j];
  }

  /** One more candidate, ranking below all before it. */
  lemma LastIsRepresented<T>(kept: seq<Candidate<T>>, last: Candidate<T>)
    requires Descending(kept) && forall j :: 0 <= j < |kept| ==> KeyLe(last, kept[j])
    ensures var now := if HasRun(kept, last.runId) then kept else kept + [last];
            Descending(now) && kept <= now && StandsIn(now, last)
  {
    hide KeyLe;
    if HasRun(kept, last.runId) {
      var j :| 0 <= j < |kept| && kept[j].runId == last.runId;
      assert KeyLe(last, kept[j]);
    } else {
      KeyLeReflexive(last);
      assert (kept + [last])[|kept|] == last;
    }
  }

  lemma KeptRanksAbove<T>(before: seq<Candidate<T>>, kept: seq<Candidate<T>>, last: Candidate<T>)
    requires forall i :: 0 <= i < |before| ==> KeyLe(last, before[i])
    requires forall j :: 0 <= j < |kept| ==> kept[j] in before
    ensures forall j :: 0 <= j < |kept| ==> KeyLe(last, kept[j])
  {
    hide KeyLe;
    forall j | 0 <= j < |kept| ensures KeyLe(last, kept[j]) {
      var i :| 0 <= i < |before| && before[i] == kept[j];
    }
  }

  lemma {:induction false} FirstOfRunsRepresents<T>(s: seq<Candidate<T>>)
    requires Descending(s)
    ensures Represents(FirstOfRuns(s), s) && Descending(FirstOfRuns(s))
  {
    if |s| > 0 {
      hide KeyLe, StandsIn, HasRun;
      var before, last := s[..|s| - 1], s[|s| - 1];
      assert Descending(before);
      assert forall i :: 0 <= i < |before| ==> KeyLe(last, before[i]);
      hide Descending;
      var kept := FirstOfRuns(before);
      FirstOfRunsRepresents(before);
      FirstOfRunsFrom(before);
      KeptRanksAbove(before, kept, last);
      LastIsRepresented(kept, last);
      forall k | 0 <= k < |s| - 1 ensures StandsIn(FirstOfRuns(s), s[k]) {
        assert StandsIn(kept, before[k]);
        StandsInLonger(kept, FirstOfRuns(s), s[k]);
      }
    }
  }

  // ---------------------------------------------------------------------
  // What a snapshot holds
  // ---------------------------------------------------------------------

  lemma RankedIsEligible<T(!new)>(candidates: seq<Candidate<T>>, ticker: string, analysisDate: Date)
    ensures var r := Ranked(candidates, ticker, analysisDate);
            && Descending(r)
            && forall c :: c in r <==> c in candidates && IsEligible(c, ticker, analysisDate)
  {
    var p := (c: Candidate<T>) => IsEligible(c, ticker, analysisDate);
    var le := (a: Candidate<T>, b: Candidate<T>) => KeyLe(b, a);
    var chosen := Select(candidates, p);
    KeyOrder<T>();
    SortSorts(chosen, le);
    SortPermutes(chosen, le);
    var r := Sort(chosen, le);
    assert forall i, j :: 0 <= i < j < |r| ==> le(r[i], r[j]);
    forall c ensures c in r <==> c in candidates && IsEligible(c, ticker, analysisDate) {
      SelectHas(candidates, p, c);
      assert c in r <==> c in multiset(r);
      assert c in chosen <==> c in multiset(chosen);
    }
  }

  /** How a candidate fares against the chosen ones. */
  ghost predicate Fares<T(!new)>(chosen: seq<Candidate<T>>, c: Candidate<T>, limit: nat) {
    if HasRun(chosen, c.runId) then forall d :: d in chosen && d.runId == c.runId ==> KeyLe(c, d)
    else |chosen| == limit && forall d :: d in chosen ==> KeyLe(c, d)
  }

  /**
   The chosen candidates: eligible ones of different runs, each the latest of its run,
   none later left out, as many as the limit allows.
   */
  ghost predicate IsChoice<T(!new)>(chosen: seq<Candidate<T>>, candidates: seq<Candidate<T>>, ticker: string,
                                    analysisDate: Date, limit: nat) {
    && (forall c :: c in chosen ==> c in candidates && IsEligible(c, ticker, analysisDate))
    && RunsDiffer(chosen)
    && |chosen| <= limit
    && forall c :: c in candidates && IsEligible(c, ticker, analysisDate) ==> Fares(chosen, c, limit)
  }

  lemma Outranked<T>(kept: seq<Candidate<T>>, chosen: seq<Candidate<T>>, c: Candidate<T>, j: nat, d: Candidate<T>)
    requires Descending(kept) && chosen <= kept && |chosen| <= j < |kept| && KeyLe(c, kept[j]) && d in chosen
    ensures KeyLe(c, d)
  {
    var i :| 0 <= i < |chosen| && chosen[i] == d;
    assert kept[i] == d && KeyLe(kept[j], kept[i]);
    KeyLeTransitive(c, kept[j], d);
  }

  lemma StoodInFares<T(!new)>(kept: seq<Candidate<T>>, c: Candidate<T>, limit: nat)
    requires Descending(kept) && RunsDiffer(kept) && StandsIn(kept, c)
    ensures Fares(Take(kept, limit), c, limit)
  {
    hide KeyLe;
    var chosen := Take(kept, limit);
    var j :| 0 <= j < |kept| && kept[j].runId == c.runId && KeyLe(c, kept[j]);
    if j < |chosen| {
      assert chosen[j] == kept[j];
      forall d | d in chosen && d.runId == c.runId ensures KeyLe(c, d) {
        var i :| 0 <= i < |chosen| && chosen[i] == d;
        assert kept[i] == d;
      }
    } else {
      forall d | d in chosen ensures KeyLe(c, d) { Outranked(kept, chosen, c, j, d); }
    }
  }

  lemma TakenIsChoice<T(!new)>(candidates: seq<Candidate<T>>, ticker: string, analysisDate: Date, limit: nat)
    ensures IsChoice(Take(FirstOfRuns(Ranked(candidates, ticker, analysisDate)), limit), candidates, ticker,
              analysisDate, limit)
  {
    hide KeyLe, IsEligible, Ranked, FirstOfRuns, Fares, Descending, StandsIn;
    var ranked := Ranked(candidates, ticker, analysisDate);
    RankedIsEligible(candidates, ticker, analysisDate);
    FirstOfRunsFrom(ranked);
    FirstOfRunsRepresents(ranked);
    var kept := FirstOfRuns(ranked);
    var chosen := Take(kept, limit);
    forall c | c in candidates && IsEligible(c, ticker, analysisDate) ensures Fares(chosen, c, limit) {
      var k :| 0 <= k < |ranked| && ranked[k] == c;
      assert StandsIn(kept, ranked[k]);
      StoodInFares(kept, c, limit);
    }
  }

  /** A choice stays one when its order changes. */
  lemma ChoiceInAnyOrder<T(!new)>(a: seq<Candidate<T>>, b: seq<Candidate<T>>, candidates: seq<Candidate<T>>,
                                  ticker: string, analysisDate: Date, limit: nat)
    requires IsChoice(a, candidates, ticker, analysisDate, limit) && multiset(a) == multiset(b)
    ensures IsChoice(b, candidates, ticker, analysisDate, limit)
  {
    hide KeyLe, IsEligible;
    forall c ensures c in a <==> c in b {
      assert c in a <==> c in multiset(a);
      assert c in b <==> c in multiset(b);
    }
    assert |a| == |multiset(a)| && |b| == |multiset(b)|;
    forall i, j | 0 <= i < j < |b| ensures b[i].runId != b[j].runId {
      if b[i] == b[j] { RepeatsElsewhere(a, b, i, j); }
      assert b[i] in a && b[j] in a;
    }
    forall runId ensures HasRun(a, runId) <==> HasRun(b, runId) {
      if HasRun(a, runId) {
        var i :| 0 <= i < |a| && a[i].runId == runId;
        assert a[i] in b;
      }
      if HasRun(b, runId) {
        var i :| 0 <= i < |b| && b[i].runId == runId;
        assert b[i] in a;
      }
    }
  }

  lemma RepeatsElsewhere<T(!new)>(a: seq<Candidate<T>>, b: seq<Candidate<T>>, i: nat, j: nat)
    requires i < j < |b| && b[i] == b[j] && multiset(a) == multiset(b)
    ensures !RunsDiffer(a)
  {
    var x := b[i];
    assert b == b[..j] + b[j..] && b[..j][i] == x && b[j..][0] == x;
    assert multiset(b)[x] >= 2;
    assert x in multiset(a);
    var k :| 0 <= k < |a| && a[k] == x;
    var rest := a[..k] + a[k + 1..];
    assert a == a[..k] + [x] + a[k + 1..];
    assert multiset(a) == multiset(rest) + multiset{x};
    assert x in multiset(rest);
    var m :| 0 <= m < |rest| && rest[m] == x;
    if m < k {
      assert a[m] == x;
    } else {
      assert a[m + 1] == x;
    }
  }

  /** The snapshot holds the latest eligible runs, each once at its highest matured horizon, in ascending order. */
  lemma SnapshotHoldsLatestRuns<T(!new)>(ticker: string, analysisDate: Date, candidates: seq<Candidate<T>>, limit: nat)
    requires limit >= 1
    ensures var entries := Snapshot(Historical, ticker, analysisDate, candidates, limit).value;
            && IsChoice(entries, candidates, ticker, analysisDate, limit)
            && forall i, j :: 0 <= i < j < |entries| ==>
                 RunLe(entries[i], entries[j]) && entries[i].runId != entries[j].runId
  {
    var chosen := Take(FirstOfRuns(Ranked(candidates, ticker, analysisDate)), limit);
    var le := (a: Candidate<T>, b: Candidate<T>) => RunLe(a, b);
    TakenIsChoice(candidates, ticker, analysisDate, limit);
    RunOrder<T>();
    SortPermutes(chosen, le);
    SortSorts(chosen, le);
    hide Take, FirstOfRuns, Ranked, RunLe;
    var entries := Sort(chosen, le);
    assert forall i, j :: 0 <= i < j < |entries| ==> le(entries[i], entries[j]);
    ChoiceInAnyOrder(chosen, entries, candidates, ticker, analysisDate, limit);
  }

  /**
   Over the columns: every entry is of the ticker, from before the date, and was closed before it;
   a candidate of that kind has an entry of its run that is no older, with a horizon no lower on
   the same date, or the snapshot is full of entries no older than it.
   */
  lemma SnapshotLooksBack<T(!new)>(ticker: string, analysisDate: Date, candidates: seq<Candidate<T>>, limit: nat)
    requires limit >= 1
    ensures var entries := Snapshot(Historical, ticker, analysisDate, candidates, limit).value;
            && |entries| <= limit
            && (forall e :: e in entries ==>
                  e in candidates && e.ticker == ticker && e.analysisDate < analysisDate
                  && e.exitSession < analysisDate)
            && (forall i, j :: 0 <= i < j < |entries| ==> entries[i].analysisDate <= entries[j].analysisDate)
            && (forall c :: c in candidates && c.ticker == ticker && c.analysisDate < analysisDate
                            && c.exitSession < analysisDate ==>
                  || (exists e :: e in entries && e.runId == c.runId
                        && (c.analysisDate < e.analysisDate
                            || (c.analysisDate == e.analysisDate && c.horizon <= e.horizon)))
                  || (|entries| == limit && forall e :: e in entries ==> c.analysisDate <= e.analysisDate))
  {
    SnapshotHoldsLatestRuns(ticker, analysisDate, candidates, limit);
    hide Snapshot, RunsDiffer, TextLe;
    var entries := Snapshot(Historical, ticker, analysisDate, candidates, limit).value;
    forall c | c in candidates && IsEligible(c, ticker, analysisDate)
      ensures || (exists e :: e in entries && e.runId == c.runId
                        && (c.analysisDate < e.analysisDate
                            || (c.analysisDate == e.analysisDate && c.horizon <= e.horizon)))
              || (|entries| == limit && forall e :: e in entries ==> c.analysisDate <= e.analysisDate)
    {
      assert Fares(entries, c, limit);
      if HasRun(entries, c.runId) {
        var i :| 0 <= i < |entries| && entries[i].runId == c.runId;
        assert entries[i] in entries && KeyLe(c, entries[i]);
      }
    }
  }

  /** When a run's candidates share one date, the entry of the run has the highest horizon of them. */
  lemma EntryHasHighestHorizon<T(!new)>(entries: seq<Candidate<T>>, candidates: seq<Candidate<T>>, ticker: string,
                                        analysisDate: Date, limit: nat,
                                        entry: Candidate<T>, c: Candidate<T>)
    requires IsChoice(entries, candidates, ticker, analysisDate, limit) && entry in entries
    requires c in candidates && IsEligible(c, ticker, analysisDate) && c.runId == entry.runId
             && c.analysisDate == entry.analysisDate
    ensures c.horizon <= entry.horizon
  {
    hide IsEligible;
    var i :| 0 <= i < |entries| && entries[i] == entry;
    assert HasRun(entries, c.runId) && Fares(entries, c, limit);
    assert KeyLe(c, entry);
  }

  /** The snapshot depends only on the eligible candidates, not on their order nor on others among them. */
  lemma SnapshotForgetsOrder<T(!new)>(mode: Mode, ticker: string, analysisDate: Date, a: seq<Candidate<T>>,
                                      b: seq<Candidate<T>>, limit: int)
    requires forall c :: IsEligible(c, ticker, analysisDate) ==> multiset(a)[c] == multiset(b)[c]
    requires forall c, d :: c in a && d in a && KeyLe(c, d) && KeyLe(d, c) ==> c == d
    ensures Snapshot(mode, ticker, analysisDate, a, limit) == Snapshot(mode, ticker, analysisDate, b, limit)
  {
    var p := (c: Candidate<T>) => IsEligible(c, ticker, analysisDate);
    var le := (x: Candidate<T>, y: Candidate<T>) => KeyLe(y, x);
    forall c ensures multiset(Select(a, p))[c] == multiset(Select(b, p))[c] {
      SelectCounts(a, p, c);
      SelectCounts(b, p, c);
    }
    assert multiset(Select(a, p)) == multiset(Select(b, p));
    KeyOrder<T>();
    forall c, d | c in Select(a, p) && d in Select(a, p) && le(c, d) && le(d, c) ensures c == d {
      SelectHas(a, p, c);
      SelectHas(a, p, d);
    }
    SortForgetsOrder(Select(a, p), Select(b, p), le);
  }

  // ---------------------------------------------------------------------
  // The loop
  // ---------------------------------------------------------------------

  /** `build_memory_snapshot`, up to the rendering of the entries. */
  method BuildMemorySnapshot<T>(mode: Mode, ticker: string, analysisDate: Date, candidates: seq<Candidate<T>>,
                                limit: int)
    returns (entries: Result<seq<Candidate<T>>, string>)
    ensures entries == Snapshot(mode, ticker, analysisDate, candidates, limit)
  {
    if limit < 1 { return Err("memory entry limit must be positive"); }
    var selected: seq<Candidate<T>> := [];
    if mode == Historical {
      var eligible := LatestFirst(Select(candidates, c => IsEligible(c, ticker, analysisDate)));
      var seen: set<string> := {};
      var k := 0;
      ghost var done := false;
      while k < |eligible|
        invariant 0 <= k <= |eligible|
        invariant selected == FirstOfRuns(eligible[..k]) && |selected| < limit
        invariant forall r :: r in seen <==> HasRun(selected, r)
      {
        assert eligible[..k + 1][..k] == eligible[..k];
        var candidate := eligible[k];
        k := k + 1;
        if candidate.runId in seen { continue; }
        ghost var before := selected;
        selected := selected + [candidate];
        seen := seen + {candidate.runId};
        OneMoreRun(before, candidate);
        if |selected| == limit {
          FirstsGrow(eligible, k);
          break;
        }
      }
      if k == |eligible| { assert eligible[..k] == eligible; FirstsGrow(eligible, k); }
      assert selected == Take(FirstOfRuns(eligible), limit);
      selected := Sort(selected, (a, b) => RunLe(a, b));
    }
    return Ok(selected);
  }

  lemma OneMoreRun<T>(s: seq<Candidate<T>>, c: Candidate<T>)
    ensures forall r :: HasRun(s + [c], r) <==> HasRun(s, r) || r == c.runId
  {
    forall r ensures HasRun(s + [c], r) <==> HasRun(s, r) || r == c.runId {
      if HasRun(s, r) {
        var i :| 0 <= i < |s| && s[i].runId == r;
        assert (s + [c])[i] == s[i];
      }
      assert (s + [c])[|s|] == c;
    }
  }

  /** What was kept of a first stretch stays the beginning of what is kept of all. */
  lemma {:induction false} FirstsGrow<T>(s: seq<Candidate<T>>, k: nat)
    requires k <= |s|
    ensures FirstOfRuns(s[..k]) <= FirstOfRuns(s)
    decreases |s| - k
  {
    if k == |s| {
      assert s[..k] == s;
    } else {
      assert s[..k + 1][..k] == s[..k];
      FirstsGrow(s, k + 1);
    }
  }
}
