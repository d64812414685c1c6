/**
 The sweep of the audit summary that finds how many exchanges overlapped at most.
 */
module Overlap {
  import opened Sorting

  datatype Exchange = Exchange(start: int, end: int)

  datatype Event = Event(time: int, delta: int)

  function EventsOf(records: seq<Exchange>): seq<Event> {
    if |records| == 0 then []
    else EventsOf(records[..|records| - 1]) +
         [Event(records[|records| - 1].start, 1), Event(records[|records| - 1].end, -1)]
  }

  predicate EventLe(a: Event, b: Event) {
    a.time < b.time || (a.time == b.time && a.delta <= b.delta)
  }

  function SortedEvents(records: seq<Exchange>): seq<Event> {
    Sort(EventsOf(records), (a, b) => EventLe(a, b))
  }

  // ---------------------------------------------------------------------
  // What the sweep should find
  // ---------------------------------------------------------------------

  function One(b: bool): int {
    if b then 1 else 0
  }

  /** How many exchanges are open at `t`: from their start on, but not at their end. */
  function ActiveAt(records: seq<Exchange>, t: int): int {
    if |records| == 0 then 0
    else ActiveAt(records[1..], t) + One(records[0].start <= t < records[0].end)
  }

  /** How many exchanges have their end before their start, with `t` in between. */
  function ReversedAt(records: seq<Exchange>, t: int): int {
    if |records| == 0 then 0
    else ReversedAt(records[1..], t) + One(records[0].end <= t < records[0].start)
  }

  /** `m` is the greatest value of `ActiveAt - ReversedAt`, or 0 when that is never positive. */
  ghost predicate IsPeak(records: seq<Exchange>, m: int) {
    && m >= 0
    && (forall t: int :: ActiveAt(records, t) - ReversedAt(records, t) <= m)
    && (m > 0 ==> exists t: int :: ActiveAt(records, t) - ReversedAt(records, t) == m)
  }

  // ---------------------------------------------------------------------
  // Sums over events
  // ---------------------------------------------------------------------

  /** The sum of the deltas up to time `t`. */
  function Net(events: seq<Event>, t: int): int {
    if |events| == 0 then 0 else (if events[0].time <= t then events[0].delta else 0) + Net(events[1..], t)
  }

  /** The sum of the first `k` deltas. */
  function SumTo(events: seq<Event>, k: nat): int
    requires k <= |events|
  {
    if k == 0 then 0 else SumTo(events, k - 1) + events[k - 1].delta
  }

  lemma {:induction false} NetOfConcat(a: seq<Event>, b: seq<Event>, t: int)
    ensures Net(a + b, t) == Net(a, t) + Net(b, t)
  {
    if |a| == 0 {
      assert a + b == b;
    } else {
      NetOfConcat(a[1..], b, t);
      assert (a + b)[1..] == a[1..] + b;
    }
  }

  lemma {:induction false} NetOfInsert(x: Event, s: seq<Event>, le: (Event, Event) -> bool, t: int)
    ensures Net(Insert(x, s, le), t) == Net([x], t) + Net(s, t)
  {
    NetOfConcat([x], s, t);
    if |s| > 0 && !le(x, s[0]) {
      NetOfInsert(x, s[1..], le, t);
      NetOfConcat([s[0]], Insert(x, s[1..], le), t);
    }
  }

  lemma {:induction false} NetOfSort(s: seq<Event>, le: (Event, Event) -> bool, t: int)
    ensures Net(Sort(s, le), t) == Net(s, t)
  {
    if |s| > 0 {
      NetOfSort(s[1..], le, t);
      NetOfInsert(s[0], Sort(s[1..], le), le, t);
    }
  }

  lemma {:induction false} ActiveOfLast(records: seq<Exchange>, r: Exchange, t: int)
    ensures ActiveAt(records + [r], t) == ActiveAt(records, t) + One(r.start <= t < r.end)
    ensures ReversedAt(records + [r], t) == ReversedAt(records, t) + One(r.end <= t < r.start)
  {
    if |records| > 0 {
      ActiveOfLast(records[1..], r, t);
      assert (records + [r])[1..] == records[1..] + [r];
    }
  }

  /** Starts minus ends up to `t` are the open exchanges less the reversed ones. */
  lemma {:induction false} NetIsActive(records: seq<Exchange>, t: int)
    ensures Net(EventsOf(records), t) == ActiveAt(records, t) - ReversedAt(records, t)
  {
    if |records| > 0 {
      var before, last := records[..|records| - 1], records[|records| - 1];
      NetIsActive(before, t);
      var pair := [Event(last.start, 1), Event(last.end, -1)];
      NetOfConcat(EventsOf(before), pair, t);
      assert pair[1..] == [Event(last.end, -1)];
      assert Net(pair[1..], t) == -One(last.end <= t);
      ActiveOfLast(before, last, t);
      assert records == before + [last];
    }
  }

  /** When no event after the first `k` is due by `t`, and all of those are, the first `k` make up the sum. */
  lemma {:induction false} NetOfPrefix(events: seq<Event>, k: nat, t: int)
    requires k <= |events|
    requires forall i :: 0 <= i < k ==> events[i].time <= t
    ensures Net(events, t) == SumTo(events, k) + Net(events[k..], t)
    decreases k
  {
    if k == 0 {
      assert events[0..] == events;
    } else {
      NetOfPrefix(events, k - 1, t);
      assert events[k - 1..] == [events[k - 1]] + events[k..];
    }
  }

  lemma {:induction false} NetOfRest(events: seq<Event>, t: int)
    requires forall i :: 0 <= i < |events| ==> events[i].time > t || events[i].delta >= 0
    ensures Net(events, t) >= 0
  {
    if |events| > 0 { NetOfRest(events[1..], t); }
  }

  lemma {:induction false} NetOfLater(events: seq<Event>, t: int)
    requires forall i :: 0 <= i < |events| ==> events[i].time > t
    ensures Net(events, t) == 0
  {
    if |events| > 0 { NetOfLater(events[1..], t); }
  }

  ghost predicate IsSweep(events: seq<Event>) {
    && (forall i, j :: 0 <= i < j < |events| ==> EventLe(events[i], events[j]))
    && (forall i :: 0 <= i < |events| ==> events[i].delta == 1 || events[i].delta == -1)
  }

  /** Every time sees the sum of some first stretch of the sorted events. */
  lemma {:induction false} TimeSeesPrefix(events: seq<Event>, t: int) returns (k: nat)
    requires IsSweep(events)
    ensures k <= |events| && Net(events, t) == SumTo(events, k)
  {
    k := 0;
    while k < |events| && events[k].time <= t
      invariant k <= |events| && forall i :: 0 <= i < k ==> events[i].time <= t
    {
      k := k + 1;
    }
    NetOfPrefix(events, k, t);
    NetOfLater(events[k..], t);
  }

  /** Right after an exchange starts, the sum is at most what its time sees. */
  lemma StartSeesMore(events: seq<Event>, k: nat)
    requires IsSweep(events) && 0 < k <= |events| && events[k - 1].delta == 1
    ensures SumTo(events, k) <= Net(events, events[k - 1].time)
  {
    var t := events[k - 1].time;
    NetOfPrefix(events, k, t);
    forall i | 0 <= i < |events[k..]| ensures events[k..][i].time > t || events[k..][i].delta >= 0 {
      assert EventLe(events[k - 1], events[k + i]);
    }
    NetOfRest(events[k..], t);
  }

  /** `m` is the greatest sum of up to `n` first events. */
  ghost predicate IsGreatestSum(events: seq<Event>, n: nat, m: int)
    requires n <= |events|
  {
    && (forall k :: 0 <= k <= n ==> SumTo(events, k) <= m)
    && (exists k :: 0 <= k <= n && SumTo(events, k) == m)
  }

  lemma GreatestSumIsPeak(records: seq<Exchange>, events: seq<Event>, m: int)
    requires IsSweep(events) && IsGreatestSum(events, |events|, m)
    requires forall t :: Net(events, t) == ActiveAt(records, t) - ReversedAt(records, t)
    ensures IsPeak(records, m)
  {
    assert SumTo(events, 0) == 0;
    forall t: int ensures ActiveAt(records, t) - ReversedAt(records, t) <= m {
      var k := TimeSeesPrefix(events, t);
    }
    if m > 0 {
      var k :| 0 <= k <= |events| && SumTo(events, k) == m;
      assert SumTo(events, k - 1) <= m;
      StartSeesMore(events, k);
      var t := events[k - 1].time;
      assert ActiveAt(records, t) - ReversedAt(records, t) == m;
    }
  }

  lemma {:induction false} DeltasAreUnits(records: seq<Exchange>)
    ensures forall e :: e in EventsOf(records) ==> e.delta == 1 || e.delta == -1
  {
    if |records| > 0 { DeltasAreUnits(records[..|records| - 1]); }
  }

  lemma SortedIsSweep(records: seq<Exchange>)
    ensures IsSweep(SortedEvents(records))
    ensures forall t :: Net(SortedEvents(records), t) == ActiveAt(records, t) - ReversedAt(records, t)
  {
    var le := (a: Event, b: Event) => EventLe(a, b);
    var events := EventsOf(records);
    assert IsOrder(le);
    SortSorts(events, le);
    SortPermutes(events, le);
    DeltasAreUnits(records);
    var sorted := Sort(events, le);
    forall i | 0 <= i < |sorted| ensures sorted[i].delta == 1 || sorted[i].delta == -1 {
      assert sorted[i] in multiset(sorted);
      assert sorted[i] in events;
    }
    assert forall i, j :: 0 <= i < j < |sorted| ==> le(sorted[i], sorted[j]);
    forall t ensures Net(sorted, t) == ActiveAt(records, t) - ReversedAt(records, t) {
      NetOfSort(events, le, t);
      NetIsActive(records, t);
    }
  }

  lemma OneMoreSum(events: seq<Event>, n: nat, m: int)
    requires n < |events| && IsGreatestSum(events, n, m)
    ensures var sum := SumTo(events, n + 1); IsGreatestSum(events, n + 1, if sum > m then sum else m)
  {
    hide SumTo;
    var k :| 0 <= k <= n && SumTo(events, k) == m;
  }

  /** When every exchange starts no later than it ends, nothing is subtracted. */
  lemma {:induction false} InOrderNothingReversed(records: seq<Exchange>, t: int)
    requires forall i :: 0 <= i < |records| ==> records[i].start <= records[i].end
    ensures ReversedAt(records, t) == 0
  {
    if |records| > 0 { InOrderNothingReversed(records[1..], t); }
  }

  /** `m` is the greatest number of exchanges open at one time. */
  ghost predicate IsMostActive(records: seq<Exchange>, m: int) {
    && m >= 0
    && (forall t: int :: ActiveAt(records, t) <= m)
    && (m > 0 ==> exists t: int :: ActiveAt(records, t) == m)
  }

  lemma {:induction false} CountsAreSizes(records: seq<Exchange>, t: int)
    ensures 0 <= ActiveAt(records, t) <= |records| && ReversedAt(records, t) >= 0
  {
    if |records| > 0 { CountsAreSizes(records[1..], t); }
  }

  /** Some number is the greatest one open at one time. */
  lemma MostActiveExists(records: seq<Exchange>) returns (k: int)
    ensures IsMostActive(records, k)
  {
    hide ActiveAt;
    k := |records|;
    forall t: int ensures 0 <= ActiveAt(records, t) <= k { CountsAreSizes(records, t); }
    while k > 0 && !exists t: int :: ActiveAt(records, t) == k
      invariant k >= 0 && forall t: int :: ActiveAt(records, t) <= k
    {
      k := k - 1;
    }
  }

  /** At some busiest time no exchange is reversed; so it is also when nothing is ever open. */
  ghost predicate IsClearAtPeak(records: seq<Exchange>, k: int) {
    k == 0 || exists t: int :: ActiveAt(records, t) == k && ReversedAt(records, t) == 0
  }

  /**
   The peak is never more than the greatest number open at one time, and it is that number
   exactly when some busiest time sees no reversed exchange.
   */
  lemma PeakIsMostActiveExactlyWhen(records: seq<Exchange>, m: int, k: int)
    requires IsPeak(records, m) && IsMostActive(records, k)
    ensures m <= k
    ensures m == k <==> IsClearAtPeak(records, k)
  {
    hide ActiveAt, ReversedAt;
    forall t: int ensures ReversedAt(records, t) >= 0 { CountsAreSizes(records, t); }
    if m > 0 {
      var t: int :| ActiveAt(records, t) - ReversedAt(records, t) == m;
      assert ActiveAt(records, t) <= k;
      if m == k { assert ActiveAt(records, t) == k && ReversedAt(records, t) == 0; }
    }
    if k > 0 && IsClearAtPeak(records, k) {
      var t: int :| ActiveAt(records, t) == k && ReversedAt(records, t) == 0;
      assert ActiveAt(records, t) - ReversedAt(records, t) <= m;
    }
  }

  lemma InOrderIsClear(records: seq<Exchange>, k: int)
    requires forall i :: 0 <= i < |records| ==> records[i].start <= records[i].end
    requires IsMostActive(records, k)
    ensures IsClearAtPeak(records, k)
  {
    hide ActiveAt, ReversedAt;
    if k > 0 {
      var t: int :| ActiveAt(records, t) == k;
      InOrderNothingReversed(records, t);
      assert ActiveAt(records, t) == k && ReversedAt(records, t) == 0;
    }
  }

  /** With well-ordered exchanges the peak is the greatest number open at one time. */
  lemma PeakOfOrderedExchanges(records: seq<Exchange>, m: int)
    requires forall i :: 0 <= i < |records| ==> records[i].start <= records[i].end
    ensures IsPeak(records, m) <==> IsMostActive(records, m)
  {
    hide IsPeak, IsMostActive, IsClearAtPeak;
    var k := MostActiveExists(records);
    var peak := PeakExists(records);
    InOrderIsClear(records, k);
    PeakIsMostActiveExactlyWhen(records, peak, k);
    if IsPeak(records, m) { PeakIsUnique(records, m, peak); }
    if IsMostActive(records, m) { MostActiveIsUnique(records, m, k); }
  }

  /** The peak is what the sorted events sum up to at most. */
  lemma PeakExists(records: seq<Exchange>) returns (m: int)
    ensures IsPeak(records, m)
  {
    var events := SortedEvents(records);
    SortedIsSweep(records);
    m := 0;
    assert SumTo(events, 0) == 0;
    for n := 0 to |events|
      invariant IsGreatestSum(events, n, m)
    {
      OneMoreSum(events, n, m);
      m := if SumTo(events, n + 1) > m then SumTo(events, n + 1) else m;
    }
    GreatestSumIsPeak(records, events, m);
  }

  lemma MostActiveIsUnique(records: seq<Exchange>, a: int, b: int)
    requires IsMostActive(records, a) && IsMostActive(records, b)
    ensures a == b
  {
  }

  /** The peak is unique. */
  lemma PeakIsUnique(records: seq<Exchange>, a: int, b: int)
    requires IsPeak(records, a) && IsPeak(records, b)
    ensures a == b
  {
  }

  /** A reversed exchange hides an open one: the sweep then reports less than was open. */
  lemma ReversedExchangeHides()
    ensures IsPeak([Exchange(5, 0), Exchange(1, 2)], 0) && ActiveAt([Exchange(5, 0), Exchange(1, 2)], 1) == 1
  {
    var records := [Exchange(5, 0), Exchange(1, 2)];
    var rest := [Exchange(1, 2)];
    assert records[1..] == rest && rest[1..] == [];
    forall t: int
      ensures ActiveAt(records, t) == One(5 <= t < 0) + One(1 <= t < 2)
              && ReversedAt(records, t) == One(0 <= t < 5) + One(2 <= t < 1)
    {
      assert ActiveAt([], t) == 0 && ReversedAt([], t) == 0;
      assert ActiveAt(rest, t) == One(1 <= t < 2) && ReversedAt(rest, t) == One(2 <= t < 1);
    }
  }

  lemma {:induction false} ActiveWithout(records: seq<Exchange>, i: nat, t: int)
    requires i < |records|
    ensures ActiveAt(records, t) ==
            ActiveAt(records[..i] + records[i + 1..], t) + One(records[i].start <= t < records[i].end)
    ensures ReversedAt(records, t) ==
            ReversedAt(records[..i] + records[i + 1..], t) + One(records[i].end <= t < records[i].start)
  {
    if i > 0 {
      ActiveWithout(records[1..], i - 1, t);
      var rest := records[..i] + records[i + 1..];
      assert rest[1..] == records[1..][..i - 1] + records[1..][i..];
    } else {
      assert records[..0] + records[1..] == records[1..];
    }
  }

  lemma Dropped(s: seq<Exchange>, i: nat)
    requires i < |s|
    ensures multiset(s[..i] + s[i + 1..]) == multiset(s) - multiset{s[i]}
  {
    assert s == s[..i] + [s[i]] + s[i + 1..];
  }

  lemma FirstDropped(s: seq<Exchange>)
    requires |s| > 0
    ensures multiset(s[1..]) == multiset(s) - multiset{s[0]}
  {
    assert s == [s[0]] + s[1..];
  }

  lemma SameRest(a: seq<Exchange>, b: seq<Exchange>, i: nat)
    requires |a| > 0 && i < |b| && multiset(a) == multiset(b) && a[0] == b[i]
    ensures multiset(a[1..]) == multiset(b[..i] + b[i + 1..])
  {
    var first := a[0];
    assert multiset(a[1..]) == multiset(a) - multiset{first} by { FirstDropped(a); }
    assert multiset(b[..i] + b[i + 1..]) == multiset(b) - multiset{first} by { Dropped(b, i); }
  }

  lemma {:induction false} ActiveForgetsOrder(a: seq<Exchange>, b: seq<Exchange>, t: int)
    requires multiset(a) == multiset(b)
    ensures ActiveAt(a, t) == ActiveAt(b, t) && ReversedAt(a, t) == ReversedAt(b, t)
  {
    if |a| == 0 {
      assert |multiset(b)| == 0;
    } else {
      assert a[0] in multiset(b);
      var i :| 0 <= i < |b| && b[i] == a[0];
      var rest := b[..i] + b[i + 1..];
      SameRest(a, b, i);
      ActiveForgetsOrder(a[1..], rest, t);
      ActiveWithout(b, i, t);
    }
  }

  /** The order of the records does not matter. */
  lemma PeakForgetsOrder(a: seq<Exchange>, b: seq<Exchange>, m: int)
    requires multiset(a) == multiset(b) && IsPeak(a, m)
    ensures IsPeak(b, m)
  {
    forall t: int ensures ActiveAt(a, t) == ActiveAt(b, t) && ReversedAt(a, t) == ReversedAt(b, t) {
      ActiveForgetsOrder(a, b, t);
    }
    if m > 0 {
      var t: int :| ActiveAt(a, t) - ReversedAt(a, t) == m;
      assert ActiveAt(b, t) - ReversedAt(b, t) == m;
    }
  }

  // ---------------------------------------------------------------------
  // The sweep
  // ---------------------------------------------------------------------

  /** `_max_overlap`: the peak, which is the greatest number open exactly when some busiest time is clear. */
  method MaxOverlap(records: seq<Exchange>) returns (maximum: int)
    ensures IsPeak(records, maximum)
    ensures forall k :: IsMostActive(records, k) ==> maximum <= k && (maximum == k <==> IsClearAtPeak(records, k))
  {
    var events := [];
    for i := 0 to |records|
      invariant events == EventsOf(records[..i])
    {
      assert records[..i + 1][..i] == records[..i];
      events := events + [Event(records[i].start, 1)];
      events := events + [Event(records[i].end, -1)];
    }
    assert records[..|records|] == records;
    var sorted := Sort(events, (a, b) => EventLe(a, b));
    SortedIsSweep(records);
    var active := 0;
    maximum := 0;
    assert SumTo(sorted, 0) == 0;
    for k := 0 to |sorted|
      invariant active == SumTo(sorted, k)
      invariant IsGreatestSum(sorted, k, maximum)
    {
      active := active + sorted[k].delta;
      OneMoreSum(sorted, k, maximum);
      maximum := if active > maximum then active else maximum;
    }
    GreatestSumIsPeak(records, sorted, maximum);
    forall k | IsMostActive(records, k) ensures maximum <= k && (maximum == k <==> IsClearAtPeak(records, k)) {
      PeakIsMostActiveExactlyWhen(records, maximum, k);
    }
  }
}
