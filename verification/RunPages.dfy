/**
 Keyset pagination of the run list: newest first by creation time and id, each page
 starting behind the cursor that ended the one before.
 */
module RunPages {
  import opened Outcomes
  import opened Sorting

  type Time = int
  type RunId = nat

  datatype RunRow<T> = RunRow(createdAt: Time, id: RunId, view: T)

  datatype Cursor = Cursor(createdAt: Time, id: RunId)

  datatype Page<T> = Page(items: seq<RunRow<T>>, next: Option<Cursor>)

  function KeyOf<T>(r: RunRow<T>): Cursor {
    Cursor(r.createdAt, r.id)
  }

  predicate Behind<T>(r: RunRow<T>, c: Cursor) {
    r.createdAt < c.createdAt || (r.createdAt == c.createdAt && r.id < c.id)
  }

  predicate NewerFirst<T>(a: RunRow<T>, b: RunRow<T>) {
    a.createdAt > b.createdAt || (a.createdAt == b.createdAt && a.id >= b.id)
  }

  function Ordered<T>(s: seq<RunRow<T>>): seq<RunRow<T>> {
    Sort(s, (a, b) => NewerFirst(a, b))
  }

  function Matching<T>(table: seq<RunRow<T>>, matches: RunRow<T> -> bool, cursor: Option<Cursor>): seq<RunRow<T>> {
    match cursor
    case None => Select(table, matches)
    case Some(c) => Select(table, r => matches(r) && Behind(r, c))
  }

  /** One row beyond the limit is fetched only to learn whether more follow. */
  function FirstPage<T>(ordered: seq<RunRow<T>>, limit: nat): Page<T> {
    var rows := if |ordered| > limit + 1 then ordered[..limit + 1] else ordered;
    var visible := if |rows| > limit then rows[..limit] else rows;
    Page(visible, if |rows| > limit && |visible| > 0 then Some(KeyOf(visible[|visible| - 1])) else None)
  }

  /** `list_runs`. */
  function ListRuns<T>(table: seq<RunRow<T>>, matches: RunRow<T> -> bool, cursor: Option<Cursor>, limit: nat): Page<T> {
    FirstPage(Ordered(Matching(table, matches, cursor)), limit)
  }

  // ---------------------------------------------------------------------
  // Selections and their order
  // ---------------------------------------------------------------------

  lemma OrderOfRows<T(!new)>()
    ensures IsOrder((a: RunRow<T>, b: RunRow<T>) => NewerFirst(a, b))
  {
  }

  /** Two rows with one id are the same row. */
  ghost predicate IdsAreUnique<T(!new)>(s: seq<RunRow<T>>) {
    (forall a, b :: a in s && b in s && a.id == b.id ==> a == b) && forall x :: multiset(s)[x] <= 1
  }

  /** Created later, or at the same time with a greater id. */
  ghost predicate IsNewer<T>(a: RunRow<T>, b: RunRow<T>) {
    a.createdAt > b.createdAt || (a.createdAt == b.createdAt && a.id > b.id)
  }

  ghost predicate StrictlyNewerFirst<T>(s: seq<RunRow<T>>) {
    forall i, j :: 0 <= i < j < |s| ==> IsNewer(s[i], s[j])
  }

  lemma OrderedIsStrict<T(!new)>(s: seq<RunRow<T>>)
    requires IdsAreUnique(s)
    ensures StrictlyNewerFirst(Ordered(s)) && multiset(Ordered(s)) == multiset(s)
  {
    var le := (a: RunRow<T>, b: RunRow<T>) => NewerFirst(a, b);
    OrderOfRows<T>();
    SortPermutes(s, le);
    SortSorts(s, le);
    var o := Ordered(s);
    forall i, j | 0 <= i < j < |o| ensures IsNewer(o[i], o[j]) {
      assert le(o[i], o[j]);
      assert o[i] in multiset(s) && o[j] in multiset(s);
      if o[i] == o[j] { TwicePresent(o, i, j); }
    }
  }

  lemma TwicePresent<T>(s: seq<T>, i: nat, j: nat)
    requires i < j < |s| && s[i] == s[j]
    ensures multiset(s)[s[i]] >= 2
  {
    assert s == s[..j] + s[j..];
    assert s[i] in multiset(s[..j]) && s[i] in multiset(s[j..]) by {
      assert s[..j][i] == s[i] && s[j..][0] == s[j];
    }
  }

  /** A strictly ordered sequence is what ordering any sequence of the same rows gives. */
  lemma StrictIsOrdered<T(!new)>(s: seq<RunRow<T>>, o: seq<RunRow<T>>)
    requires multiset(s) == multiset(o) && StrictlyNewerFirst(o)
    ensures Ordered(s) == o
  {
    var le := (a: RunRow<T>, b: RunRow<T>) => NewerFirst(a, b);
    OrderOfRows<T>();
    SortPermutes(s, le);
    SortSorts(s, le);
    assert Sorted(o, le);
    forall x, y | x in o && y in o && le(x, y) && le(y, x) ensures x == y {
      var i :| 0 <= i < |o| && o[i] == x;
      var j :| 0 <= j < |o| && o[j] == y;
    }
    SortedIsUnique(o, Sort(s, le), le);
  }

  // ---------------------------------------------------------------------
  // Growing tables
  // ---------------------------------------------------------------------

  /** The table holds the rows it had, in any storage order, and others newer than all of those. */
  ghost predicate OnlyNewerAdded<T(!new)>(before: seq<RunRow<T>>, now: seq<RunRow<T>>) {
    && multiset(before) <= multiset(now)
    && forall r, old_ :: r in multiset(now) - multiset(before) && old_ in before ==> IsNewer(r, old_)
  }

  /** Behind a cursor that names an old row, old and new table hold the same rows. */
  lemma NewRowsStayAhead<T(!new)>(before: seq<RunRow<T>>, now: seq<RunRow<T>>, matches: RunRow<T> -> bool, c: Cursor)
    requires OnlyNewerAdded(before, now) && exists r :: r in before && KeyOf(r) == c
    ensures multiset(Matching(now, matches, Some(c))) == multiset(Matching(before, matches, Some(c)))
  {
    var p := (r: RunRow<T>) => matches(r) && Behind(r, c);
    var named :| named in before && KeyOf(named) == c;
    forall x ensures multiset(Select(now, p))[x] == multiset(Select(before, p))[x] {
      SelectCounts(now, p, x);
      SelectCounts(before, p, x);
      if multiset(now)[x] > multiset(before)[x] { AddedIsAhead(before, now, x, named); }
    }
  }

  lemma AddedIsAhead<T(!new)>(before: seq<RunRow<T>>, now: seq<RunRow<T>>, x: RunRow<T>, named: RunRow<T>)
    requires OnlyNewerAdded(before, now) && multiset(now)[x] > multiset(before)[x] && named in before
    ensures !Behind(x, KeyOf(named))
  {
    assert x in multiset(now) - multiset(before);
    assert IsNewer(x, named);
  }

  /** The matching rows behind the `i`-th row of the ordered list are the rest of that list. */
  lemma RestBehind<T(!new)>(table: seq<RunRow<T>>, matches: RunRow<T> -> bool, i: nat)
    requires IdsAreUnique(table) && 0 < i <= |Ordered(Select(table, matches))|
    ensures var s := Ordered(Select(table, matches));
            multiset(Matching(table, matches, Some(KeyOf(s[i - 1])))) == multiset(s[i..])
  {
    SelectionIsUnique(table, matches);
    OrderedIsStrict(Select(table, matches));
    hide Ordered, Select, IdsAreUnique, StrictlyNewerFirst;
    var s := Ordered(Select(table, matches));
    var c := KeyOf(s[i - 1]);
    var p := (r: RunRow<T>) => matches(r) && Behind(r, c);
    forall x ensures multiset(Select(table, p))[x] == multiset(s[i..])[x] {
      SelectCounts(table, p, x);
      SelectCounts(table, matches, x);
      CountsBehind(s, i, x);
    }
  }

  lemma SelectionIsUnique<T(!new)>(table: seq<RunRow<T>>, matches: RunRow<T> -> bool)
    requires IdsAreUnique(table)
    ensures IdsAreUnique(Select(table, matches))
  {
    forall x ensures multiset(Select(table, matches))[x] <= 1 { SelectCounts(table, matches, x); }
    forall x ensures x in Select(table, matches) ==> x in table { SelectHas(table, matches, x); }
  }

  lemma CountsBehind<T(!new)>(s: seq<RunRow<T>>, i: nat, x: RunRow<T>)
    requires StrictlyNewerFirst(s) && 0 < i <= |s|
    ensures multiset(s[i..])[x] == if Behind(x, KeyOf(s[i - 1])) then multiset(s)[x] else 0
  {
    assert s == s[..i] + s[i..];
    assert forall k :: 0 <= k < i ==> !Behind(s[k], KeyOf(s[i - 1]));
    assert forall k :: 0 <= k < |s| - i ==> s[i..][k] == s[i + k] && Behind(s[i + k], KeyOf(s[i - 1]));
    assert Behind(x, KeyOf(s[i - 1])) ==> x !in multiset(s[..i]);
    assert !Behind(x, KeyOf(s[i - 1])) ==> x !in multiset(s[i..]);
  }

  // ---------------------------------------------------------------------
  // Following the cursors
  // ---------------------------------------------------------------------

  lemma FirstPageIsBlock<T>(s: seq<RunRow<T>>, i: nat, limit: nat)
    requires i <= |s| && limit > 0
    ensures FirstPage(s[i..], limit) ==
            if i + limit < |s| then Page(s[i..i + limit], Some(KeyOf(s[i + limit - 1]))) else Page(s[i..], None)
  {
    if i + limit < |s| {
      assert s[i..][..limit] == s[i..i + limit];
      assert s[i..][..limit + 1][..limit] == s[i..][..limit];
    }
  }

  /** The rows behind the `i`-th row, in order, are the rest of the list as it stood at the start. */
  lemma RestOfList<T(!new)>(before: seq<RunRow<T>>, now: seq<RunRow<T>>, matches: RunRow<T> -> bool, i: nat)
    requires IdsAreUnique(before) && OnlyNewerAdded(before, now)
    requires 0 < i <= |Ordered(Select(before, matches))|
    ensures var s := Ordered(Select(before, matches));
            Ordered(Matching(now, matches, Some(KeyOf(s[i - 1])))) == s[i..]
  {
    hide Select, Sort;
    var s := Ordered(Select(before, matches));
    SelectionIsUnique(before, matches);
    OrderedIsStrict(Select(before, matches));
    hide Ordered, IdsAreUnique;
    var c := KeyOf(s[i - 1]);
    assert s[i - 1] in multiset(Select(before, matches));
    SelectHas(before, matches, s[i - 1]);
    NewRowsStayAhead(before, now, matches, c);
    RestBehind(before, matches, i);
    hide OnlyNewerAdded;
    assert StrictlyNewerFirst(s[i..]);
    StrictIsOrdered(Matching(now, matches, Some(c)), s[i..]);
  }

  /** The page behind the `i`-th row shows the next `limit` rows of the list as it stood at the start. */
  lemma NextPage<T(!new)>(before: seq<RunRow<T>>, now: seq<RunRow<T>>, matches: RunRow<T> -> bool, i: nat, limit: nat)
    requires IdsAreUnique(before) && OnlyNewerAdded(before, now) && limit > 0
    requires i <= |Ordered(Select(before, matches))| && (i == 0 ==> now == before)
    ensures var s := Ordered(Select(before, matches));
            ListRuns(now, matches, if i == 0 then None else Some(KeyOf(s[i - 1])), limit) ==
            if i + limit < |s| then Page(s[i..i + limit], Some(KeyOf(s[i + limit - 1]))) else Page(s[i..], None)
  {
    hide Ordered, Select, IdsAreUnique, OnlyNewerAdded;
    var s := Ordered(Select(before, matches));
    FirstPageIsBlock(s, i, limit);
    if i > 0 {
      RestOfList(before, now, matches, i);
    } else {
      assert s[0..] == s;
    }
  }

  function Items<T>(pages: seq<Page<T>>): seq<RunRow<T>> {
    if |pages| == 0 then [] else Items(pages[..|pages| - 1]) + pages[|pages| - 1].items
  }

  ghost predicate Linked<T(!new)>(tables: seq<seq<RunRow<T>>>, pages: seq<Page<T>>, matches: RunRow<T> -> bool,
                                  limit: nat, k: nat)
    requires |tables| == |pages| > k > 0
  {
    && OnlyNewerAdded(tables[0], tables[k])
    && pages[k - 1].next.Some? && pages[k] == ListRuns(tables[k], matches, pages[k - 1].next, limit)
  }

  /** Each page was asked with the cursor of the one before, while only newer rows came in. */
  ghost predicate Follows<T(!new)>(tables: seq<seq<RunRow<T>>>, pages: seq<Page<T>>, matches: RunRow<T> -> bool,
                                   limit: nat) {
    && |tables| == |pages| > 0
    && pages[0] == ListRuns(tables[0], matches, None, limit)
    && forall k :: 0 < k < |pages| ==> Linked(tables, pages, matches, limit, k)
  }

  lemma PrefixFollows<T(!new)>(tables: seq<seq<RunRow<T>>>, pages: seq<Page<T>>, matches: RunRow<T> -> bool, limit: nat)
    requires Follows(tables, pages, matches, limit) && |pages| > 1
    ensures var n := |pages|;
            Follows(tables[..n - 1], pages[..n - 1], matches, limit) && Linked(tables, pages, matches, limit, n - 1)
  {
    hide ListRuns, OnlyNewerAdded;
    var n := |pages|;
    var ts, ps := tables[..n - 1], pages[..n - 1];
    forall k | 0 < k < n - 1 ensures Linked(ts, ps, matches, limit, k) {
      assert Linked(tables, pages, matches, limit, k);
    }
  }

  /** After any number of pages, what was shown is a prefix of the list, and the cursor names its end. */
  ghost predicate Shown<T>(s: seq<RunRow<T>>, pages: seq<Page<T>>) {
    var shown := |Items(pages)|;
    && |pages| > 0 && shown <= |s| && Items(pages) == s[..shown]
    && (shown < |s| ==> shown >= |pages|)
    && pages[|pages| - 1].next == (if 0 < shown < |s| then Some(KeyOf(s[shown - 1])) else None)
  }

  lemma ShowOneMore<T>(s: seq<RunRow<T>>, pages: seq<Page<T>>, limit: nat)
    requires |pages| > 0 && limit > 0
    requires |pages| > 1 ==> Shown(s, pages[..|pages| - 1]) && pages[|pages| - 2].next.Some?
    requires var i := |Items(pages[..|pages| - 1])|;
             i <= |s| && pages[|pages| - 1] ==
               if i + limit < |s| then Page(s[i..i + limit], Some(KeyOf(s[i + limit - 1]))) else Page(s[i..], None)
    ensures Shown(s, pages)
  {
    var before := pages[..|pages| - 1];
    if |pages| > 1 { assert before[|before| - 1] == pages[|pages| - 2]; }
    var i := |Items(before)|;
    assert s[..i] + s[i..] == s;
    if i + limit < |s| { assert s[..i] + s[i..i + limit] == s[..i + limit]; }
    assert s[..|s|] == s;
  }

  lemma {:induction false} PagesAreBlocks<T(!new)>(tables: seq<seq<RunRow<T>>>, pages: seq<Page<T>>,
                                                   matches: RunRow<T> -> bool, limit: nat)
    requires Follows(tables, pages, matches, limit) && limit > 0 && IdsAreUnique(tables[0])
    ensures Shown(Ordered(Select(tables[0], matches)), pages)
    decreases |pages|
  {
    hide Ordered, Select, IdsAreUnique, ListRuns;
    var n := |pages|;
    var s := Ordered(Select(tables[0], matches));
    if n == 1 {
      assert OnlyNewerAdded(tables[0], tables[0]);
      NextPage(tables[0], tables[0], matches, 0, limit);
    } else {
      hide OnlyNewerAdded, Follows;
      PrefixFollows(tables, pages, matches, limit);
      PagesAreBlocks(tables[..n - 1], pages[..n - 1], matches, limit);
      NextPage(tables[0], tables[n - 1], matches, |Items(pages[..n - 1])|, limit);
    }
    ShowOneMore(s, pages, limit);
  }

  lemma ShownEnds<T>(s: seq<RunRow<T>>, pages: seq<Page<T>>)
    requires Shown(s, pages)
    ensures pages[|pages| - 1].next.None? ==> Items(pages) == s
    ensures pages[|pages| - 1].next.Some? ==> |pages| < |s|
  {
    hide Items;
    assert s[..|s|] == s;
  }

  /**
   Following the cursors until there is none shows every run that matched at the start
   exactly once and newest first, whatever the limit and whatever newer runs came in.
   */
  lemma PagesShowEveryRunOnce<T(!new)>(tables: seq<seq<RunRow<T>>>, pages: seq<Page<T>>, matches: RunRow<T> -> bool,
                                       limit: nat)
    requires Follows(tables, pages, matches, limit) && limit > 0 && IdsAreUnique(tables[0])
    requires pages[|pages| - 1].next.None?
    ensures multiset(Items(pages)) == multiset(Select(tables[0], matches)) && StrictlyNewerFirst(Items(pages))
  {
    PagesAreBlocks(tables, pages, matches, limit);
    SelectionIsUnique(tables[0], matches);
    hide *;
    ShownEnds(Ordered(Select(tables[0], matches)), pages);
    OrderedIsStrict(Select(tables[0], matches));
  }

  /** The cursors run out: there are never more pages than matching runs, or one page when there is none. */
  lemma CursorsRunOut<T(!new)>(tables: seq<seq<RunRow<T>>>, pages: seq<Page<T>>, matches: RunRow<T> -> bool, limit: nat)
    requires Follows(tables, pages, matches, limit) && limit > 0 && IdsAreUnique(tables[0])
    ensures |pages| <= 1 || |pages| <= |Select(tables[0], matches)|
  {
    var n := |pages|;
    if n > 1 {
      PrefixFollows(tables, pages, matches, limit);
      PagesAreBlocks(tables[..n - 1], pages[..n - 1], matches, limit);
      hide Ordered, Select, IdsAreUnique, ListRuns, Follows, Items, Shown, OnlyNewerAdded;
      ShownEnds(Ordered(Select(tables[0], matches)), pages[..n - 1]);
      SameLength(Select(tables[0], matches));
    }
  }

  lemma SameLength<T>(s: seq<RunRow<T>>)
    ensures |Ordered(s)| == |s|
  {
    SortPermutes(s, (a, b) => NewerFirst(a, b));
  }
}
