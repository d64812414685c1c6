/**
 The run list as a client sees it: pages that carry their cursor as text, each asked for
 with the text that the page before gave.
 */
module RunListing {
  import opened Outcomes
  import opened Sorting
  import opened RunPages
  import C = RunCursor

  datatype TextPage<T> = TextPage(items: seq<RunRow<T>>, next: Option<string>)

  /** How the platform writes and reads times and run ids. */
  type Writing = C.Texts<Time, RunId>

  function WriteCursor(x: Writing, c: Cursor): string {
    C.EncodeCursor(x, c.createdAt, c.id)
  }

  function WritePage<T>(x: Writing, page: Page<T>): TextPage<T> {
    TextPage(page.items, match page.next case None => None case Some(c) => Some(WriteCursor(x, c)))
  }

  /** `list_runs` with its cursor as text; an empty text asks for the first page. */
  function ListByText<T>(x: Writing, table: seq<RunRow<T>>, matches: RunRow<T> -> bool, cursor: Option<string>,
                         limit: nat)
    : Result<TextPage<T>, C.CursorError>
  {
    if cursor.None? || cursor.value == "" then Ok(WritePage(x, ListRuns(table, matches, None, limit)))
    else
      match C.DecodeCursor(x, cursor.value)
      case Err(e) => Err(e)
      case Ok((createdAt, id)) => Ok(WritePage(x, ListRuns(table, matches, Some(Cursor(createdAt, id)), limit)))
  }

  lemma WrittenIsNotEmpty(x: Writing, c: Cursor)
    requires C.Faithful(x)
    ensures WriteCursor(x, c) != ""
  {
    C.CursorIsNotEmpty(x, c.createdAt, c.id);
  }

  /** A written cursor asks for the page it names exactly when its time carries a zone, and is refused otherwise. */
  lemma WrittenCursorIsRead<T>(x: Writing, table: seq<RunRow<T>>, matches: RunRow<T> -> bool, c: Cursor, limit: nat)
    requires C.Faithful(x)
    ensures ListByText(x, table, matches, Some(WriteCursor(x, c)), limit) ==
            if x.hasZone(c.createdAt) then Ok(WritePage(x, ListRuns(table, matches, Some(c), limit)))
            else Err(C.InvalidCursor)
  {
    hide ListRuns, C.EncodeCursor, C.DecodeCursor;
    C.CursorRoundTrip(x, c.createdAt, c.id);
    WrittenIsNotEmpty(x, c);
    hide C.Faithful;
  }

  /** The platform stores times with their zone. */
  ghost predicate TimesHaveZones<T(!new)>(x: Writing, table: seq<RunRow<T>>) {
    forall r :: r in table ==> x.hasZone(r.createdAt)
  }

  /** A cursor names a row of the table it was read from. */
  lemma NextIsInTable<T(!new)>(table: seq<RunRow<T>>, matches: RunRow<T> -> bool, cursor: Option<Cursor>, limit: nat)
    requires ListRuns(table, matches, cursor, limit).next.Some?
    ensures exists r :: r in table && KeyOf(r) == ListRuns(table, matches, cursor, limit).next.value
  {
    var matching := Matching(table, matches, cursor);
    var ordered := Ordered(matching);
    SortPermutes(matching, (a, b) => NewerFirst(a, b));
    var last := ordered[limit - 1];
    assert KeyOf(last) == ListRuns(table, matches, cursor, limit).next.value by {
      var rows := if |ordered| > limit + 1 then ordered[..limit + 1] else ordered;
      assert rows[..limit][limit - 1] == last;
    }
    assert last in multiset(ordered);
    match cursor {
      case None => SelectHas(table, matches, last);
      case Some(c) => SelectHas(table, r => matches(r) && Behind(r, c), last);
    }
  }

  // ---------------------------------------------------------------------
  // Following the written cursors
  // ---------------------------------------------------------------------

  ghost predicate LinkedByText<T(!new)>(x: Writing, tables: seq<seq<RunRow<T>>>, texts: seq<TextPage<T>>,
                                        matches: RunRow<T> -> bool, limit: nat, k: nat)
    requires |tables| == |texts| > k > 0
  {
    && OnlyNewerAdded(tables[0], tables[k])
    && texts[k - 1].next.Some? && ListByText(x, tables[k], matches, texts[k - 1].next, limit) == Ok(texts[k])
  }

  /** Each page was asked for with the text of the one before, while only newer rows came in. */
  ghost predicate FollowsByText<T(!new)>(x: Writing, tables: seq<seq<RunRow<T>>>, texts: seq<TextPage<T>>,
                                         matches: RunRow<T> -> bool, limit: nat)
  {
    && |tables| == |texts| > 0
    && ListByText(x, tables[0], matches, None, limit) == Ok(texts[0])
    && forall k :: 0 < k < |texts| ==> LinkedByText(x, tables, texts, matches, limit, k)
  }

  lemma TextPrefixFollows<T(!new)>(x: Writing, tables: seq<seq<RunRow<T>>>, texts: seq<TextPage<T>>,
                                   matches: RunRow<T> -> bool, limit: nat)
    requires FollowsByText(x, tables, texts, matches, limit) && |texts| > 1
    ensures var n := |texts|;
            FollowsByText(x, tables[..n - 1], texts[..n - 1], matches, limit)
              && LinkedByText(x, tables, texts, matches, limit, n - 1)
  {
    hide ListByText, OnlyNewerAdded;
    var n := |texts|;
    var ts, ps := tables[..n - 1], texts[..n - 1];
    forall k | 0 < k < n - 1 ensures LinkedByText(x, ts, ps, matches, limit, k) {
      assert LinkedByText(x, tables, texts, matches, limit, k);
    }
  }

  /** The written pages of a list of pages. */
  ghost predicate AreWritten<T>(x: Writing, pages: seq<Page<T>>, texts: seq<TextPage<T>>) {
    |pages| == |texts| && forall k :: 0 <= k < |pages| ==> texts[k] == WritePage(x, pages[k])
  }

  lemma OnePageMore<T(!new)>(x: Writing, tables: seq<seq<RunRow<T>>>, pages: seq<Page<T>>, page: Page<T>,
                             matches: RunRow<T> -> bool, limit: nat)
    requires |tables| == |pages| + 1 > 1 && Follows(tables[..|pages|], pages, matches, limit)
    requires OnlyNewerAdded(tables[0], tables[|pages|]) && pages[|pages| - 1].next.Some?
    requires page == ListRuns(tables[|pages|], matches, pages[|pages| - 1].next, limit)
    ensures Follows(tables, pages + [page], matches, limit)
  {
    hide ListRuns, OnlyNewerAdded;
    var all := pages + [page];
    forall k | 0 < k < |all| ensures Linked(tables, all, matches, limit, k) {
      if k < |pages| { assert Linked(tables[..|pages|], pages, matches, limit, k); }
    }
  }

  /** Pages that follow each other by text are written pages that follow each other by cursor. */
  lemma {:induction false} TextPagesArePages<T(!new)>(x: Writing, tables: seq<seq<RunRow<T>>>, texts: seq<TextPage<T>>,
                                                      matches: RunRow<T> -> bool, limit: nat)
    returns (pages: seq<Page<T>>)
    requires C.Faithful(x) && FollowsByText(x, tables, texts, matches, limit)
    requires forall k :: 0 <= k < |tables| ==> TimesHaveZones(x, tables[k])
    ensures Follows(tables, pages, matches, limit) && AreWritten(x, pages, texts)
    ensures var n := |pages|;
            n > 0 && (pages[n - 1].next.Some? ==> exists r :: r in tables[n - 1] && KeyOf(r) == pages[n - 1].next.value)
    decreases |texts|
  {
    hide ListRuns, C.Faithful, C.EncodeCursor, C.DecodeCursor, OnlyNewerAdded;
    var n := |texts|;
    if n == 1 {
      pages := [ListRuns(tables[0], matches, None, limit)];
      if pages[0].next.Some? { NextIsInTable(tables[0], matches, None, limit); }
    } else {
      TextPrefixFollows(x, tables, texts, matches, limit);
      hide FollowsByText, ListByText, Follows;
      var before := TextPagesArePages(x, tables[..n - 1], texts[..n - 1], matches, limit);
      var cursor := before[n - 2].next;
      assert texts[n - 2] == WritePage(x, before[n - 2]);
      WrittenCursorIsRead(x, tables[n - 1], matches, cursor.value, limit);
      var page := ListRuns(tables[n - 1], matches, cursor, limit);
      OnePageMore(x, tables, before, page, matches, limit);
      pages := before + [page];
      if page.next.Some? { NextIsInTable(tables[n - 1], matches, cursor, limit); }
    }
  }

  function TextItems<T>(texts: seq<TextPage<T>>): seq<RunRow<T>> {
    if |texts| == 0 then [] else TextItems(texts[..|texts| - 1]) + texts[|texts| - 1].items
  }

  lemma {:induction false} WrittenItems<T>(x: Writing, pages: seq<Page<T>>, texts: seq<TextPage<T>>)
    requires AreWritten(x, pages, texts)
    ensures TextItems(texts) == Items(pages)
  {
    hide WriteCursor;
    if |pages| > 0 { WrittenItems(x, pages[..|pages| - 1], texts[..|texts| - 1]); }
  }

  /**
   Sending each page's cursor text back until there is none shows every run that matched at
   the start exactly once and newest first; no text on the way is ever refused.
   */
  lemma WrittenPagesShowEveryRunOnce<T(!new)>(x: Writing, tables: seq<seq<RunRow<T>>>, texts: seq<TextPage<T>>,
                                              matches: RunRow<T> -> bool, limit: nat, table: seq<RunRow<T>>)
    requires C.Faithful(x) && FollowsByText(x, tables, texts, matches, limit) && limit > 0 && IdsAreUnique(tables[0])
    requires forall k :: 0 <= k < |tables| ==> TimesHaveZones(x, tables[k])
    ensures texts[|texts| - 1].next.None? ==>
              multiset(TextItems(texts)) == multiset(Select(tables[0], matches)) && StrictlyNewerFirst(TextItems(texts))
    ensures texts[|texts| - 1].next.Some? ==> ListByText(x, table, matches, texts[|texts| - 1].next, limit).Ok?
  {
    var pages := TextPagesArePages(x, tables, texts, matches, limit);
    hide Follows, FollowsByText, IdsAreUnique, ListRuns, C.Faithful, ListByText, C.EncodeCursor;
    var last := pages[|pages| - 1];
    assert texts[|texts| - 1] == WritePage(x, last);
    WrittenItems(x, pages, texts);
    if last.next.None? {
      PagesShowEveryRunOnce(tables, pages, matches, limit);
    } else {
      WrittenCursorIsRead(x, table, matches, last.next.value, limit);
    }
  }
}
