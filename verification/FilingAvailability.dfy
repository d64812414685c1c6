/**
 When a statement became public: the SEC filing client with its cache of answers, and
 the composite that asks several resolvers in turn. Documents come from a function that
 stands for the downloads, each of which may also fail.
 */
module FilingAvailability {
  import opened Outcomes
  import opened StatementIntegrity

  /** A filing row, as far as it has the columns. */
  type FilingRow = map<string, Data>

  /** One entry of a columnar table; only a list counts as a column. */
  datatype Column = Column(name: string, value: Data)

  /** A table as it was decoded; none when it is no dict. */
  type Table = Option<seq<Column>>

  function CellsOf(c: Column): seq<Data> {
    if c.value.Arr? then c.value.items else []
  }

  function LongestColumn(columns: seq<Column>): (n: nat)
    ensures forall i :: 0 <= i < |columns| ==> |CellsOf(columns[i])| <= n
    ensures n > 0 ==> exists i :: 0 <= i < |columns| && |CellsOf(columns[i])| == n
  {
    if |columns| == 0 then 0
    else
      var before, last := LongestColumn(columns[..|columns| - 1]), |CellsOf(columns[|columns| - 1])|;
      if before > last then before else last
  }

  function RowAt(columns: seq<Column>, index: nat): FilingRow {
    if |columns| == 0 then map[]
    else
      var before, last := RowAt(columns[..|columns| - 1], index), columns[|columns| - 1];
      if index < |CellsOf(last)| then before[last.name := CellsOf(last)[index]] else before
  }

  /** `_columnar_rows`. */
  function ColumnarRows(table: Table): seq<FilingRow> {
    match table
    case None => []
    case Some(columns) => seq(LongestColumn(columns), i requires 0 <= i => RowAt(columns, i))
  }

  /** Every cell of every column is found in its row, under its name, and rows hold nothing else. */
  lemma {:induction false} RowHoldsColumns(columns: seq<Column>, index: nat, k: nat)
    requires k < |columns| && forall i, j :: 0 <= i < j < |columns| ==> columns[i].name != columns[j].name
    ensures columns[k].name in RowAt(columns, index) <==> index < |CellsOf(columns[k])|
    ensures index < |CellsOf(columns[k])| ==> RowAt(columns, index)[columns[k].name] == CellsOf(columns[k])[index]
    ensures forall name :: name in RowAt(columns, index) ==> exists i :: 0 <= i < |columns| && columns[i].name == name
  {
    hide CellsOf;
    var before, last := columns[..|columns| - 1], columns[|columns| - 1];
    if |before| > 0 {
      RowHoldsColumns(before, index, if k < |before| then k else 0);
      forall name | name in RowAt(columns, index) ensures exists i :: 0 <= i < |columns| && columns[i].name == name {
        if name != last.name {
          var i :| 0 <= i < |before| && before[i].name == name;
          assert columns[i].name == name;
        } else {
          assert columns[|before|].name == name;
        }
      }
      assert forall i :: 0 <= i < |before| ==> before[i].name == columns[i].name != columns[|before|].name;
    }
  }

  /**
   A table has as many rows as its longest list, row `i` holds the `i`-th cell of each list that
   long, and what is no list is dropped.
   */
  lemma RowsAreTheCells(columns: seq<Column>, index: nat, k: nat)
    requires k < |columns| && forall i, j :: 0 <= i < j < |columns| ==> columns[i].name != columns[j].name
    ensures var rows, c := ColumnarRows(Some(columns)), columns[k];
            && (index < |rows| <==>
                  exists i :: 0 <= i < |columns| && columns[i].value.Arr? && index < |columns[i].value.items|)
            && (index < |rows| ==>
                  && (c.name in rows[index] <==> c.value.Arr? && index < |c.value.items|)
                  && (c.name in rows[index] ==> rows[index][c.name] == c.value.items[index])
                  && forall name :: name in rows[index] ==> exists i :: 0 <= i < |columns| && columns[i].name == name)
  {
    hide RowAt, LongestColumn;
    RowHoldsColumns(columns, index, k);
    var rows := ColumnarRows(Some(columns));
    if index < |rows| {
      var i :| 0 <= i < |columns| && |CellsOf(columns[i])| == |rows|;
      assert columns[i].value.Arr? && index < |columns[i].value.items|;
    }
    forall i | 0 <= i < |columns| && columns[i].value.Arr? ensures |columns[i].value.items| <= |rows| {
      assert |CellsOf(columns[i])| <= |rows|;
    }
  }

  /** The rows of the recent filings and of every further file. */
  function FilingRows(tables: seq<Table>): seq<FilingRow> {
    if |tables| == 0 then [] else FilingRows(tables[..|tables| - 1]) + ColumnarRows(tables[|tables| - 1])
  }

  /** A failed download is an error the composite catches; a form that cannot be hashed raises one it does not. */
  datatype Failure = DownloadFailed | UnhashableForm

  /** One resolver's reply: it may raise. */
  type Reply = Result<Option<Availability>, Failure>

  // ---------------------------------------------------------------------
  // The SEC client
  // ---------------------------------------------------------------------

  /** `ciks` gives all identifiers of a ticker, `tables` the recent filings and further files of an identifier. */
  datatype Documents = Documents(
    upper: string -> string,
    ciks: string -> seq<string>,
    tables: string -> seq<Table>,
    showDate: Date -> string,
    parseDate: string -> Option<Date>)

  function Forms(frequency: string): set<string> {
    if frequency == "annual" then {"10-K", "20-F", "40-F"} else {"10-Q", "6-K"}
  }

  function TextAt(row: FilingRow, name: string): Option<string> {
    if name in row && row[name].Str? then Some(row[name].text) else None
  }

  /** Looking such a form up in the set of forms raises. */
  predicate HasUnhashableForm(row: FilingRow) {
    "form" in row && (row["form"].Arr? || row["form"].Dict?)
  }

  /** The filing date of a row that reports this fiscal end in a fitting form. */
  function FilingDate(d: Documents, row: FilingRow, fiscalEnd: Date, frequency: string): Option<Date> {
    match (TextAt(row, "form"), TextAt(row, "reportDate"), TextAt(row, "filingDate"))
    case (Some(form), Some(reported), Some(filed)) =>
      if form in Forms(frequency) && reported == d.showDate(fiscalEnd) then d.parseDate(filed) else None
    case _ => None
  }

  function Earliest(d: Documents, rows: seq<FilingRow>, fiscalEnd: Date, frequency: string): Option<Date> {
    if |rows| == 0 then None
    else
      var before := Earliest(d, rows[..|rows| - 1], fiscalEnd, frequency);
      match (before, FilingDate(d, rows[|rows| - 1], fiscalEnd, frequency))
      case (Some(a), Some(b)) => Some(if b < a then b else a)
      case (Some(a), None) => Some(a)
      case (None, b) => b
  }

  /** What the documents say about a ticker in upper case. */
  function Answer(d: Documents, ticker: string, fiscalEnd: Date, frequency: string): Option<Availability> {
    if |d.ciks(ticker)| != 1 then None
    else
      match Earliest(d, FilingRows(d.tables(d.ciks(ticker)[0])), fiscalEnd, frequency)
      case None => None
      case Some(date) => Some(Availability(date, Sec))
  }

  /** `e` is the earliest of the fitting filing dates: some row was filed then, and none before. */
  ghost predicate IsEarliest(d: Documents, rows: seq<FilingRow>, fiscalEnd: Date, frequency: string, e: Option<Date>) {
    && (e.None? ==> forall i :: 0 <= i < |rows| ==> FilingDate(d, rows[i], fiscalEnd, frequency).None?)
    && (e.Some? ==> exists i :: 0 <= i < |rows| && FilingDate(d, rows[i], fiscalEnd, frequency) == e)
    && (e.Some? ==> forall i :: 0 <= i < |rows| && FilingDate(d, rows[i], fiscalEnd, frequency).Some? ==>
          e.value <= FilingDate(d, rows[i], fiscalEnd, frequency).value)
  }

  lemma OneMoreRow(d: Documents, rows: seq<FilingRow>, fiscalEnd: Date, frequency: string, e: Option<Date>)
    requires |rows| > 0 && IsEarliest(d, rows[..|rows| - 1], fiscalEnd, frequency, e)
    ensures var last := FilingDate(d, rows[|rows| - 1], fiscalEnd, frequency);
            IsEarliest(d, rows, fiscalEnd, frequency,
                       if last.Some? && (e.None? || last.value < e.value) then last else e)
  {
    hide FilingDate;
    var before := rows[..|rows| - 1];
    if e.Some? {
      var i :| 0 <= i < |before| && FilingDate(d, before[i], fiscalEnd, frequency) == e;
      assert FilingDate(d, rows[i], fiscalEnd, frequency) == e;
    }
    forall i | 0 <= i < |before|
      ensures FilingDate(d, rows[i], fiscalEnd, frequency) == FilingDate(d, before[i], fiscalEnd, frequency)
    {
      assert before[i] == rows[i];
    }
  }

  /** The answer is the earliest fitting filing. */
  lemma {:induction false} EarliestIsFirstFiling(d: Documents, rows: seq<FilingRow>, fiscalEnd: Date, frequency: string)
    ensures IsEarliest(d, rows, fiscalEnd, frequency, Earliest(d, rows, fiscalEnd, frequency))
  {
    if |rows| > 0 {
      hide FilingDate, IsEarliest;
      EarliestIsFirstFiling(d, rows[..|rows| - 1], fiscalEnd, frequency);
      OneMoreRow(d, rows, fiscalEnd, frequency, Earliest(d, rows[..|rows| - 1], fiscalEnd, frequency));
    }
  }

  ghost predicate IsForm(form: string, frequency: string) {
    if frequency == "annual" then form == "10-K" || form == "20-F" || form == "40-F"
    else form == "10-Q" || form == "6-K"
  }

  /** A row of a statement for this fiscal end, in a form of the frequency, that was filed on this date. */
  ghost predicate IsFiling(d: Documents, row: FilingRow, fiscalEnd: Date, frequency: string, filed: Date) {
    && "form" in row && row["form"].Str? && IsForm(row["form"].text, frequency)
    && "reportDate" in row && row["reportDate"] == Str(d.showDate(fiscalEnd))
    && "filingDate" in row && row["filingDate"].Str? && d.parseDate(row["filingDate"].text) == Some(filed)
  }

  lemma FilingIsColumns(d: Documents, row: FilingRow, fiscalEnd: Date, frequency: string)
    ensures forall filed :: FilingDate(d, row, fiscalEnd, frequency) == Some(filed)
                            <==> IsFiling(d, row, fiscalEnd, frequency, filed)
  {
  }

  /** The row stands in one of the tables. */
  ghost predicate IsListed(tables: seq<Table>, row: FilingRow) {
    exists k :: 0 <= k < |tables| && row in ColumnarRows(tables[k])
  }

  lemma {:induction false} RowsOfTables(tables: seq<Table>, row: FilingRow)
    ensures row in FilingRows(tables) <==> IsListed(tables, row)
  {
    hide ColumnarRows;
    if |tables| > 0 {
      var before, last := tables[..|tables| - 1], tables[|tables| - 1];
      RowsOfTables(before, row);
      OneMoreTable(before, last, row);
      assert tables == before + [last];
      InParts(FilingRows(before), ColumnarRows(last), row);
    }
  }

  lemma InParts(a: seq<FilingRow>, b: seq<FilingRow>, row: FilingRow)
    ensures row in a + b <==> row in a || row in b
  {
  }

  lemma OneMoreTable(before: seq<Table>, last: Table, row: FilingRow)
    ensures IsListed(before + [last], row) <==> IsListed(before, row) || row in ColumnarRows(last)
  {
    hide ColumnarRows;
    var all := before + [last];
    assert forall k :: 0 <= k < |before| ==> all[k] == before[k];
    assert all[|before|] == last;
  }

  /** A listed filing of the statement was made on this date, and none before. */
  ghost predicate IsFirstFiling(d: Documents, tables: seq<Table>, fiscalEnd: Date, frequency: string, date: Date) {
    && (exists row :: IsListed(tables, row) && IsFiling(d, row, fiscalEnd, frequency, date))
    && (forall row, other :: IsListed(tables, row) && IsFiling(d, row, fiscalEnd, frequency, other) ==> date <= other)
  }

  lemma EarliestIsFirst(d: Documents, tables: seq<Table>, fiscalEnd: Date, frequency: string, date: Date)
    ensures Earliest(d, FilingRows(tables), fiscalEnd, frequency) == Some(date) <==>
            IsFirstFiling(d, tables, fiscalEnd, frequency, date)
  {
    hide Earliest, FilingDate, IsFiling, FilingRows, IsListed, IsEarliest;
    var rows := FilingRows(tables);
    forall row ensures row in rows <==> IsListed(tables, row) { RowsOfTables(tables, row); }
    forall row, filed
      ensures FilingDate(d, row, fiscalEnd, frequency) == Some(filed) <==>
              IsFiling(d, row, fiscalEnd, frequency, filed)
    {
      FilingIsColumns(d, row, fiscalEnd, frequency);
    }
    EarliestIsFirstFiling(d, rows, fiscalEnd, frequency);
    EarliestAmong(d, rows, fiscalEnd, frequency, Earliest(d, rows, fiscalEnd, frequency), date);
  }

  lemma EarliestAmong(d: Documents, rows: seq<FilingRow>, fiscalEnd: Date, frequency: string, e: Option<Date>,
                      date: Date)
    requires IsEarliest(d, rows, fiscalEnd, frequency, e)
    ensures e == Some(date) <==>
            && (exists row :: row in rows && FilingDate(d, row, fiscalEnd, frequency) == Some(date))
            && (forall row :: row in rows && FilingDate(d, row, fiscalEnd, frequency).Some? ==>
                  date <= FilingDate(d, row, fiscalEnd, frequency).value)
  {
    hide FilingDate;
  }

  /**
   A ticker's statement became available on a date exactly when the ticker has one identifier,
   a filing of that identifier was made then, and none before.
   */
  lemma AnswerIsFirstFiling(d: Documents, ticker: string, fiscalEnd: Date, frequency: string)
    ensures forall date :: Answer(d, ticker, fiscalEnd, frequency) == Some(Availability(date, Sec)) <==>
              |d.ciks(ticker)| == 1
              && IsFirstFiling(d, d.tables(d.ciks(ticker)[0]), fiscalEnd, frequency, date)
    ensures var answer := Answer(d, ticker, fiscalEnd, frequency); answer.Some? ==> answer.value.source == Sec
  {
    hide Earliest, FilingRows, IsFirstFiling;
    if |d.ciks(ticker)| == 1 {
      forall date
        ensures Earliest(d, FilingRows(d.tables(d.ciks(ticker)[0])), fiscalEnd, frequency) == Some(date) <==>
                IsFirstFiling(d, d.tables(d.ciks(ticker)[0]), fiscalEnd, frequency, date)
      {
        EarliestIsFirst(d, d.tables(d.ciks(ticker)[0]), fiscalEnd, frequency, date);
      }
    }
  }

  /**
   The client with its caches: the ticker table once it was loaded, and the answers. A download
   that fails raises and leaves no answer behind; whatever was asked before, an answer is the
   documents' answer.
   */
  class SecFilingClient {
    const documents: Documents
    var tickersLoaded: bool
    var resolved: map<(string, Date, string), Option<Availability>>

    ghost predicate Valid()
      reads this
    {
      forall key :: key in resolved ==> resolved[key] == Answer(documents, key.0, key.1, key.2)
    }

    constructor (documents: Documents)
      ensures Valid() && this.documents == documents && !tickersLoaded && resolved == map[]
    {
      this.documents := documents;
      tickersLoaded := false;
      resolved := map[];
    }

    /**
     What keeps the client from an answer: a download that fails, the ticker table or the filings
     of the one identifier, or a filing whose form cannot be hashed.
     */
    function Obstacle(loaded: bool, ticker: string, tickersReachable: bool, filingsReachable: bool): Option<Failure> {
      if !loaded && !tickersReachable then Some(DownloadFailed)
      else if |documents.ciks(ticker)| != 1 then None
      else if !filingsReachable then Some(DownloadFailed)
      else if exists row :: row in FilingRows(documents.tables(documents.ciks(ticker)[0])) && HasUnhashableForm(row)
        then Some(UnhashableForm)
      else None
    }

    /** `tickersReachable` and `filingsReachable` say whether the two downloads would succeed now. */
    method Resolve(ticker: string, fiscalEnd: Date, frequency: string, tickersReachable: bool, filingsReachable: bool)
      returns (reply: Reply)
      requires Valid()
      modifies this`resolved, this`tickersLoaded
      ensures Valid()
      ensures var key := (documents.upper(ticker), fiscalEnd, frequency);
              var obstacle := Obstacle(old(tickersLoaded), key.0, tickersReachable, filingsReachable);
              reply == if key !in old(resolved) && obstacle.Some? then Err(obstacle.value)
                       else Ok(Answer(documents, key.0, fiscalEnd, frequency))
      ensures var key := (documents.upper(ticker), fiscalEnd, frequency);
              resolved == (if reply.Ok? then old(resolved)[key := reply.value] else old(resolved))
      ensures tickersLoaded <==>
              old(tickersLoaded)
                || ((documents.upper(ticker), fiscalEnd, frequency) !in old(resolved) && tickersReachable)
    {
      hide FilingDate, FilingRows;
      var key := (documents.upper(ticker), fiscalEnd, frequency);
      if key in resolved {
        assert resolved[key := resolved[key]] == resolved;
        return Ok(resolved[key]);
      }
      if !tickersLoaded {
        if !tickersReachable { return Err(DownloadFailed); }
        tickersLoaded := true;
      }
      var ciks := documents.ciks(key.0);
      if |ciks| != 1 {
        resolved := resolved[key := None];
        return Ok(None);
      }
      if !filingsReachable { return Err(DownloadFailed); }
      var rows := FilingRows(documents.tables(ciks[0]));
      var earliest: Option<Date> := None;
      for k := 0 to |rows|
        invariant earliest == Earliest(documents, rows[..k], fiscalEnd, frequency)
        invariant forall i :: 0 <= i < k ==> !HasUnhashableForm(rows[i])
      {
        assert rows[..k + 1][..k] == rows[..k];
        if HasUnhashableForm(rows[k]) {
          assert rows[k] in rows;
          return Err(UnhashableForm);
        }
        var filed := FilingDate(documents, rows[k], fiscalEnd, frequency);
        if filed.Some? && (earliest.None? || filed.value < earliest.value) { earliest := filed; }
      }
      assert rows[..|rows|] == rows;
      var availability := match earliest case Some(date) => Some(Availability(date, Sec)) case None => None;
      resolved := resolved[key := availability];
      reply := Ok(availability);
    }
  }

  // ---------------------------------------------------------------------
  // The composite
  // ---------------------------------------------------------------------

  /** A resolver after which the composite asks the next one. */
  predicate IsPassedOver(reply: Reply) {
    reply == Err(DownloadFailed) || reply == Ok(None)
  }

  /** The first reply that is not passed over: an answer, or a raise that is not caught. */
  method ResolveFirst(replies: seq<Reply>) returns (outcome: Reply)
    ensures (outcome == Ok(None) && forall i :: 0 <= i < |replies| ==> IsPassedOver(replies[i]))
            || exists k :: 0 <= k < |replies| && outcome == replies[k] && !IsPassedOver(outcome)
                 && forall i :: 0 <= i < k ==> IsPassedOver(replies[i])
  {
    for k := 0 to |replies|
      invariant forall i :: 0 <= i < k ==> IsPassedOver(replies[i])
    {
      if replies[k] == Err(DownloadFailed) { continue; }
      if replies[k].Err? || replies[k].value.Some? { return replies[k]; }
    }
    return Ok(None);
  }
}
