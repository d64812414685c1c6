/**
 Point-in-time integrity of financial statements: the live filter that drops rows not
 published by the analysis date, the retrospective audit of recorded output, and the
 recorder that joins all findings into one status.
 */
module StatementIntegrity {
  import opened Outcomes
  import opened Sorting

  type Date = int

  /** A decoded JSON value; a dict is unordered, as comparisons of decoded texts are. */
  datatype Data =
    | Null
    | Flag(flag: bool)
    | Num(lexeme: string)
    | Str(text: string)
    | Arr(items: seq<Data>)
    | Dict(entries: map<string, Data>)

  datatype Status = Safe | Unknown | AtRisk

  datatype Source = Sec | AlphaVantageEarnings

  datatype Availability = Availability(availableAt: Date, source: Source)

  datatype Finding = Finding(tool: string, status: Status, reason: string, fiscalEnd: Option<Date>,
      availability: Option<Availability>)

  /** What the code calls: `json.loads`, `json.dumps`, `date.fromisoformat` and the availability resolver. */
  datatype Services = Services(
    loads: string -> Option<Data>,
    dumps: Data -> string,
    parseDate: string -> Option<Date>,
    resolve: (string, Date, string) -> Option<Availability>)

  ghost predicate TextsRoundTrip(s: Services) {
    forall v :: s.loads(s.dumps(v)) == Some(v)
  }

  /** The fixed part of one filter or audit. */
  datatype Case = Case(services: Services, ticker: string, analysisDate: Date, tool: string)

  const EMPTY_NOTICE := Str("Historical statement data was unavailable under point-in-time.v1.")

  // ---------------------------------------------------------------------
  // One row
  // ---------------------------------------------------------------------

  function DateOf(c: Case, value: Option<Data>): Option<Date> {
    match value
    case Some(Str(text)) => c.services.parseDate(text)
    case _ => None
  }

  function FieldOf(entries: map<string, Data>, key: string): Option<Data> {
    if key in entries then Some(entries[key]) else None
  }

  datatype RowFact =
    | NotADict
    | NoFiscalDate
    | Unpublished(fiscalEnd: Date)
    | PublishedLater(fiscalEnd: Date, availability: Availability)
    | PublishedInTime(fiscalEnd: Date, availability: Availability)

  function FactOf(c: Case, row: Data, frequency: string): RowFact {
    if !row.Dict? then NotADict
    else
      match DateOf(c, FieldOf(row.entries, "fiscalDateEnding"))
      case None => NoFiscalDate
      case Some(end) =>
        match c.services.resolve(c.ticker, end, frequency)
        case None => Unpublished(end)
        case Some(a) => if a.availableAt > c.analysisDate then PublishedLater(end, a) else PublishedInTime(end, a)
  }

  /** The filter reports every row, kept or dropped, as safe. */
  function FilterFinding(c: Case, fact: RowFact): Finding {
    match fact
    case NotADict => Finding(c.tool, Safe, "unknown_schema_filtered", None, None)
    case NoFiscalDate => Finding(c.tool, Safe, "invalid_fiscal_date_filtered", None, None)
    case Unpublished(end) => Finding(c.tool, Safe, "publication_unverified_filtered", Some(end), None)
    case PublishedLater(end, a) => Finding(c.tool, Safe, "future_publication_filtered", Some(end), Some(a))
    case PublishedInTime(end, a) => Finding(c.tool, Safe, "publication_verified", Some(end), Some(a))
  }

  /** The audit judges a row that was exposed. */
  function AuditFinding(c: Case, fact: RowFact): Finding {
    match fact
    case NotADict => Finding(c.tool, Unknown, "statement_row_invalid", None, None)
    case NoFiscalDate => Finding(c.tool, Unknown, "fiscal_date_invalid", None, None)
    case Unpublished(end) => Finding(c.tool, Unknown, "publication_unverified", Some(end), None)
    case PublishedLater(end, a) => Finding(c.tool, AtRisk, "future_publication_exposed", Some(end), Some(a))
    case PublishedInTime(end, a) => Finding(c.tool, Safe, "publication_verified", Some(end), Some(a))
  }

  // ---------------------------------------------------------------------
  // The rows of one report
  // ---------------------------------------------------------------------

  function Kept(c: Case, rows: seq<Data>, frequency: string): seq<Data> {
    Select(rows, row => FactOf(c, row, frequency).PublishedInTime?)
  }

  function FilterFindings(c: Case, rows: seq<Data>, frequency: string): seq<Finding> {
    seq(|rows|, i requires 0 <= i < |rows| => FilterFinding(c, FactOf(c, rows[i], frequency)))
  }

  function AuditFindings(c: Case, rows: seq<Data>, frequency: string): seq<Finding> {
    seq(|rows|, i requires 0 <= i < |rows| => AuditFinding(c, FactOf(c, rows[i], frequency)))
  }

  /** The rows under a report key; anything but a list counts as none. */
  function RowsOf(entries: map<string, Data>, key: string): seq<Data> {
    if key in entries && entries[key].Arr? then entries[key].items else []
  }

  // ---------------------------------------------------------------------
  // Filter and audit of a whole output
  // ---------------------------------------------------------------------

  function EmptyPayload(c: Case): Data {
    Dict(map["symbol" := Str(c.ticker), "annualReports" := Arr([]), "quarterlyReports" := Arr([]),
        "integrityNotice" := EMPTY_NOTICE])
  }

  function WithReports(entries: map<string, Data>, annual: seq<Data>, quarterly: seq<Data>): map<string, Data> {
    var result := entries["annualReports" := Arr(annual)]["quarterlyReports" := Arr(quarterly)];
    if annual == [] && quarterly == [] then result["integrityNotice" := EMPTY_NOTICE] else result
  }

  function FilteredEntries(c: Case, entries: map<string, Data>): map<string, Data> {
    WithReports(entries, Kept(c, RowsOf(entries, "annualReports"), "annual"),
        Kept(c, RowsOf(entries, "quarterlyReports"), "quarterly"))
  }

  function NoRecords(c: Case, findings: seq<Finding>): seq<Finding> {
    if findings == [] then [Finding(c.tool, Safe, "no_statement_records", None, None)] else findings
  }

  function FilterPayload(c: Case, text: string): (Data, seq<Finding>) {
    match c.services.loads(text)
    case Some(Dict(entries)) =>
      (Dict(FilteredEntries(c, entries)),
       NoRecords(c, FilterFindings(c, RowsOf(entries, "annualReports"), "annual")
                    + FilterFindings(c, RowsOf(entries, "quarterlyReports"), "quarterly")))
    case _ => (EmptyPayload(c), [FilterFinding(c, NotADict)])
  }

  /** `filter_statement_payload`. */
  function FilterText(c: Case, text: string): (string, seq<Finding>) {
    (c.services.dumps(FilterPayload(c, text).0), FilterPayload(c, text).1)
  }

  /** `_mapping`: wrappers around a text or dict are removed. */
  function Mapping(c: Case, output: Data): Option<map<string, Data>> {
    match output
    case Dict(entries) => if "content" in entries then Mapping(c, entries["content"]) else Some(entries)
    case Str(text) => (match c.services.loads(text) case Some(Dict(entries)) => Some(entries) case _ => None)
    case _ => None
  }

  /** `_audit_financial_output`. */
  function AuditOutput(c: Case, output: Data): seq<Finding> {
    match Mapping(c, output)
    case None => [Finding(c.tool, Unknown, "statement_output_unparseable", None, None)]
    case Some(entries) =>
      NoRecords(c, AuditFindings(c, RowsOf(entries, "annualReports"), "annual")
                   + AuditFindings(c, RowsOf(entries, "quarterlyReports"), "quarterly"))
  }

  // ---------------------------------------------------------------------
  // The recorder
  // ---------------------------------------------------------------------

  function Priority(s: Status): nat {
    match s case Safe => 0 case Unknown => 1 case AtRisk => 2
  }

  function Worse(a: Status, b: Status): Status {
    if Priority(b) > Priority(a) then b else a
  }

  function WorstOf(findings: seq<Finding>): Status {
    if |findings| == 0 then Safe else Worse(WorstOf(findings[..|findings| - 1]), findings[|findings| - 1].status)
  }

  /** A run without findings is safe only when it looked at the present. */
  function Closing(historical: bool, findings: seq<Finding>): seq<Finding> {
    if findings != [] then findings
    else if historical then [Finding("run", Unknown, "no_observed_tools", None, None)]
    else [Finding("run", Safe, "live_current_snapshot", None, None)]
  }

  function Finalize(historical: bool, findings: seq<Finding>): Status {
    WorstOf(Closing(historical, findings))
  }

  predicate AllSafe(findings: seq<Finding>) {
    forall i :: 0 <= i < |findings| ==> findings[i].status == Safe
  }

  /** The status is the worst one recorded: no finding is worse, and some finding has it. */
  lemma {:induction false} WorstIsAttained(findings: seq<Finding>)
    ensures forall i :: 0 <= i < |findings| ==> Priority(findings[i].status) <= Priority(WorstOf(findings))
    ensures |findings| > 0 ==> exists i :: 0 <= i < |findings| && findings[i].status == WorstOf(findings)
    ensures WorstOf(findings) == Safe <==> AllSafe(findings)
  {
    if |findings| > 0 {
      var before := findings[..|findings| - 1];
      WorstIsAttained(before);
      if WorstOf(findings) != findings[|findings| - 1].status && |before| > 0 {
        var i :| 0 <= i < |before| && before[i].status == WorstOf(before);
        assert findings[i] == before[i];
      }
      forall i | 0 <= i < |findings| ensures Priority(findings[i].status) <= Priority(WorstOf(findings)) {
        if i < |before| { assert findings[i] == before[i]; }
      }
    }
  }

  lemma WorseIsAssociative(a: Status, b: Status, c: Status)
    ensures Worse(Worse(a, b), c) == Worse(a, Worse(b, c))
  {
  }

  lemma {:induction false} WorstOfConcat(a: seq<Finding>, b: seq<Finding>)
    ensures WorstOf(a + b) == Worse(WorstOf(a), WorstOf(b))
  {
    if |b| == 0 {
      assert a + b == a;
    } else {
      hide Worse;
      var before, last := b[..|b| - 1], b[|b| - 1];
      WorstOfConcat(a, before);
      assert (a + b)[..|a + b| - 1] == a + before;
      WorseIsAssociative(WorstOf(a), WorstOf(before), last.status);
    }
  }

  /** A run is at risk exactly when some finding is, unknown when none is at risk and some is unknown, else safe. */
  lemma StatusExactlyWhen(historical: bool, findings: seq<Finding>)
    ensures var atRisk := exists i :: 0 <= i < |findings| && findings[i].status == AtRisk;
            var unknown := exists i :: 0 <= i < |findings| && findings[i].status == Unknown;
            var status := Finalize(historical, findings);
            && (status == AtRisk <==> atRisk)
            && (status == Unknown <==> !atRisk && (unknown || (historical && findings == [])))
            && (status == Safe <==> !atRisk && !unknown && !(historical && findings == []))
  {
    WorstIsAttained(Closing(historical, findings));
    if findings == [] { assert Closing(historical, findings)[0].status == if historical then Unknown else Safe; }
  }

  /** Recording more never improves a status, and the order of recording does not matter. */
  lemma JoinOfParts(a: seq<Finding>, b: seq<Finding>)
    ensures WorstOf(a + b) == Worse(WorstOf(a), WorstOf(b)) && WorstOf(a + b) == WorstOf(b + a)
  {
    WorstOfConcat(a, b);
    WorstOfConcat(b, a);
  }

  // ---------------------------------------------------------------------
  // What the rows say
  // ---------------------------------------------------------------------

  /** The row is a dict whose fiscal date is the text of a date. */
  ghost predicate Ends(c: Case, row: Data, end: Date) {
    && row.Dict? && "fiscalDateEnding" in row.entries && row.entries["fiscalDateEnding"].Str?
    && c.services.parseDate(row.entries["fiscalDateEnding"].text) == Some(end)
  }

  /** The statement of the row became available, then and from there. */
  ghost predicate CameOut(c: Case, row: Data, frequency: string, end: Date, a: Availability) {
    Ends(c, row, end) && c.services.resolve(c.ticker, end, frequency) == Some(a)
  }

  ghost predicate WasPublished(c: Case, row: Data, frequency: string) {
    exists end, a :: CameOut(c, row, frequency, end, a) && a.availableAt <= c.analysisDate
  }

  ghost predicate CameLater(c: Case, row: Data, frequency: string) {
    exists end, a :: CameOut(c, row, frequency, end, a) && a.availableAt > c.analysisDate
  }

  lemma FactIsWhatRowSays(c: Case, row: Data, frequency: string)
    ensures var fact := FactOf(c, row, frequency);
            && (fact.NotADict? <==> !row.Dict?)
            && (fact.NoFiscalDate? <==> row.Dict? && forall end :: !Ends(c, row, end))
            && (forall end :: fact == Unpublished(end) <==>
                  Ends(c, row, end) && c.services.resolve(c.ticker, end, frequency) == None)
            && (forall end, a :: fact == PublishedLater(end, a) <==>
                  CameOut(c, row, frequency, end, a) && a.availableAt > c.analysisDate)
            && (forall end, a :: fact == PublishedInTime(end, a) <==>
                  CameOut(c, row, frequency, end, a) && a.availableAt <= c.analysisDate)
  {
    if row.Dict? {
      var date := DateOf(c, FieldOf(row.entries, "fiscalDateEnding"));
      assert forall end :: Ends(c, row, end) <==> date == Some(end);
      if date.Some? { assert Ends(c, row, date.value); }
    }
  }

  /** The filter keeps exactly the rows whose statement was published by the analysis date. */
  lemma KeptRowsWerePublished(c: Case, rows: seq<Data>, frequency: string, row: Data)
    ensures row in Kept(c, rows, frequency) <==> row in rows && WasPublished(c, row, frequency)
  {
    FactIsWhatRowSays(c, row, frequency);
    SelectHas(rows, r => FactOf(c, r, frequency).PublishedInTime?, row);
    hide FactOf, CameOut, Select;
    if FactOf(c, row, frequency).PublishedInTime? {
      var fact := FactOf(c, row, frequency);
      assert fact == PublishedInTime(fact.fiscalEnd, fact.availability);
    }
  }

  /** The audit calls a row safe, at risk or unknown exactly for what it says, and the finding tells its dates. */
  lemma AuditJudgesRows(c: Case, row: Data, frequency: string)
    ensures var f := AuditFinding(c, FactOf(c, row, frequency));
            && f.tool == c.tool
            && (f.status == Safe <==> WasPublished(c, row, frequency))
            && (f.status == AtRisk <==> CameLater(c, row, frequency))
            && (f.status == Unknown <==> !WasPublished(c, row, frequency) && !CameLater(c, row, frequency))
            && (forall end :: f.fiscalEnd == Some(end) <==> Ends(c, row, end))
            && (forall a :: f.availability == Some(a) <==> exists end :: CameOut(c, row, frequency, end, a))
  {
    FactIsWhatRowSays(c, row, frequency);
    hide FactOf;
    var fact := FactOf(c, row, frequency);
    match fact
    case PublishedLater(end, a) => assert CameOut(c, row, frequency, end, a);
    case PublishedInTime(end, a) => assert CameOut(c, row, frequency, end, a);
    case _ =>
  }

  /** Of a decoded dict only the reports change, and the notice is added exactly when nothing is left. */
  lemma FilterKeepsTheRest(c: Case, text: string, entries: map<string, Data>)
    requires c.services.loads(text) == Some(Dict(entries))
    ensures var result, annual, quarterly := FilterPayload(c, text).0,
                                             Kept(c, RowsOf(entries, "annualReports"), "annual"),
                                             Kept(c, RowsOf(entries, "quarterlyReports"), "quarterly");
            && result.Dict?
            && (forall key :: key !in {"annualReports", "quarterlyReports", "integrityNotice"} ==>
                  (key in result.entries <==> key in entries)
                  && (key in entries ==> result.entries[key] == entries[key]))
            && "annualReports" in result.entries && result.entries["annualReports"] == Arr(annual)
            && "quarterlyReports" in result.entries && result.entries["quarterlyReports"] == Arr(quarterly)
            && ("integrityNotice" in result.entries <==>
                  "integrityNotice" in entries || (annual == [] && quarterly == []))
            && (annual == [] && quarterly == [] ==> result.entries["integrityNotice"] == EMPTY_NOTICE)
  {
    KeysDiffer();
    hide Kept, RowsOf;
  }

  /** An output is judged alike bare, as its text, or wrapped as content. */
  lemma WrappingChangesNothing(c: Case, output: Data, entries: map<string, Data>, text: string)
    ensures AuditOutput(c, Dict(map["content" := output])) == AuditOutput(c, output)
    ensures "content" !in entries && c.services.loads(text) == Some(Dict(entries)) ==>
              AuditOutput(c, Str(text)) == AuditOutput(c, Dict(entries))
    ensures output.Null? || output.Flag? || output.Num? || output.Arr? ==>
              AuditOutput(c, output) == [Finding(c.tool, Unknown, "statement_output_unparseable", None, None)]
  {
    hide AuditFindings, RowsOf;
    assert Mapping(c, Dict(map["content" := output])) == Mapping(c, output);
  }

  // ---------------------------------------------------------------------
  // Filter against audit
  // ---------------------------------------------------------------------

  /** The filter keeps a row exactly when the audit would call it safe. */
  lemma FilterKeepsWhatAuditAccepts(c: Case, rows: seq<Data>, frequency: string, row: Data)
    ensures row in Kept(c, rows, frequency) <==>
            row in rows && AuditFinding(c, FactOf(c, row, frequency)).status == Safe
    ensures multiset(Kept(c, rows, frequency))[row] ==
            if AuditFinding(c, FactOf(c, row, frequency)).status == Safe then multiset(rows)[row] else 0
  {
    SelectHas(rows, r => FactOf(c, r, frequency).PublishedInTime?, row);
    SelectCounts(rows, r => FactOf(c, r, frequency).PublishedInTime?, row);
  }

  lemma KeptRowsAuditSafe(c: Case, rows: seq<Data>, frequency: string)
    ensures AllSafe(AuditFindings(c, Kept(c, rows, frequency), frequency))
  {
    var kept := Kept(c, rows, frequency);
    forall i | 0 <= i < |kept| ensures AuditFinding(c, FactOf(c, kept[i], frequency)).status == Safe {
      FilterKeepsWhatAuditAccepts(c, rows, frequency, kept[i]);
      assert kept[i] in kept;
    }
  }

  lemma FilteredRows(c: Case, entries: map<string, Data>)
    ensures var filtered := FilteredEntries(c, entries);
            && RowsOf(filtered, "annualReports") == Kept(c, RowsOf(entries, "annualReports"), "annual")
            && RowsOf(filtered, "quarterlyReports") == Kept(c, RowsOf(entries, "quarterlyReports"), "quarterly")
  {
    KeysDiffer();
  }

  lemma KeysDiffer()
    ensures "annualReports" != "quarterlyReports" && "integrityNotice" != "annualReports"
            && "integrityNotice" != "quarterlyReports"
  {
    assert "annualReports"[0] == 'a' && "quarterlyReports"[0] == 'q' && "integrityNotice"[0] == 'i';
  }

  /** Whatever the text was, auditing what the filter returned finds nothing unsafe. */
  lemma FilteredTextAuditsSafe(c: Case, text: string, historical: bool)
    requires TextsRoundTrip(c.services)
    ensures AllSafe(AuditOutput(c, Str(FilterText(c, text).0)))
    ensures Finalize(historical, AuditOutput(c, Str(FilterText(c, text).0))) == Safe
  {
    var findings := AuditOutput(c, Str(FilterText(c, text).0));
    assert c.services.loads(FilterText(c, text).0) == Some(FilterPayload(c, text).0);
    match c.services.loads(text) {
      case Some(Dict(entries)) =>
        FilteredRows(c, entries);
        KeptRowsAuditSafe(c, RowsOf(entries, "annualReports"), "annual");
        KeptRowsAuditSafe(c, RowsOf(entries, "quarterlyReports"), "quarterly");
      case _ =>
        KeysDiffer();
        assert RowsOf(EmptyPayload(c).entries, "annualReports") == []
               && RowsOf(EmptyPayload(c).entries, "quarterlyReports") == [];
    }
    WorstIsAttained(findings);
  }

  lemma {:induction false} SelectTwice<T>(s: seq<T>, p: T -> bool)
    ensures Select(Select(s, p), p) == Select(s, p)
  {
    if |s| > 0 {
      SelectTwice(s[1..], p);
      var rest := Select(s[1..], p);
      if p(s[0]) {
        assert ([s[0]] + rest)[1..] == rest;
      } else {
        assert [] + rest == rest;
      }
    }
  }

  lemma KeptTwice(c: Case, rows: seq<Data>, frequency: string)
    ensures Kept(c, Kept(c, rows, frequency), frequency) == Kept(c, rows, frequency)
  {
    SelectTwice(rows, r => FactOf(c, r, frequency).PublishedInTime?);
  }

  lemma ReportsTwice(entries: map<string, Data>, annual: seq<Data>, quarterly: seq<Data>)
    ensures WithReports(WithReports(entries, annual, quarterly), annual, quarterly) ==
            WithReports(entries, annual, quarterly)
  {
    KeysDiffer();
  }

  lemma EntriesTwice(c: Case, entries: map<string, Data>)
    ensures FilteredEntries(c, FilteredEntries(c, entries)) == FilteredEntries(c, entries)
  {
    hide Kept, RowsOf;
    FilteredRows(c, entries);
    hide WithReports;
    KeptTwice(c, RowsOf(entries, "annualReports"), "annual");
    KeptTwice(c, RowsOf(entries, "quarterlyReports"), "quarterly");
    ReportsTwice(entries, Kept(c, RowsOf(entries, "annualReports"), "annual"),
        Kept(c, RowsOf(entries, "quarterlyReports"), "quarterly"));
  }

  lemma EmptyPayloadTwice(c: Case)
    ensures FilteredEntries(c, EmptyPayload(c).entries) == EmptyPayload(c).entries
  {
    KeysDiffer();
    var entries := EmptyPayload(c).entries;
    assert RowsOf(entries, "annualReports") == [] && RowsOf(entries, "quarterlyReports") == [];
    assert FilteredEntries(c, entries) == WithReports(entries, [], []);
  }

  /** Filtering a filtered text changes nothing. */
  lemma FilterIsIdempotent(c: Case, text: string)
    requires TextsRoundTrip(c.services)
    ensures FilterPayload(c, FilterText(c, text).0).0 == FilterPayload(c, text).0
    ensures FilterText(c, FilterText(c, text).0).0 == FilterText(c, text).0
  {
    hide FilteredEntries;
    assert c.services.loads(FilterText(c, text).0) == Some(FilterPayload(c, text).0);
    match c.services.loads(text) {
      case Some(Dict(entries)) => EntriesTwice(c, entries);
      case _ => EmptyPayloadTwice(c);
    }
  }

  function CountVerified(findings: seq<Finding>): nat {
    if |findings| == 0 then 0
    else
      CountVerified(findings[..|findings| - 1])
      + if findings[|findings| - 1].reason == "publication_verified" then 1 else 0
  }

  /** The filter leaves one finding for every row it saw, and as many verified ones as rows it kept. */
  lemma {:induction false} FindingsAccountForRows(c: Case, rows: seq<Data>, frequency: string)
    ensures |FilterFindings(c, rows, frequency)| == |rows| && AllSafe(FilterFindings(c, rows, frequency))
    ensures CountVerified(FilterFindings(c, rows, frequency)) == |Kept(c, rows, frequency)|
  {
    if |rows| > 0 {
      var before, last := rows[..|rows| - 1], rows[|rows| - 1];
      FindingsAccountForRows(c, before, frequency);
      var findings := FilterFindings(c, rows, frequency);
      assert findings[..|findings| - 1] == FilterFindings(c, before, frequency);
      SelectLast(before, last, r => FactOf(c, r, frequency).PublishedInTime?);
      assert rows == before + [last];
      OnlyKeptIsVerified(c, FactOf(c, last, frequency));
    }
  }

  lemma OnlyKeptIsVerified(c: Case, fact: RowFact)
    ensures FilterFinding(c, fact).reason == "publication_verified" <==> fact.PublishedInTime?
  {
    assert |"publication_verified"| == 20 && |"unknown_schema_filtered"| == 23
           && |"invalid_fiscal_date_filtered"| == 28;
    assert |"publication_unverified_filtered"| == 31 && |"future_publication_filtered"| == 27;
  }

  lemma {:induction false} SelectLast<T>(s: seq<T>, x: T, p: T -> bool)
    ensures Select(s + [x], p) == Select(s, p) + if p(x) then [x] else []
  {
    if |s| > 0 {
      SelectLast(s[1..], x, p);
      assert (s + [x])[1..] == s[1..] + [x];
    }
  }

  // ---------------------------------------------------------------------
  // The loops
  // ---------------------------------------------------------------------

  /** The rows of one report in `filter_statement_payload`. */
  method FilterReport(c: Case, rows: seq<Data>, frequency: string, found: seq<Finding>)
    returns (retained: seq<Data>, findings: seq<Finding>)
    ensures retained == Kept(c, rows, frequency)
    ensures findings == found + FilterFindings(c, rows, frequency)
  {
    retained, findings := [], found;
    for k := 0 to |rows|
      invariant retained == Kept(c, rows[..k], frequency)
      invariant findings == found + FilterFindings(c, rows[..k], frequency)
    {
      var row := rows[k];
      var fact := FactOf(c, row, frequency);
      if fact.PublishedInTime? { retained := retained + [row]; }
      findings := findings + [FilterFinding(c, fact)];
      assert rows[..k + 1] == rows[..k] + [row];
      SelectLast(rows[..k], row, r => FactOf(c, r, frequency).PublishedInTime?);
      assert FilterFindings(c, rows[..k + 1], frequency) ==
             FilterFindings(c, rows[..k], frequency) + [FilterFinding(c, fact)];
    }
    assert rows[..|rows|] == rows;
  }

  method FilterStatementPayload(c: Case, text: string) returns (filtered: string, findings: seq<Finding>)
    ensures (filtered, findings) == FilterText(c, text)
  {
    var payload := c.services.loads(text);
    if payload.None? || !payload.value.Dict? {
      return c.services.dumps(EmptyPayload(c)), [FilterFinding(c, NotADict)];
    }
    var result := payload.value.entries;
    findings := [];
    ghost var entries := payload.value.entries;
    var annual, quarterly;
    annual, findings := FilterReport(c, RowsOf(payload.value.entries, "annualReports"), "annual", findings);
    assert findings == FilterFindings(c, RowsOf(entries, "annualReports"), "annual");
    result := result["annualReports" := Arr(annual)];
    quarterly, findings := FilterReport(c, RowsOf(payload.value.entries, "quarterlyReports"), "quarterly", findings);
    result := result["quarterlyReports" := Arr(quarterly)];
    if findings == [] {
      findings := findings + [Finding(c.tool, Safe, "no_statement_records", None, None)];
    }
    if annual == [] && quarterly == [] {
      result := result["integrityNotice" := EMPTY_NOTICE];
    }
    assert result == FilteredEntries(c, entries);
    assert findings == FilterPayload(c, text).1;
    filtered := c.services.dumps(Dict(result));
  }

  /** The recorder of one run. */
  class PointInTimeRecorder {
    const historical: bool
    var findings: seq<Finding>

    constructor (historical: bool)
      ensures this.historical == historical && findings == []
    {
      this.historical := historical;
      findings := [];
    }

    method Record(f: Finding)
      modifies this`findings
      ensures findings == old(findings) + [f]
    {
      findings := findings + [f];
    }

    /** `_audit_financial_output` with its loop over the rows of one report. */
    method AuditReport(c: Case, rows: seq<Data>, frequency: string)
      modifies this`findings
      ensures findings == old(findings) + AuditFindings(c, rows, frequency)
    {
      for k := 0 to |rows|
        invariant findings == old(findings) + AuditFindings(c, rows[..k], frequency)
      {
        var f := AuditFinding(c, FactOf(c, rows[k], frequency));
        Record(f);
        assert AuditFindings(c, rows[..k + 1], frequency) == AuditFindings(c, rows[..k], frequency) + [f];
      }
      assert rows[..|rows|] == rows;
    }

    method AuditFinancialOutput(c: Case, output: Data)
      modifies this`findings
      ensures findings == old(findings) + AuditOutput(c, output)
    {
      var payload := Mapping(c, output);
      if payload.None? {
        Record(Finding(c.tool, Unknown, "statement_output_unparseable", None, None));
        return;
      }
      var annual := RowsOf(payload.value, "annualReports");
      var quarterly := RowsOf(payload.value, "quarterlyReports");
      AuditReport(c, annual, "annual");
      AuditReport(c, quarterly, "quarterly");
      if |annual| + |quarterly| == 0 {
        Record(Finding(c.tool, Safe, "no_statement_records", None, None));
      }
    }

    /** `finalize`: the worst recorded status. */
    method Close() returns (status: Status)
      ensures status == Finalize(historical, findings)
    {
      var closing := Closing(historical, findings);
      status := Safe;
      for k := 0 to |closing|
        invariant status == WorstOf(closing[..k])
      {
        assert closing[..k + 1][..k] == closing[..k];
        status := Worse(status, closing[k].status);
      }
      assert closing[..|closing|] == closing;
    }
  }
}
