/** Importing an ERP file: repeated journal lines are quarantined, so any file normalizes. */
module ErpImport {
  import opened Events
  import opened Selection
  import opened Ledger
  import opened Normalization

  datatype FileRow = FileRow(number: nat, cells: ErpRow, lineage: Lineage)

  datatype Entry = Entry(number: nat, values: ErpValues)

  const DUPLICATE: string := "ERP_LINE_DUPLICATE"
  const UNBALANCED: string := "JOURNAL_UNBALANCED"

  function CodeOf(p: Problem): string {
    match p
    case JournalIdMissing => "JOURNAL_ID_MISSING"
    case LineNumberInvalid => "LINE_NUMBER_INVALID"
    case PostingDateInvalid => "POSTING_DATE_INVALID"
    case AccountCodeMissing => "ACCOUNT_CODE_MISSING"
    case DebitInvalid => "DEBIT_MINOR_INVALID"
    case CreditInvalid => "CREDIT_MINOR_INVALID"
    case AmountNegative => "ERP_AMOUNT_NEGATIVE"
    case SidesInvalid => "ERP_SIDES_INVALID"
    case CurrencyInvalid => "CURRENCY_INVALID"
  }

  function ReadRow(row: FileRow, runId: string, entity: string): Row {
    var v := ParseRow(row.cells);
    Row(row.number, if v.Ok? then Readable(BuildEvent(v.value, runId, entity, row.lineage)) else Unreadable(CodeOf(v.error)))
  }

  function ReadRows(rows: seq<FileRow>, runId: string, entity: string): seq<Row> {
    seq(|rows|, i requires 0 <= i < |rows| => ReadRow(rows[i], runId, entity))
  }

  // ---- journals across the file -------------------------------------------------------------

  function Entries(rows: seq<FileRow>): seq<Entry> {
    if rows == [] then []
    else
      var last := rows[|rows| - 1];
      var v := ParseRow(last.cells);
      Entries(rows[..|rows| - 1]) + (if v.Ok? then [Entry(last.number, v.value)] else [])
  }

  function JournalIds(es: seq<Entry>): seq<string> {
    seq(|es|, i requires 0 <= i < |es| => es[i].values.journalId)
  }

  function OfJournal(es: seq<Entry>, journalId: string): seq<Entry> {
    if es == [] then []
    else OfJournal(es[..|es| - 1], journalId) + (if es[|es| - 1].values.journalId == journalId then [es[|es| - 1]] else [])
  }

  function CountLine(members: seq<Entry>, line: nat): nat {
    if members == [] then 0
    else CountLine(members[..|members| - 1], line) + (if members[|members| - 1].values.line == line then 1 else 0)
  }

  function SideOf(members: seq<Entry>, side: Direction): nat {
    if members == [] then 0
    else SideOf(members[..|members| - 1], side) + (if members[|members| - 1].values.direction == side then members[|members| - 1].values.amount else 0)
  }

  /** The issues of the first `k` lines of a journal. */
  function LineIssues(members: seq<Entry>, k: nat): seq<Issue>
    requires k <= |members|
  {
    if k == 0 then []
    else
      var e := members[k - 1];
      LineIssues(members, k - 1)
      + (if CountLine(members, e.values.line) > 1 then [Issue(Some(e.number), DUPLICATE, true)] else [])
      + (if SideOf(members, Debit) != SideOf(members, Credit) then [Issue(Some(e.number), UNBALANCED, false)] else [])
  }

  function IssuesOf(es: seq<Entry>, ids: seq<string>): seq<Issue> {
    if ids == [] then []
    else
      var members := OfJournal(es, ids[|ids| - 1]);
      IssuesOf(es, ids[..|ids| - 1]) + LineIssues(members, |members|)
  }

  /** Journal by journal, in order of first appearance. */
  function BatchIssues(rows: seq<FileRow>): seq<Issue> {
    IssuesOf(Entries(rows), Distinct(JournalIds(Entries(rows))))
  }

  /** Files the readable rows under their journals, remembering the order in which journals appear. */
  method GroupEntries(rows: seq<FileRow>) returns (order: seq<string>, journals: map<string, seq<Entry>>)
    ensures order == Distinct(JournalIds(Entries(rows)))
    ensures forall id | id in order :: id in journals && journals[id] == OfJournal(Entries(rows), id)
  {
    hide ParseRow;
    order, journals := [], map[];
    ghost var es: seq<Entry> := [];
    for i := 0 to |rows|
      invariant es == Entries(rows[..i]) && order == Distinct(JournalIds(es))
      invariant forall id :: id in order <==> id in JournalIds(es)
      invariant forall id :: OfJournal(es, id) == if id in journals then journals[id] else []
      invariant forall id :: id in journals <==> id in order
    {
      assert rows[..i + 1][..i] == rows[..i];
      var v := ParseRow(rows[i].cells);
      if v.Ok? {
        var e := Entry(rows[i].number, v.value);
        var id := v.value.journalId;
        OneMoreEntry(es, e);
        if id !in journals {
          order := order + [id];
        }
        journals := journals[id := (if id in journals then journals[id] else []) + [e]];
        es := es + [e];
      }
    }
    assert rows[..|rows|] == rows;
  }

  lemma OneMoreEntry(es: seq<Entry>, e: Entry)
    ensures JournalIds(es + [e]) == JournalIds(es) + [e.values.journalId]
    ensures Distinct(JournalIds(es + [e]))
         == Distinct(JournalIds(es)) + (if e.values.journalId in JournalIds(es) then [] else [e.values.journalId])
    ensures forall id :: OfJournal(es + [e], id) == OfJournal(es, id) + (if e.values.journalId == id then [e] else [])
  {
    assert (es + [e])[..|es|] == es;
    assert JournalIds(es + [e]) == JournalIds(es) + [e.values.journalId];
    assert (JournalIds(es) + [e.values.journalId])[..|es|] == JournalIds(es);
  }

  method FindBatchIssues(rows: seq<FileRow>) returns (issues: seq<Issue>)
    ensures issues == BatchIssues(rows)
  {
    hide ParseRow, CountLine, SideOf, Entries, Distinct, OfJournal, JournalIds;
    var order, journals := GroupEntries(rows);
    issues := [];
    for i := 0 to |order|
      invariant issues == IssuesOf(Entries(rows), order[..i])
    {
      assert order[..i + 1][..i] == order[..i];
      var ofJournal := JournalIssues(journals[order[i]]);
      issues := issues + ofJournal;
    }
    assert order[..|order|] == order;
  }

  method JournalIssues(members: seq<Entry>) returns (issues: seq<Issue>)
    ensures issues == LineIssues(members, |members|)
  {
    hide CountLine, SideOf;
    issues := [];
    for k := 0 to |members|
      invariant issues == LineIssues(members, k)
    {
      if CountLine(members, members[k].values.line) > 1 {
        issues := issues + [Issue(Some(members[k].number), DUPLICATE, true)];
      }
      if SideOf(members, Debit) != SideOf(members, Credit) {
        issues := issues + [Issue(Some(members[k].number), UNBALANCED, false)];
      }
    }
  }

  // ---- which lines are blocked --------------------------------------------------------------

  lemma {:induction false} EntryMembers(rows: seq<FileRow>, e: Entry)
    ensures e in Entries(rows) <==> exists row :: row in rows && ParseRow(row.cells) == Ok(e.values) && row.number == e.number
  {
    hide ParseRow;
    if rows != [] {
      var init, last := rows[..|rows| - 1], rows[|rows| - 1];
      EntryMembers(init, e);
      assert rows == init + [last];
      assert forall row :: row in rows <==> row in init || row == last;
    }
  }

  lemma {:induction false} OfJournalMembers(es: seq<Entry>, journalId: string, e: Entry)
    ensures e in OfJournal(es, journalId) <==> e in es && e.values.journalId == journalId
  {
    if es != [] {
      OfJournalMembers(es[..|es| - 1], journalId, e);
      assert es == es[..|es| - 1] + [es[|es| - 1]];
    }
  }

  lemma {:induction false} LineIssueMembers(members: seq<Entry>, k: nat, x: Issue)
    requires k <= |members|
    ensures x in LineIssues(members, k) && x.blocking
      <==> exists i :: 0 <= i < k && CountLine(members, members[i].values.line) > 1 && x == Issue(Some(members[i].number), DUPLICATE, true)
  {
    hide CountLine, SideOf;
    if k > 0 {
      LineIssueMembers(members, k - 1, x);
    }
  }

  lemma {:induction false} IssueMembers(es: seq<Entry>, ids: seq<string>, x: Issue)
    ensures x in IssuesOf(es, ids) && x.blocking
      <==> exists e :: e in es && e.values.journalId in ids && CountLine(OfJournal(es, e.values.journalId), e.values.line) > 1
                       && x == Issue(Some(e.number), DUPLICATE, true)
  {
    hide CountLine, LineIssues, OfJournal;
    if ids != [] {
      var init, last := ids[..|ids| - 1], ids[|ids| - 1];
      var members := OfJournal(es, last);
      IssueMembers(es, init, x);
      LineIssueMembers(members, |members|, x);
      assert ids == init + [last];
      assert forall id :: id in ids <==> id in init || id == last;
      if i :| 0 <= i < |members| && CountLine(members, members[i].values.line) > 1 && x == Issue(Some(members[i].number), DUPLICATE, true) {
        OfJournalMembers(es, last, members[i]);
        assert members[i] in members;
      }
      if e :| e in es && e.values.journalId == last && CountLine(members, e.values.line) > 1 && x == Issue(Some(e.number), DUPLICATE, true) {
        OfJournalMembers(es, last, e);
        var i :| 0 <= i < |members| && members[i] == e;
      }
    }
  }

  /** Does another row of the file repeat this journal line? */
  ghost predicate Repeated(rows: seq<FileRow>, e: Entry) {
    CountLine(OfJournal(Entries(rows), e.values.journalId), e.values.line) > 1
  }

  /** The blockers of the file check are exactly the repeated journal lines. */
  lemma {:induction false} DuplicatesAreBlocked(rows: seq<FileRow>, x: Issue)
    ensures x in BatchIssues(rows) && x.blocking
      <==> exists e :: e in Entries(rows) && Repeated(rows, e) && x == Issue(Some(e.number), DUPLICATE, true)
  {
    var es := Entries(rows);
    hide CountLine, OfJournal, Entries, IssuesOf;
    DistinctIsDistinct(JournalIds(es));
    IssueMembers(es, Distinct(JournalIds(es)), x);
    forall e | e in es ensures e.values.journalId in JournalIds(es) {
      var i :| 0 <= i < |es| && es[i] == e;
      assert JournalIds(es)[i] == e.values.journalId;
    }
  }

  lemma {:induction false} CountedOnce(members: seq<Entry>, a: Entry)
    requires a in members
    ensures CountLine(members, a.values.line) >= 1
  {
    var init, last := members[..|members| - 1], members[|members| - 1];
    assert members == init + [last];
    if a != last {
      CountedOnce(init, a);
    }
  }

  lemma {:induction false} CountedTwice(members: seq<Entry>, a: Entry, b: Entry)
    requires a in members && b in members && a != b && a.values.line == b.values.line
    ensures CountLine(members, a.values.line) >= 2
  {
    var init, last := members[..|members| - 1], members[|members| - 1];
    assert members == init + [last];
    if a == last {
      CountedOnce(init, b);
    } else if b == last {
      CountedOnce(init, a);
    } else {
      CountedTwice(init, a, b);
    }
  }

  // ---- the import ---------------------------------------------------------------------------

  ghost predicate NumberedFile(rows: seq<FileRow>) {
    && (forall i, j | 0 <= i < j < |rows| :: rows[i].number != rows[j].number)
    && forall row | row in rows :: row.number >= 1
  }

  lemma {:induction false} ReadRowsMembers(rows: seq<FileRow>, runId: string, entity: string, row: Row)
    ensures row in ReadRows(rows, runId, entity) <==> exists f :: f in rows && row == ReadRow(f, runId, entity)
  {
    hide ReadRow;
    var read := ReadRows(rows, runId, entity);
    if f :| f in rows && row == ReadRow(f, runId, entity) {
      var i :| 0 <= i < |rows| && rows[i] == f;
      assert read[i] in read;
    }
  }

  lemma {:induction false} FileIsNumbered(rows: seq<FileRow>, runId: string, entity: string)
    requires NumberedFile(rows)
    ensures Numbered(ReadRows(rows, runId, entity)) && AboutRows(ReadRows(rows, runId, entity), BatchIssues(rows))
  {
    hide ParseRow, BatchIssues, Entries, BuildEvent;
    var read, batch := ReadRows(rows, runId, entity), BatchIssues(rows);
    forall row | row in read ensures row.number >= 1 && (row.reading.Unreadable? ==> row.reading.code != "") {
      ReadRowsMembers(rows, runId, entity, row);
    }
    forall x | x in batch && x.blocking
      ensures x.code != "" && x.row.Some? && exists row :: row in read && row.number == x.row.value
    {
      DuplicatesAreBlocked(rows, x);
      var e :| e in Entries(rows) && x == Issue(Some(e.number), DUPLICATE, true);
      EntryMembers(rows, e);
      var f :| f in rows && f.number == e.number;
      ReadRowsMembers(rows, runId, entity, ReadRow(f, runId, entity));
    }
  }

  lemma {:induction false} EventsOfMembers(rows: seq<Row>, issues: seq<Issue>, e: Event)
    ensures e in EventsOf(rows, issues) <==> exists row :: row in rows && GoesThrough(row, issues) && row.reading.event == e
  {
    hide BlockersOf;
    if rows != [] {
      var init, last := rows[..|rows| - 1], rows[|rows| - 1];
      EventsOfMembers(init, issues, e);
      assert rows == init + [last];
      assert forall row :: row in rows <==> row in init || row == last;
    }
  }

  lemma {:induction false} SameIdSameLine(f: FileRow, g: FileRow, v: ErpValues, w: ErpValues, runId: string, entity: string)
    requires BuildEvent(v, runId, entity, f.lineage).eventId == BuildEvent(w, runId, entity, g.lineage).eventId
    ensures v.journalId == w.journalId && v.line == w.line
  {
    assert EventId(runId, Erp, RecordId(v))[|runId|..] == IdSuffix(Erp, RecordId(v));
    assert EventId(runId, Erp, RecordId(w))[|runId|..] == IdSuffix(Erp, RecordId(w));
    IdSuffixIsInjective(Erp, RecordId(v), Erp, RecordId(w));
    RecordIdIsInjective(v, w);
  }

  /** Two rows with the same journal line are both blocked. */
  lemma {:induction false} RepeatedLinesDoNotGoThrough(rows: seq<FileRow>, runId: string, entity: string, f: FileRow, g: FileRow)
    requires f in rows && g in rows && f.number != g.number && ParseRow(f.cells).Ok? && ParseRow(g.cells).Ok?
    requires ParseRow(f.cells).value.journalId == ParseRow(g.cells).value.journalId
    requires ParseRow(f.cells).value.line == ParseRow(g.cells).value.line
    ensures !GoesThrough(ReadRow(f, runId, entity), RowIssues(ReadRows(rows, runId, entity)) + BatchIssues(rows))
  {
    hide ParseRow, BatchIssues, Entries, BuildEvent, CountLine, OfJournal, RowIssues, BlockersOf;
    var a, b := Entry(f.number, ParseRow(f.cells).value), Entry(g.number, ParseRow(g.cells).value);
    EntryMembers(rows, a);
    EntryMembers(rows, b);
    OfJournalMembers(Entries(rows), a.values.journalId, a);
    OfJournalMembers(Entries(rows), a.values.journalId, b);
    CountedTwice(OfJournal(Entries(rows), a.values.journalId), a, b);
    var x := Issue(Some(f.number), DUPLICATE, true);
    DuplicatesAreBlocked(rows, x);
    assert Repeated(rows, a);
    var issues := RowIssues(ReadRows(rows, runId, entity)) + BatchIssues(rows);
    assert x in issues;
    BlockersOfMembers(issues, f.number);
    assert (f.number, DUPLICATE) in Blockers(issues);
    assert DUPLICATE in BlockersOf(issues, f.number);
  }

  lemma {:induction false} EventsHaveOwnIds(rows: seq<FileRow>, runId: string, entity: string, k: nat)
    requires NumberedFile(rows) && k <= |rows|
    ensures var read := ReadRows(rows, runId, entity);
      NoRepeats(Ids(EventsOf(read[..k], RowIssues(read) + BatchIssues(rows))))
  {
    hide ParseRow, BatchIssues, BuildEvent, RowIssues, BlockersOf;
    var read := ReadRows(rows, runId, entity);
    var issues := RowIssues(read) + BatchIssues(rows);
    if k > 0 {
      EventsHaveOwnIds(rows, runId, entity, k - 1);
      assert read[..k][..k - 1] == read[..k - 1];
      var earlier := EventsOf(read[..k - 1], issues);
      if GoesThrough(read[k - 1], issues) {
        var e := read[k - 1].reading.event;
        forall i | 0 <= i < |earlier| ensures earlier[i].eventId != e.eventId {
          assert earlier[i] in earlier;
          EventsOfMembers(read[..k - 1], issues, earlier[i]);
          var row :| row in read[..k - 1] && GoesThrough(row, issues) && row.reading.event == earlier[i];
          var j :| 0 <= j < k - 1 && read[..k - 1][j] == row;
          DifferentRowsDifferentIds(rows, runId, entity, j, k - 1);
        }
        assert Ids(earlier + [e]) == Ids(earlier) + [e.eventId];
      } else {
        assert EventsOf(read[..k], issues) == earlier;
      }
    } else {
      assert read[..0] == [];
    }
  }

  lemma {:induction false} DifferentRowsDifferentIds(rows: seq<FileRow>, runId: string, entity: string, i: nat, j: nat)
    requires NumberedFile(rows) && i < j < |rows|
    requires var issues := RowIssues(ReadRows(rows, runId, entity)) + BatchIssues(rows);
      GoesThrough(ReadRow(rows[i], runId, entity), issues) && GoesThrough(ReadRow(rows[j], runId, entity), issues)
    ensures ReadRow(rows[i], runId, entity).reading.event.eventId != ReadRow(rows[j], runId, entity).reading.event.eventId
  {
    hide ParseRow, BatchIssues, RowIssues, BlockersOf, BuildEvent;
    var v, w := ParseRow(rows[i].cells).value, ParseRow(rows[j].cells).value;
    if BuildEvent(v, runId, entity, rows[i].lineage).eventId == BuildEvent(w, runId, entity, rows[j].lineage).eventId {
      SameIdSameLine(rows[i], rows[j], v, w, runId, entity);
      RepeatedLinesDoNotGoThrough(rows, runId, entity, rows[i], rows[j]);
    }
  }

  /** Any ERP file whose rows are numbered apart normalizes: the result is never refused. */
  lemma {:induction false} AnyErpFileNormalizes(rows: seq<FileRow>, runId: string, entity: string)
    requires NumberedFile(rows)
    ensures var read := ReadRows(rows, runId, entity);
      !FileBlocked(BatchIssues(rows)) && ResultAccepted(ResultOf(read, BatchIssues(rows)))
  {
    hide BatchIssues, ReadRow, ResultAccepted, Numbered;
    var read := ReadRows(rows, runId, entity);
    FileIsNumbered(rows, runId, entity);
    EventsHaveOwnIds(rows, runId, entity, |rows|);
    assert read[..|rows|] == read;
    EveryRowDisposedOnce(read, BatchIssues(rows));
  }

  // ---- control totals -----------------------------------------------------------------------

  datatype ControlTotal = ControlTotal(side: Direction, currency: string, amount: nat, records: nat)

  predicate OneCurrency(events: seq<Event>) {
    forall e | e in events :: e.currency == events[0].currency
  }

  function Component(events: seq<Event>, side: Direction): seq<ControlTotal> {
    var members := Select(events, OnSide(side));
    if members == [] then [] else [ControlTotal(side, members[0].currency, Total(members), |members|)]
  }

  /** The control totals by side, or None where mixed currencies make the original raise. */
  function ControlTotals(events: seq<Event>): Option<seq<ControlTotal>> {
    if OneCurrency(Select(events, OnSide(Debit))) && OneCurrency(Select(events, OnSide(Credit)))
    then Some(Component(events, Debit) + Component(events, Credit)) else None
  }

  function TotalAmount(totals: seq<ControlTotal>): nat {
    if totals == [] then 0 else totals[0].amount + TotalAmount(totals[1..])
  }

  function TotalRecords(totals: seq<ControlTotal>): nat {
    if totals == [] then 0 else totals[0].records + TotalRecords(totals[1..])
  }

  lemma {:induction false} SidesCoverEvents(events: seq<Event>)
    ensures Total(Select(events, OnSide(Debit))) + Total(Select(events, OnSide(Credit))) == Total(events)
    ensures |Select(events, OnSide(Debit))| + |Select(events, OnSide(Credit))| == |events|
  {
    if events != [] {
      SidesCoverEvents(events[1..]);
      SelectHead(events, OnSide(Debit));
      SelectHead(events, OnSide(Credit));
      var d, c := Select(events[1..], OnSide(Debit)), Select(events[1..], OnSide(Credit));
      assert ([events[0]] + d)[1..] == d && ([events[0]] + c)[1..] == c;
    }
  }

  /** Control totals add up to the events' amounts and number. */
  lemma {:induction false} ControlTotalsAddUp(events: seq<Event>)
    requires ControlTotals(events).Some?
    ensures TotalAmount(ControlTotals(events).value) == Total(events) && TotalRecords(ControlTotals(events).value) == |events|
  {
    SidesCoverEvents(events);
    hide Select, Total;
    ComponentTotals(events, Debit);
    ComponentTotals(events, Credit);
    hide Component;
    TotalsConcat(Component(events, Debit), Component(events, Credit));
  }

  lemma ComponentTotals(events: seq<Event>, side: Direction)
    ensures TotalAmount(Component(events, side)) == Total(Select(events, OnSide(side)))
    ensures TotalRecords(Component(events, side)) == |Select(events, OnSide(side))|
  {
    hide Select;
    if Component(events, side) != [] {
      assert Component(events, side)[1..] == [];
    }
  }

  lemma {:induction false} TotalsConcat(s: seq<ControlTotal>, t: seq<ControlTotal>)
    ensures TotalAmount(s + t) == TotalAmount(s) + TotalAmount(t) && TotalRecords(s + t) == TotalRecords(s) + TotalRecords(t)
  {
    if s == [] {
      assert s + t == t;
    } else {
      assert (s + t)[1..] == s[1..] + t;
      TotalsConcat(s[1..], t);
    }
  }
}
