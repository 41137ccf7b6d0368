/** The ERP file that a correction writes, read again: the old rows under a new run, then the posted journal. */
module ErpReimport {
  import opened Events
  import opened Selection
  import opened Transforms
  import opened Ledger
  import opened Normalization
  import opened ErpImport
  import opened Renaming
  import opened Rerun

  // ---- valid files --------------------------------------------------------------------------

  /** What `validate` reports of a file, row checks first. */
  function Report(rows: seq<FileRow>, runId: string, entity: string): seq<Issue> {
    RowIssues(ReadRows(rows, runId, entity)) + BatchIssues(rows)
  }

  /** `is_valid`: no blocking issue. */
  ghost predicate IsValid(rows: seq<FileRow>, runId: string, entity: string) {
    forall x | x in Report(rows, runId, entity) :: !x.blocking
  }

  /** The events that normalizing the file gives. */
  function ReadEvents(rows: seq<FileRow>, runId: string, entity: string): seq<Event> {
    EventsOf(ReadRows(rows, runId, entity), Report(rows, runId, entity))
  }

  ghost predicate AllReadable(rows: seq<FileRow>) {
    forall i | 0 <= i < |rows| :: ParseRow(rows[i].cells).Ok?
  }

  ghost predicate LinesDiffer(rows: seq<FileRow>)
    requires AllReadable(rows)
  {
    forall i, j | 0 <= i < j < |rows| ::
      var v, w := ParseRow(rows[i].cells).value, ParseRow(rows[j].cells).value;
      !(v.journalId == w.journalId && v.line == w.line)
  }

  // ---- valid means readable, with no line twice ---------------------------------------------

  ghost predicate EntriesDiffer(es: seq<Entry>) {
    forall i, j | 0 <= i < j < |es| ::
      !(es[i].values.journalId == es[j].values.journalId && es[i].values.line == es[j].values.line)
  }

  lemma {:induction false} EntriesOfReadable(rows: seq<FileRow>)
    requires AllReadable(rows)
    ensures |Entries(rows)| == |rows|
    ensures forall i | 0 <= i < |rows| :: Entries(rows)[i] == Entry(rows[i].number, ParseRow(rows[i].cells).value)
  {
    hide ParseRow;
    if rows != [] {
      EntriesOfReadable(rows[..|rows| - 1]);
    }
  }

  lemma {:induction false} OfJournalDiffer(es: seq<Entry>, journalId: string)
    requires EntriesDiffer(es)
    ensures EntriesDiffer(OfJournal(es, journalId))
    ensures forall e | e in OfJournal(es, journalId) :: e in es && e.values.journalId == journalId
  {
    if es != [] {
      var init, last := es[..|es| - 1], es[|es| - 1];
      OfJournalDiffer(init, journalId);
      var before := OfJournal(init, journalId);
      forall i | 0 <= i < |before| && last.values.journalId == journalId ensures before[i].values.line != last.values.line {
        assert before[i] in before;
        var k :| 0 <= k < |init| && init[k] == before[i];
        assert es[k] == before[i];
      }
    }
  }

  lemma {:induction false} CountedAtMostOnce(members: seq<Entry>, line: nat)
    requires forall i, j | 0 <= i < j < |members| :: members[i].values.line != members[j].values.line
    ensures CountLine(members, line) <= 1
    ensures CountLine(members, line) == 0 <==> forall e | e in members :: e.values.line != line
  {
    if members != [] {
      var init, last := members[..|members| - 1], members[|members| - 1];
      CountedAtMostOnce(init, line);
      assert members == init + [last];
      if last.values.line == line {
        forall e | e in init ensures e.values.line != line {
          var k :| 0 <= k < |init| && init[k] == e;
          assert members[k] == e;
        }
      }
    }
  }

  lemma {:induction false} NoRepeatNoBlock(rows: seq<FileRow>, x: Issue)
    requires AllReadable(rows) && LinesDiffer(rows) && x in BatchIssues(rows)
    ensures !x.blocking
  {
    hide ParseRow, BatchIssues, Entries, CountLine, OfJournal;
    EntriesOfReadable(rows);
    DuplicatesAreBlocked(rows, x);
    if x.blocking {
      var e :| e in Entries(rows) && Repeated(rows, e) && x == Issue(Some(e.number), DUPLICATE, true);
      OfJournalDiffer(Entries(rows), e.values.journalId);
      var members := OfJournal(Entries(rows), e.values.journalId);
      forall i, j | 0 <= i < j < |members| ensures members[i].values.line != members[j].values.line {
        assert members[i] in members && members[j] in members;
      }
      CountedAtMostOnce(members, e.values.line);
    }
  }

  lemma {:induction false} ReadableHasNoRowIssue(rows: seq<FileRow>, runId: string, entity: string)
    ensures AllReadable(rows) <==> RowIssues(ReadRows(rows, runId, entity)) == []
  {
    hide ParseRow, BuildEvent;
    if rows != [] {
      var init := rows[..|rows| - 1];
      ReadableHasNoRowIssue(init, runId, entity);
      assert ReadRows(rows, runId, entity)[..|rows| - 1] == ReadRows(init, runId, entity);
    }
  }

  lemma {:induction false} RowIssuesBlock(rows: seq<Row>, x: Issue)
    requires x in RowIssues(rows)
    ensures x.blocking
  {
    RowIssueMembers(rows, x);
  }

  /** A file is valid if and only if every row can be read and no journal line comes twice. */
  lemma {:induction false} ValidExactly(rows: seq<FileRow>, runId: string, entity: string)
    requires NumberedFile(rows)
    ensures IsValid(rows, runId, entity) <==> AllReadable(rows) && LinesDiffer(rows)
  {
    var read := ReadRows(rows, runId, entity);
    hide ParseRow, BatchIssues, RowIssues, ReadRows;
    ReadableHasNoRowIssue(rows, runId, entity);
    if AllReadable(rows) && LinesDiffer(rows) {
      forall x | x in Report(rows, runId, entity) ensures !x.blocking {
        NoRepeatNoBlock(rows, x);
      }
    }
    if IsValid(rows, runId, entity) {
      if RowIssues(read) != [] {
        assert RowIssues(read)[0] in Report(rows, runId, entity);
        RowIssuesBlock(read, RowIssues(read)[0]);
      }
      forall i, j | 0 <= i < j < |rows|
        ensures !(ParseRow(rows[i].cells).value.journalId == ParseRow(rows[j].cells).value.journalId
                  && ParseRow(rows[i].cells).value.line == ParseRow(rows[j].cells).value.line)
      {
        TwiceIsBlocked(rows, runId, entity, i, j);
      }
    }
  }

  lemma {:induction false} TwiceIsBlocked(rows: seq<FileRow>, runId: string, entity: string, i: nat, j: nat)
    requires NumberedFile(rows) && i < j < |rows| && AllReadable(rows) && IsValid(rows, runId, entity)
    ensures !(ParseRow(rows[i].cells).value.journalId == ParseRow(rows[j].cells).value.journalId
              && ParseRow(rows[i].cells).value.line == ParseRow(rows[j].cells).value.line)
  {
    hide ParseRow, BatchIssues, RowIssues, ReadRows, BlockersOf, BuildEvent;
    if ParseRow(rows[i].cells).value.journalId == ParseRow(rows[j].cells).value.journalId
       && ParseRow(rows[i].cells).value.line == ParseRow(rows[j].cells).value.line {
      RepeatedLinesDoNotGoThrough(rows, runId, entity, rows[i], rows[j]);
      NothingBlocks(Report(rows, runId, entity), rows[i].number);
    }
  }

  lemma {:induction false} NothingBlocks(issues: seq<Issue>, number: nat)
    requires forall x | x in issues :: !x.blocking
    ensures BlockersOf(issues, number) == []
  {
    if issues != [] {
      NothingBlocks(issues[..|issues| - 1], number);
      assert issues[|issues| - 1] in issues;
    }
  }

  // ---- the events of a valid file -----------------------------------------------------------

  function EventOfRow(row: FileRow, runId: string, entity: string): Event
    requires ParseRow(row.cells).Ok?
  {
    BuildEvent(ParseRow(row.cells).value, runId, entity, row.lineage)
  }

  lemma {:induction false} EveryRowGoesThrough(rows: seq<FileRow>, runId: string, entity: string, issues: seq<Issue>)
    requires AllReadable(rows) && forall x | x in issues :: !x.blocking
    ensures |EventsOf(ReadRows(rows, runId, entity), issues)| == |rows|
    ensures forall i | 0 <= i < |rows| :: EventsOf(ReadRows(rows, runId, entity), issues)[i] == EventOfRow(rows[i], runId, entity)
  {
    hide ParseRow, BuildEvent, BlockersOf;
    if rows != [] {
      var init, last := rows[..|rows| - 1], rows[|rows| - 1];
      EveryRowGoesThrough(init, runId, entity, issues);
      assert ReadRows(rows, runId, entity)[..|rows| - 1] == ReadRows(init, runId, entity);
      NothingBlocks(issues, last.number);
    }
  }

  /** From a valid file, every row becomes its event, in order. */
  lemma {:induction false} ValidFileEvents(rows: seq<FileRow>, runId: string, entity: string)
    requires NumberedFile(rows) && IsValid(rows, runId, entity)
    ensures AllReadable(rows) && |ReadEvents(rows, runId, entity)| == |rows|
    ensures forall i | 0 <= i < |rows| :: ReadEvents(rows, runId, entity)[i] == EventOfRow(rows[i], runId, entity)
  {
    hide ParseRow, BuildEvent, ReadRows, EventsOf, BatchIssues, RowIssues;
    ValidExactly(rows, runId, entity);
    EveryRowGoesThrough(rows, runId, entity, Report(rows, runId, entity));
  }

  // ---- the corrected file -------------------------------------------------------------------

  /** The corrected file: the cells of the old rows, then the appended rows, numbered and hashed anew. */
  ghost predicate Extends(file: seq<FileRow>, erp: seq<FileRow>, more: seq<ErpRow>) {
    && NumberedFile(file) && |file| == |erp| + |more|
    && (forall i | 0 <= i < |erp| :: file[i].cells == erp[i].cells)
    && (forall i | 0 <= i < |more| :: file[|erp| + i].cells == more[i])
  }

  /** What makes appended rows read back as drafted: tidy lines of positive amount under a trimmed id and
      reference. */
  ghost predicate Postable(lines: seq<JournalLine>, slip: Slip) {
    && (forall i | 0 <= i < |lines| :: Tidy(lines[i]) && lines[i].amount > 0)
    && slip.journalId != "" && Trimmed(slip.journalId) && Trimmed(slip.reference)
  }

  function RowsFor(lines: seq<JournalLine>, slip: Slip): seq<ErpRow> {
    RowsOf(lines, slip.journalId, slip.day, slip.reference)
  }

  function LineagesOf(rows: seq<FileRow>): seq<Lineage> {
    seq(|rows|, i requires 0 <= i < |rows| => rows[i].lineage)
  }

  /** Where each stored event is found in the new file. */
  function FileLineages(events: seq<Event>, rows: seq<FileRow>): map<string, Lineage>
    requires |events| <= |rows|
  {
    if events == [] then map[]
    else FileLineages(events[..|events| - 1], rows)[events[|events| - 1].eventId := rows[|events| - 1].lineage]
  }

  lemma {:induction false} FileLineageOf(events: seq<Event>, rows: seq<FileRow>, i: nat)
    requires |events| <= |rows| && UniqueIds(events) && i < |events|
    ensures events[i].eventId in FileLineages(events, rows) && FileLineages(events, rows)[events[i].eventId] == rows[i].lineage
  {
    if i < |events| - 1 {
      FileLineageOf(events[..|events| - 1], rows, i);
    }
  }

  lemma {:induction false} FileLineageKeys(events: seq<Event>, rows: seq<FileRow>, id: string)
    requires |events| <= |rows|
    ensures id in FileLineages(events, rows) <==> id in IdSet(events)
  {
    if events != [] {
      var init := events[..|events| - 1];
      FileLineageKeys(init, rows, id);
      assert events == init + [events[|events| - 1]];
    }
  }

  lemma {:induction false} AppendedRow(lines: seq<JournalLine>, slip: Slip, file: seq<FileRow>, erp: seq<FileRow>, i: nat)
    requires Extends(file, erp, RowsFor(lines, slip)) && Postable(lines, slip) && i < |lines|
    ensures |erp| + i < |file|
    ensures var v := ParseRow(file[|erp| + i].cells);
      && v.Ok? && v.value.journalId == slip.journalId && v.value.line == i + 1
      && EventOfRow(file[|erp| + i], slip.runId, slip.entity) == Posting(lines[i], i + 1, slip, file[|erp| + i].lineage)
  {
    hide ParseRow, Ledger.RowOf, Strip, BuildEvent, LastPlace, NumberedFile;
    assert RowsFor(lines, slip)[i] == Ledger.RowOf(lines[i], i + 1, slip.journalId, slip.day, slip.reference);
    LineReadsBack(lines[i], i + 1, slip.journalId, slip.day, slip.reference);
  }

  /** The old file has no row of the journal. */
  ghost predicate NotYetPosted(erp: seq<FileRow>, journalId: string)
    requires AllReadable(erp)
  {
    forall i | 0 <= i < |erp| :: ParseRow(erp[i].cells).value.journalId != journalId
  }

  /** Appending a postable journal under a new id to a valid file gives a valid file. */
  lemma {:induction false} ExtendedFileIsValid(erp: seq<FileRow>, runId: string, lines: seq<JournalLine>, slip: Slip, file: seq<FileRow>)
    requires NumberedFile(erp) && IsValid(erp, runId, slip.entity) && Postable(lines, slip)
    requires Extends(file, erp, RowsFor(lines, slip))
    requires AllReadable(erp) && NotYetPosted(erp, slip.journalId)
    ensures IsValid(file, slip.runId, slip.entity)
  {
    hide ParseRow, RowsFor, Postable, IsValid, BuildEvent;
    ValidExactly(erp, runId, slip.entity);
    assert |file| == |erp| + |lines| by { RowsForLength(lines, slip); }
    forall i | 0 <= i < |file|
      ensures ParseRow(file[i].cells).Ok?
      ensures i >= |erp| ==> ParseRow(file[i].cells).value.journalId == slip.journalId && ParseRow(file[i].cells).value.line == i - |erp| + 1
    {
      if i >= |erp| {
        AppendedRow(lines, slip, file, erp, i - |erp|);
      }
    }
    assert AllReadable(file);
    hide AllReadable;
    assert LinesDiffer(file);
    ValidExactly(file, slip.runId, slip.entity);
  }

  lemma RowsForLength(lines: seq<JournalLine>, slip: Slip)
    ensures |RowsFor(lines, slip)| == |lines|
  {
  }

  lemma {:induction false} OldRowAgain(erp: FileRow, row: FileRow, runId: string, newRun: string, entity: string)
    requires ParseRow(erp.cells).Ok? && row.cells == erp.cells
    ensures var e := EventOfRow(erp, runId, entity);
      && e.source == Erp && e.eventId == EventId(runId, Erp, e.recordId) && e.narration == EventOfRow(row, newRun, entity).narration
      && EventOfRow(row, newRun, entity) == e.(eventId := EventId(newRun, Erp, e.recordId), runId := newRun, lineage := row.lineage)
  {
    hide ParseRow, EventId, RecordId;
  }

  /** Reading the corrected file gives the old events under the new run, then exactly the drafted postings. */
  lemma {:induction false} CorrectedFileReads(events: seq<Event>, erp: seq<FileRow>, runId: string, lines: seq<JournalLine>, slip: Slip,
                                              file: seq<FileRow>, r: Renaming)
    requires NumberedFile(erp) && IsValid(erp, runId, slip.entity) && Postable(lines, slip)
    requires Extends(file, erp, RowsFor(lines, slip)) && IsValid(file, slip.runId, slip.entity)
    requires events == ReadEvents(erp, runId, slip.entity)
    requires r.runId == slip.runId && r.narrations == map[]
    requires forall i | 0 <= i < |events| && i < |file| ::
      && NewId(r, events[i].eventId) == EventId(slip.runId, events[i].source, events[i].recordId)
      && events[i].eventId in r.lineages && r.lineages[events[i].eventId] == file[i].lineage
    ensures |file| == |erp| + |lines|
    ensures ReadEvents(file, slip.runId, slip.entity)
         == RenameAll(r, events) + Postings(lines, slip, LineagesOf(file[|erp|..]))
  {
    hide ParseRow, RowsFor, Postable, IsValid, BuildEvent, ReadEvents, NumberedFile, EventId, NewId, RenameAll, AllReadable, EventOfRow, Posting;
    RowsForLength(lines, slip);
    ValidFileEvents(erp, runId, slip.entity);
    assert NumberedFile(file) by { ExtendsNumbered(file, erp, RowsFor(lines, slip)); }
    ValidFileEvents(file, slip.runId, slip.entity);
    var again, posted := ReadEvents(file, slip.runId, slip.entity), Postings(lines, slip, LineagesOf(file[|erp|..]));
    forall i | 0 <= i < |file| ensures again[i] == (RenameAll(r, events) + posted)[i] {
      if i < |erp| {
        ReadableAt(erp, i);
        OldRowAgain(erp[i], file[i], runId, slip.runId, slip.entity);
        RenameAllAt(r, events, i);
        RenamedErp(r, events[i], slip.runId, file[i].lineage);
      } else {
        AppendedRow(lines, slip, file, erp, i - |erp|);
      }
    }
  }

  lemma ExtendsNumbered(file: seq<FileRow>, erp: seq<FileRow>, more: seq<ErpRow>)
    requires Extends(file, erp, more)
    ensures NumberedFile(file)
  {
  }

  lemma ReadableAt(rows: seq<FileRow>, i: nat)
    requires AllReadable(rows) && i < |rows|
    ensures ParseRow(rows[i].cells).Ok?
  {
  }

  lemma RenamedErp(r: Renaming, e: Event, newRun: string, lineage: Lineage)
    requires r.runId == newRun && r.narrations == map[] && e.eventId in r.lineages && r.lineages[e.eventId] == lineage
    ensures Rename(r, e) == e.(eventId := NewId(r, e.eventId), runId := newRun, lineage := lineage)
  {
  }
}
