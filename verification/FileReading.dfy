/** How the rows of an ERP file are read, told by their cells. */
module FileReading {
  import opened Events
  import opened Transforms
  import opened Ledger
  import opened Normalization
  import opened ErpImport

  // ---- one row ------------------------------------------------------------------------------

  predicate IsAmount(cell: string, minor: int) {
    ParseDecimalMinor(cell) == Some(minor)
  }

  predicate IsUnreadable(cell: string) {
    ParseDecimalMinor(cell).None?
  }

  /** The first thing that is wrong with a row, if anything is. */
  ghost function FirstFault(row: ErpRow): Option<string> {
    if Strip(row.journalId) == "" then Some("JOURNAL_ID_MISSING")
    else if !exists n: int :: n >= 1 && ParseInteger(row.lineNumber) == Some(n) then Some("LINE_NUMBER_INVALID")
    else if row.postingDate.None? then Some("POSTING_DATE_INVALID")
    else if Strip(row.account) == "" then Some("ACCOUNT_CODE_MISSING")
    else if IsUnreadable(row.debit) then Some("DEBIT_MINOR_INVALID")
    else if IsUnreadable(row.credit) then Some("CREDIT_MINOR_INVALID")
    else if exists n :: n < 0 && (IsAmount(row.debit, n) || IsAmount(row.credit, n)) then Some("ERP_AMOUNT_NEGATIVE")
    else if IsAmount(row.debit, 0) && IsAmount(row.credit, 0) then Some("ERP_SIDES_INVALID")
    else if !IsAmount(row.debit, 0) && !IsAmount(row.credit, 0) then Some("ERP_SIDES_INVALID")
    else if !IsCurrency(Upper(Strip(row.currency))) then Some("CURRENCY_INVALID")
    else None
  }

  /** The event says what the row says: the side that is not zero, its amount, and the trimmed texts. */
  ghost predicate ReadFrom(row: ErpRow, runId: string, entity: string, e: Event) {
    && e.source == Erp && e.kind == ErpJournalLine && e.runId == runId && e.entity == entity
    && e.amount > 0 && IsAmount(row.debit, if e.direction == Debit then e.amount else 0)
    && IsAmount(row.credit, if e.direction == Credit then e.amount else 0)
    && e.account == Strip(row.account) && e.currency == Upper(Strip(row.currency))
    && row.postingDate == Some(e.day) && e.valueDate == Some(e.day)
    && e.externalRef == e.settlementRef == Strip(row.reference) && e.utr == "" && e.narration == Strip(row.narration)
    && (exists n: nat :: ParseInteger(row.lineNumber) == Some(n) && e.recordId == Strip(row.journalId) + ":" + Digits(n))
    && e.eventId == runId + ":ERP:" + e.recordId
  }

  lemma {:induction false} FaultsExactly(row: ErpRow)
    ensures FirstFault(row) == if ParseRow(row).Ok? then None else Some(CodeOf(ParseRow(row).error))
  {
    hide Strip, ParseDecimalMinor, ParseInteger, Upper, IsCurrency;
    var line := ParseInteger(row.lineNumber);
    assert (exists n: int :: n >= 1 && ParseInteger(row.lineNumber) == Some(n)) <==> line.Some? && line.value >= 1;
    var debit, credit := ParseDecimalMinor(row.debit), ParseDecimalMinor(row.credit);
    if debit.Some? && credit.Some? {
      assert IsAmount(row.debit, debit.value) && IsAmount(row.credit, credit.value);
    }
  }

  /** A row is unreadable for its first fault, or becomes the event that it says. */
  lemma {:induction false} RowReadsExactly(row: FileRow, runId: string, entity: string)
    ensures var reading := ReadRow(row, runId, entity).reading;
      && ReadRow(row, runId, entity).number == row.number
      && (match FirstFault(row.cells)
          case Some(code) => reading == Unreadable(code)
          case None => reading.Readable? && ReadFrom(row.cells, runId, entity, reading.event) && reading.event.lineage == row.lineage)
  {
    FaultsExactly(row.cells);
    hide Strip, ParseDecimalMinor, ParseInteger, Upper, IsCurrency, Digits, FirstFault;
    var v := ParseRow(row.cells);
    if v.Ok? {
      var e := BuildEvent(v.value, runId, entity, row.lineage);
      assert ParseInteger(row.cells.lineNumber) == Some(v.value.line) && e.recordId == Strip(row.cells.journalId) + ":" + Digits(v.value.line);
      IdSpelled(runId, e.recordId);
    }
  }

  lemma IdSpelled(runId: string, recordId: string)
    ensures EventId(runId, Erp, recordId) == runId + ":ERP:" + recordId
  {
    assert ":" + ("ERP" + (":" + recordId)) == ":ERP:" + recordId;
  }

  // ---- journals across the file -------------------------------------------------------------

  /** What the lines of a journal add up to on one side. */
  function JournalSide(es: seq<Entry>, journalId: string, side: Direction): nat {
    if es == [] then 0
    else
      JournalSide(es[..|es| - 1], journalId, side)
      + (var v := es[|es| - 1].values; if v.journalId == journalId && v.direction == side then v.amount else 0)
  }

  lemma OneMoreLine(members: seq<Entry>, e: Entry, side: Direction, line: nat)
    ensures SideOf(members + [e], side) == SideOf(members, side) + (if e.values.direction == side then e.values.amount else 0)
    ensures CountLine(members + [e], line) == CountLine(members, line) + (if e.values.line == line then 1 else 0)
  {
    assert (members + [e])[..|members|] == members;
  }

  lemma {:induction false} SideOfJournal(es: seq<Entry>, journalId: string, side: Direction)
    ensures SideOf(OfJournal(es, journalId), side) == JournalSide(es, journalId, side)
  {
    if es != [] {
      var init, last := es[..|es| - 1], es[|es| - 1];
      SideOfJournal(init, journalId, side);
      var before := OfJournal(init, journalId);
      assert OfJournal(es, journalId) == if last.values.journalId == journalId then before + [last] else before;
      hide SideOf, OfJournal;
      OneMoreLine(before, last, side, 0);
    }
  }

  /** The entry is a line of a journal that does not balance. */
  predicate OutOfBalance(es: seq<Entry>, e: Entry) {
    JournalSide(es, e.values.journalId, Debit) != JournalSide(es, e.values.journalId, Credit)
  }

  lemma {:induction false} LineFlags(members: seq<Entry>, k: nat, x: Issue)
    requires k <= |members|
    ensures x in LineIssues(members, k) && !x.blocking
      <==> exists i :: 0 <= i < k && SideOf(members, Debit) != SideOf(members, Credit) && x == Issue(Some(members[i].number), UNBALANCED, false)
  {
    hide CountLine, SideOf;
    if k > 0 {
      LineFlags(members, k - 1, x);
    }
  }

  lemma {:induction false} JournalFlags(es: seq<Entry>, ids: seq<string>, x: Issue)
    ensures x in IssuesOf(es, ids) && !x.blocking
      <==> exists e :: e in es && e.values.journalId in ids && OutOfBalance(es, e) && x == Issue(Some(e.number), UNBALANCED, false)
  {
    hide LineIssues, OfJournal, SideOf, JournalSide;
    if ids != [] {
      var init, last := ids[..|ids| - 1], ids[|ids| - 1];
      var members := OfJournal(es, last);
      JournalFlags(es, init, x);
      LineFlags(members, |members|, x);
      SideOfJournal(es, last, Debit);
      SideOfJournal(es, last, Credit);
      assert ids == init + [last];
      assert forall id :: id in ids <==> id in init || id == last;
      if i :| 0 <= i < |members| && SideOf(members, Debit) != SideOf(members, Credit) && x == Issue(Some(members[i].number), UNBALANCED, false) {
        OfJournalMembers(es, last, members[i]);
        assert members[i] in members && OutOfBalance(es, members[i]);
      }
      if e :| e in es && e.values.journalId == last && OutOfBalance(es, e) && x == Issue(Some(e.number), UNBALANCED, false) {
        OfJournalMembers(es, last, e);
        var i :| 0 <= i < |members| && members[i] == e;
      }
    }
  }

  /** The file check flags, without blocking them, exactly the lines of journals that do not balance. */
  lemma {:induction false} UnbalancedAreFlagged(rows: seq<FileRow>, x: Issue)
    ensures x in BatchIssues(rows) && !x.blocking
      <==> exists e :: e in Entries(rows) && OutOfBalance(Entries(rows), e) && x == Issue(Some(e.number), "JOURNAL_UNBALANCED", false)
  {
    var es := Entries(rows);
    hide JournalSide, OfJournal, Entries, IssuesOf;
    DistinctIsDistinct(JournalIds(es));
    JournalFlags(es, Distinct(JournalIds(es)), x);
    forall e | e in es ensures e.values.journalId in JournalIds(es) {
      var i :| 0 <= i < |es| && es[i] == e;
      assert JournalIds(es)[i] == e.values.journalId;
    }
  }

  // ---- repeated lines -----------------------------------------------------------------------

  predicate IsLine(e: Entry, journalId: string, line: nat) {
    e.values.journalId == journalId && e.values.line == line
  }

  /** How many readable rows are this line of this journal. */
  function LineCount(es: seq<Entry>, journalId: string, line: nat): nat {
    if es == [] then 0 else LineCount(es[..|es| - 1], journalId, line) + (if IsLine(es[|es| - 1], journalId, line) then 1 else 0)
  }

  lemma {:induction false} CountInJournal(es: seq<Entry>, journalId: string, line: nat)
    ensures CountLine(OfJournal(es, journalId), line) == LineCount(es, journalId, line)
  {
    if es != [] {
      var init, last := es[..|es| - 1], es[|es| - 1];
      CountInJournal(init, journalId, line);
      var before := OfJournal(init, journalId);
      assert OfJournal(es, journalId) == if last.values.journalId == journalId then before + [last] else before;
      hide CountLine, OfJournal;
      OneMoreLine(before, last, Debit, line);
    }
  }

  lemma {:induction false} CountedByPairs(es: seq<Entry>, journalId: string, line: nat)
    ensures LineCount(es, journalId, line) >= 1 <==> exists i :: 0 <= i < |es| && IsLine(es[i], journalId, line)
    ensures LineCount(es, journalId, line) > 1
      <==> exists i, j :: 0 <= i < j < |es| && IsLine(es[i], journalId, line) && IsLine(es[j], journalId, line)
  {
    hide IsLine;
    if es != [] {
      var init, last := es[..|es| - 1], es[|es| - 1];
      CountedByPairs(init, journalId, line);
      if i :| 0 <= i < |init| && IsLine(init[i], journalId, line) {
        assert IsLine(es[i], journalId, line);
      }
      if i, j :| 0 <= i < j < |init| && IsLine(init[i], journalId, line) && IsLine(init[j], journalId, line) {
        assert IsLine(es[i], journalId, line) && IsLine(es[j], journalId, line);
      }
      if i, j :| 0 <= i < j < |es| && IsLine(es[i], journalId, line) && IsLine(es[j], journalId, line) {
        assert IsLine(init[i], journalId, line);
        if j < |init| {
          assert IsLine(init[j], journalId, line);
        }
      }
      if i :| 0 <= i < |es| && IsLine(es[i], journalId, line) {
        assert i < |init| ==> IsLine(init[i], journalId, line);
      }
    }
  }

  /** A line is repeated exactly when two readable rows of the file are that line of that journal. */
  lemma {:induction false} RepeatedExactly(rows: seq<FileRow>, e: Entry)
    ensures Repeated(rows, e) <==>
      exists i, j :: 0 <= i < j < |Entries(rows)|
        && IsLine(Entries(rows)[i], e.values.journalId, e.values.line) && IsLine(Entries(rows)[j], e.values.journalId, e.values.line)
  {
    hide Entries, LineCount, CountLine, OfJournal, IsLine;
    var es, id, line := Entries(rows), e.values.journalId, e.values.line;
    CountInJournal(es, id, line);
    CountedByPairs(es, id, line);
    assert Repeated(rows, e) <==> CountLine(OfJournal(es, id), line) > 1;
  }
}
